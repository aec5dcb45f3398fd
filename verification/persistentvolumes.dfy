/** The `kubernetes_persistentvolumes` table: one row per PersistentVolume. */
module PersistentVolumes {
  import opened Wrappers
  import opened Kube
  import opened Rows

  /** The declared columns, in declaration order. */
  const Columns: seq<string> :=
    ["name", "status", "capacity", "path", "storageclass_name", "nodeaffinity"]

  /** The table record built by the constructor; the cluster client it also
      keeps is the `listing` argument of `Generate` here. */
  function NewPersistentVolumesTable(): (t: Table)
    ensures t.Name() == "kubernetes_persistentvolumes"
    ensures t.Columns() == ["name", "status", "capacity", "path", "storageclass_name", "nodeaffinity"]
    ensures Distinct(t.Columns())
  {
    Table("kubernetes_persistentvolumes", Columns)
  }

  /** The node affinity as JSON text, or "" when serialisation fails. */
  function GetNodeAffinity(codecs: Codecs, affinity: VolumeNodeAffinity): (source: string)
    ensures codecs.marshal(affinity).Some? ==> source == codecs.marshal(affinity).value
    ensures codecs.marshal(affinity).None? ==> source == ""
  {
    match codecs.marshal(affinity)
    case Some(json) => json
    case None => ""
  }

  /** The row of one volume: the three unconditional columns, then each
      optional column only when its source field is there. */
  function Project(codecs: Codecs, pv: PersistentVolume): (row: Row)
    ensures WithinSchema(row, Columns)
    ensures "name" in row && row["name"] == pv.metadata.name
    ensures "status" in row && row["status"] == pv.status.phase
    ensures "storageclass_name" in row && row["storageclass_name"] == pv.spec.storageClassName
    ensures "capacity" in row <==> Storage in pv.spec.capacity
    ensures "capacity" in row ==> row["capacity"] == codecs.quantityString(pv.spec.capacity[Storage])
    ensures "path" in row <==> pv.spec.local.Some?
    ensures "path" in row ==> row["path"] == pv.spec.local.value.path
    ensures "nodeaffinity" in row <==> pv.spec.nodeAffinity.Some?
    ensures "nodeaffinity" in row ==>
              row["nodeaffinity"] == GetNodeAffinity(codecs, pv.spec.nodeAffinity.value)
  {
    var base := map[
      "name" := pv.metadata.name,
      "status" := pv.status.phase,
      "storageclass_name" := pv.spec.storageClassName];
    var withCapacity :=
      if Storage in pv.spec.capacity
      then base["capacity" := codecs.quantityString(pv.spec.capacity[Storage])]
      else base;
    var withPath :=
      match pv.spec.local
      case Some(local) => withCapacity["path" := local.path]
      case None => withCapacity;
    match pv.spec.nodeAffinity
    case Some(affinity) => withPath["nodeaffinity" := GetNodeAffinity(codecs, affinity)]
    case None => withPath
  }

  /** All rows of one query: a failed list call yields its error and no
      rows; a successful one yields exactly one row per listed volume. */
  function Generate(codecs: Codecs, listing: Result<seq<PersistentVolume>, ApiError>)
    : (r: Result<seq<Row>, ApiError>)
    ensures listing.Failure? <==> r.Failure?
    ensures listing.Failure? ==> r.error == listing.error
    ensures listing.Success? ==>
              && |r.value| == |listing.value|
              && forall i :: 0 <= i < |listing.value| ==> r.value[i] == Project(codecs, listing.value[i])
  {
    match listing
    case Failure(err) => Failure(err)
    case Success(items) => Success(ProjectAll(pv => Project(codecs, pv), items))
  }

  /** Every row a query returns fits the table's declared columns and
      carries the three unconditional ones. */
  lemma GenerateFitsSchema(codecs: Codecs, listing: Result<seq<PersistentVolume>, ApiError>)
    ensures var r := Generate(codecs, listing);
            r.Success? ==>
              forall i :: 0 <= i < |r.value| ==>
                && WithinSchema(r.value[i], NewPersistentVolumesTable().Columns())
                && r.value[i].Keys >= {"name", "status", "storageclass_name"}
  {
  }

  /** A volume with neither a local path nor a node affinity yields a row
      with neither column, whatever else it carries. */
  lemma NoLocalNoAffinityOmitsBoth(codecs: Codecs, pv: PersistentVolume)
    requires pv.spec.local.None? && pv.spec.nodeAffinity.None?
    ensures "path" !in Project(codecs, pv) && "nodeaffinity" !in Project(codecs, pv)
  {
  }

  /** An empty storage class name is still emitted, as "". */
  lemma EmptyStorageClassKept(codecs: Codecs, pv: PersistentVolume)
    requires pv.spec.storageClassName == ""
    ensures "storageclass_name" in Project(codecs, pv)
    ensures Project(codecs, pv)["storageclass_name"] == ""
  {
  }

  /** A node affinity that cannot be serialised still yields the column,
      with the empty string. */
  lemma UnserialisableAffinityKept(codecs: Codecs, pv: PersistentVolume)
    requires pv.spec.nodeAffinity.Some? && codecs.marshal(pv.spec.nodeAffinity.value).None?
    ensures "nodeaffinity" in Project(codecs, pv)
    ensures Project(codecs, pv)["nodeaffinity"] == ""
  {
  }
}
