/** The `kubernetes_persistentvolumeclaims` table: one row per
    PersistentVolumeClaim in any namespace. */
module PersistentVolumeClaims {
  import opened Wrappers
  import opened Kube
  import opened Rows

  /** The declared columns, in declaration order. */
  const Columns: seq<string> :=
    ["name", "status", "storageclass_name", "capacity", "requested", "volumename", "volumemode"]

  /** The table record built by the constructor; the cluster client it also
      keeps is the `listing` argument of `Generate` here. */
  function NewPersistentVolumeClaimsTable(): (t: Table)
    ensures t.Name() == "kubernetes_persistentvolumeclaims"
    ensures t.Columns() ==
              ["name", "status", "storageclass_name", "capacity", "requested", "volumename", "volumemode"]
    ensures Distinct(t.Columns())
  {
    Table("kubernetes_persistentvolumeclaims", Columns)
  }

  /** The row of one claim: the three unconditional columns, then each
      optional column only when its source field is there. */
  function Project(codecs: Codecs, pvc: PersistentVolumeClaim): (row: Row)
    ensures WithinSchema(row, Columns)
    ensures "name" in row && row["name"] == pvc.metadata.name
    ensures "status" in row && row["status"] == pvc.status.phase
    ensures "volumename" in row && row["volumename"] == pvc.spec.volumeName
    ensures "volumemode" in row <==> pvc.spec.volumeMode.Some?
    ensures "volumemode" in row ==> row["volumemode"] == pvc.spec.volumeMode.value
    ensures "storageclass_name" in row <==> pvc.spec.storageClassName.Some?
    ensures "storageclass_name" in row ==> row["storageclass_name"] == pvc.spec.storageClassName.value
    ensures "capacity" in row <==> Storage in pvc.status.capacity
    ensures "capacity" in row ==> row["capacity"] == codecs.quantityString(pvc.status.capacity[Storage])
    ensures "requested" in row <==> Storage in pvc.spec.resources.requests
    ensures "requested" in row ==>
              row["requested"] == codecs.quantityString(pvc.spec.resources.requests[Storage])
  {
    var base := map[
      "name" := pvc.metadata.name,
      "status" := pvc.status.phase,
      "volumename" := pvc.spec.volumeName];
    var withMode :=
      match pvc.spec.volumeMode
      case Some(mode) => base["volumemode" := mode]
      case None => base;
    var withClass :=
      match pvc.spec.storageClassName
      case Some(className) => withMode["storageclass_name" := className]
      case None => withMode;
    var withCapacity :=
      if Storage in pvc.status.capacity
      then withClass["capacity" := codecs.quantityString(pvc.status.capacity[Storage])]
      else withClass;
    if Storage in pvc.spec.resources.requests
    then withCapacity["requested" := codecs.quantityString(pvc.spec.resources.requests[Storage])]
    else withCapacity
  }

  /** All rows of one query: a failed list call yields its error and no
      rows; a successful one yields exactly one row per listed claim. */
  function Generate(codecs: Codecs, listing: Result<seq<PersistentVolumeClaim>, ApiError>)
    : (r: Result<seq<Row>, ApiError>)
    ensures listing.Failure? <==> r.Failure?
    ensures listing.Failure? ==> r.error == listing.error
    ensures listing.Success? ==>
              && |r.value| == |listing.value|
              && forall i :: 0 <= i < |listing.value| ==> r.value[i] == Project(codecs, listing.value[i])
  {
    match listing
    case Failure(err) => Failure(err)
    case Success(items) => Success(ProjectAll(pvc => Project(codecs, pvc), items))
  }

  /** Every row a query returns fits the table's declared columns and
      carries the three unconditional ones. */
  lemma GenerateFitsSchema(codecs: Codecs, listing: Result<seq<PersistentVolumeClaim>, ApiError>)
    ensures var r := Generate(codecs, listing);
            r.Success? ==>
              forall i :: 0 <= i < |r.value| ==>
                && WithinSchema(r.value[i], NewPersistentVolumeClaimsTable().Columns())
                && r.value[i].Keys >= {"name", "status", "volumename"}
  {
  }

  /** A claim not yet bound to a volume still has the column, as "". */
  lemma UnboundVolumeNameKept(codecs: Codecs, pvc: PersistentVolumeClaim)
    requires pvc.spec.volumeName == ""
    ensures "volumename" in Project(codecs, pvc)
    ensures Project(codecs, pvc)["volumename"] == ""
  {
  }

  /** A bound claim "data-1" of class "fast" with 5Gi requested and
      provisioned and no volume mode yields exactly six columns. */
  lemma BoundClaimRow(codecs: Codecs, q: Quantity)
    requires codecs.quantityString(q) == "5Gi"
    ensures
      var pvc := PersistentVolumeClaim(
        ObjectMeta("data-1"),
        PersistentVolumeClaimSpec(ResourceRequirements(map[Storage := q]), "pv-7", Some("fast"), None),
        PersistentVolumeClaimStatus("Bound", map[Storage := q]));
      Project(codecs, pvc) == map[
        "name" := "data-1", "status" := "Bound", "storageclass_name" := "fast",
        "capacity" := "5Gi", "requested" := "5Gi", "volumename" := "pv-7"]
  {
  }
}
