/** The slice of the Kubernetes core/v1 object model that the two table
    adapters read, together with the two library renderings they call.
    Every nilable pointer of the API types is an `Option`; every
    `ResourceList` is a map from resource name to quantity. */
module Kube {
  import opened Wrappers

  /** Object metadata: the adapters read only the name. */
  datatype ObjectMeta = ObjectMeta(name: string)

  /** How a quantity was written when it was parsed. */
  datatype QuantityFormat = DecimalExponent | BinarySI | DecimalSI

  /** A resource amount: `amount * 10^scale`, remembered together with the
      notation it came in. The adapters never look inside a quantity; they
      only hand it to the library rendering `Codecs.quantityString`, and
      these fields exist to give that rendering an input of the real shape. */
  datatype Quantity = Quantity(amount: int, scale: int, format: QuantityFormat)

  /** A `ResourceList`: resource name (such as "storage") to amount. */
  type ResourceList = map<string, Quantity>

  /** The key under which both adapters look up storage amounts. */
  const Storage: string := "storage"

  // ---- PersistentVolume ----

  datatype LocalVolumeSource = LocalVolumeSource(path: string)

  datatype NodeSelectorRequirement =
    NodeSelectorRequirement(key: string, operator: string, values: seq<string>)

  datatype NodeSelectorTerm =
    NodeSelectorTerm(matchExpressions: seq<NodeSelectorRequirement>,
                     matchFields: seq<NodeSelectorRequirement>)

  datatype NodeSelector = NodeSelector(nodeSelectorTerms: seq<NodeSelectorTerm>)

  /** Scheduling constraint of a volume; every part of it is optional. */
  datatype VolumeNodeAffinity = VolumeNodeAffinity(required: Option<NodeSelector>)

  datatype PersistentVolumeSpec = PersistentVolumeSpec(
    capacity: ResourceList,
    local: Option<LocalVolumeSource>,
    storageClassName: string,
    nodeAffinity: Option<VolumeNodeAffinity>)

  datatype PersistentVolumeStatus = PersistentVolumeStatus(phase: string)

  datatype PersistentVolume = PersistentVolume(
    metadata: ObjectMeta,
    spec: PersistentVolumeSpec,
    status: PersistentVolumeStatus)

  // ---- PersistentVolumeClaim ----

  datatype ResourceRequirements = ResourceRequirements(requests: ResourceList)

  datatype PersistentVolumeClaimSpec = PersistentVolumeClaimSpec(
    resources: ResourceRequirements,
    volumeName: string,
    storageClassName: Option<string>,
    volumeMode: Option<string>)

  datatype PersistentVolumeClaimStatus = PersistentVolumeClaimStatus(phase: string, capacity: ResourceList)

  datatype PersistentVolumeClaim = PersistentVolumeClaim(
    metadata: ObjectMeta,
    spec: PersistentVolumeClaimSpec,
    status: PersistentVolumeClaimStatus)

  // ---- the API and library boundary ----

  /** An error returned by the cluster API's list call (network, auth, ...). */
  datatype ApiError = ApiError(message: string)

  /** The two library routines the adapters call, whose internals are not
      part of this model: the canonical text of a quantity ("10Gi"), and
      JSON serialisation of a node affinity, which may fail (`None`). */
  datatype Codecs = Codecs(
    quantityString: Quantity -> string,
    marshal: VolumeNodeAffinity -> Option<string>)
}
