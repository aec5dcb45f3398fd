# kube-query persistent volume tables, modelled in Dafny

kube-query exposes Kubernetes cluster state to osquery as SQL tables. This
project models the two storage tables: `kubernetes_persistentvolumes` and
`kubernetes_persistentvolumeclaims`. Each table declares a fixed, ordered
list of text columns. On every query it lists all objects of its kind from
the cluster API. It then turns each object into one flat row, a
`map<string, string>` from column name to text.

A row always holds three columns. Every other column appears only when its
source field is present: a non-nil pointer, or a `"storage"` entry in a
resource map. An absent field leaves the key out of the row. It is never
written as a placeholder. If the list call fails, the query returns that
error and no rows.

Files:

- `wrappers.dfy`: the `Option` and `Result` types.
- `kube.dfy`: the core/v1 object fields the tables read. Nilable pointers
  are `Option`s and `ResourceList`s are maps. `Quantity` keeps an amount,
  scale and format only so that the quantity rendering has an input of the
  real shape; the tables never read them. `Codecs` holds the two library
  calls the tables make.
- `rows.dfy`: the row type, the `Table` record (`Name`, `Columns`) and
  `ProjectAll`, which maps a projection over a listing.
- `persistentvolumes.dfy`, `persistentvolumeclaims.dfy`: one module per
  table, holding its constructor, its per-object projection, `Generate` and
  lemmas about them.

The cluster API's list call is the `listing` argument of `Generate`, of type
`Result<seq<Obj>, ApiError>`. `Quantity.String()` is the parameter
`codecs.quantityString`. `json.Marshal` of a node affinity is the parameter
`codecs.marshal`, which returns `None` when serialisation fails.

Two facts about the code shape the rows:

- The table names carry a `kubernetes_` prefix.
- A volume's `storageclass_name` and a claim's `volumename` are plain
  strings, so they are always set, even when empty.

## Model

| member | source | states |
|---|---|---|
| PersistentVolumes.NewPersistentVolumesTable | tables/persistentvolumes.go:27-51 | `Name()` is "kubernetes_persistentvolumes"; `Columns()` is the six columns name, status, capacity, path, storageclass_name, nodeaffinity, in that order, with none repeated |
| PersistentVolumes.GetNodeAffinity | tables/persistentvolumes.go:54-63 | the JSON text of the affinity when serialisation succeeds, otherwise the empty string; it never fails |
| PersistentVolumes.Project | tables/persistentvolumes.go:74-93 | the row keys are within the six declared columns. name, status and storageclass_name are always present, copied verbatim. capacity is present iff the capacity map has "storage", and then holds that quantity's text. path is present iff Spec.Local is set, and then holds Local.Path. nodeaffinity is present iff Spec.NodeAffinity is set, and then holds its serialisation or "" |
| PersistentVolumes.Generate | tables/persistentvolumes.go:66-100 | a failed list gives a failure with the same error and no rows. A successful list gives as many rows as items, with row i the projection of item i |
| PersistentVolumes.GenerateFitsSchema | tables/persistentvolumes.go:28-35 | every row `Generate` returns uses only columns the table's `Columns()` declares, and holds name, status and storageclass_name |
| PersistentVolumes.NoLocalNoAffinityOmitsBoth | tables/persistentvolumes.go:86-93 | a volume with neither a local source nor a node affinity has neither a path nor a nodeaffinity key |
| PersistentVolumes.EmptyStorageClassKept | tables/persistentvolumes.go:75-79 | an empty storage class name still appears in the row, as "" |
| PersistentVolumes.UnserialisableAffinityKept | tables/persistentvolumes.go:59-62 | when serialisation fails, the nodeaffinity column is still present and holds "" |
| PersistentVolumeClaims.NewPersistentVolumeClaimsTable | tables/persistentvolumeclaims.go:25-50 | `Name()` is "kubernetes_persistentvolumeclaims"; `Columns()` is the seven columns name, status, storageclass_name, capacity, requested, volumename, volumemode, in that order, with none repeated |
| PersistentVolumeClaims.Project | tables/persistentvolumeclaims.go:63-85 | the row keys are within the seven declared columns. name, status and volumename are always present, copied verbatim. volumemode and storageclass_name are present iff their pointers are set, and then hold the pointed-to value. capacity is present iff Status.Capacity has "storage". requested is present iff Spec.Resources.Requests has "storage". Each of those two holds its quantity's text |
| PersistentVolumeClaims.Generate | tables/persistentvolumeclaims.go:53-91 | a failed list gives a failure with the same error and no rows. A successful list gives as many rows as items, with row i the projection of item i |
| PersistentVolumeClaims.GenerateFitsSchema | tables/persistentvolumeclaims.go:26-34 | every row `Generate` returns uses only columns the table's `Columns()` declares, and holds name, status and volumename |
| PersistentVolumeClaims.UnboundVolumeNameKept | tables/persistentvolumeclaims.go:64-68 | a claim with an empty volume name still has the volumename column, as "" |
| PersistentVolumeClaims.BoundClaimRow | tables/persistentvolumeclaims.go:63-85 | the bound claim "data-1" (class "fast", 5Gi requested and provisioned, volume "pv-7", no volume mode) yields exactly the six-column row, with no volumemode key |
| Rows.ProjectAll | tables/persistentvolumes.go:73-98 | the shared row loop: one row per item, in list order, with row i the projection of item i |

## Left out

- The Kubernetes client calls `PersistentVolumes().List` and `PersistentVolumeClaims(NamespaceAll).List` are network I/O. Their outcome is the `listing` input.
- `log.Println` diagnostics on a failed list are not modelled: they do not affect the result.
- The `context.Context` and the osquery `QueryContext` are ignored by the code, so they are not parameters of the model.
- The `metricsClient` field is never set or read, so it is not modelled.
- osquery's `ColumnDefinition` and the text column type are not modelled. A column is its name, and the schema is an ordered `seq<string>`.
- The internals of `resource.Quantity.String()` are foreign library code. The model takes the rendering as the parameter `codecs.quantityString` and only requires that the row holds its result.
- The internals of `encoding/json.Marshal` are foreign library code, including how it omits empty fields. The model takes it as `codecs.marshal`, which may fail.
- The pointer-to-slice mechanics of `make` and indexed assignment in the row loop are not modelled. `ProjectAll` builds the same sequence functionally.
