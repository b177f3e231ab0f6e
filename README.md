# flux-arche project tree: node variants and processing-event aggregation

This project models the core of `src/lib/implementation/tree-nodes.ts` of flux-arche.
That file describes a geomechanical-simulation project as a tree of typed nodes. It also
counts the processing events that solver runs report back to nodes.

- `wrappers.dfy` (module `Wrappers`): `Option`. It stands for a record field that the
  caller may leave `undefined`.
- `nodes.dfy` (module `ArcheNodes`): the node variant model.
  - `Node` holds the fields every class has: `id`, `ownerId`, `name`, `type`, `children`.
    It also holds a `Kind`, with one constructor per node class carrying that class's
    parameters.
  - Each class constructor is one function, for example `NewMaterial` or
    `NewObservationMesh`. Its arguments are the record fields, and it fills in what the
    caller omitted exactly as the source does:
    - `id ? id : uuidv4()` for the id;
    - `type || []` for the type;
    - `parameters || {…}` for the per-kind defaults;
    - `children || []` for observation meshes.
  - Some kinds have a fixed `type`: `["mesh"]`, `['boundary-condition']`,
    `['constraint']`, and the bare string `'dataframe'`. Their functions take no `type`
    argument.
  - `Conforms` is the per-kind catalogue that every constructor establishes: a
    non-empty id, no children on a leaf, children on an observation mesh, and the fixed
    type where there is one. `WellFormedTree` lifts it to whole trees.
- `processing.dfy` (module `Processing`): `ProcessingType` (Solve = 0, Resolve = 1),
  events, and the two `scan` pipelines as left folds (`FoldLeft`, `Scan`).
  - The root folds every event of `process$`, whatever its type.
  - An observation mesh keeps only the Resolve events of `signals$`. It adds their counts
    and appends their ids.
  - Both folds are tied to independent reference definitions: `TotalCount`,
    `ResolveEvents` and `IdsOf`.
  - The lemmas cover fold-over-concatenation, monotonicity, the step one event takes,
    and what a late root subscriber sees.
- `channels.dfy` (module `Channels`): the channels as objects.
  - `SignalChannel` is a node's `signals$`, a ReplaySubject. It keeps every posted event.
  - `ProcessSubject` is the root's `process$`, a BehaviorSubject. It holds a current
    value, and a ghost history records every value it has held.
  - `Post` and `Next` append one event. Their postconditions relate the new summary to
    the old one.

The uuid generator is a parameter: `generated: GeneratedId`, a non-empty string that the
caller supplies. Whether two generated ids differ is up to the generator.

In three places the code behaves differently from what one might expect, and the model
follows the code:

- A late subscriber does not always see the full summary. An observation mesh's
  `signals$` replays every event, so once a Resolve event has been posted a subscriber
  attaching at any time receives the fold of all of them. Before that, `processes$`
  has emitted nothing (`Channels.SignalChannel.LastEmitted`). The root's `processes$`, however, is a `scan` over a
  BehaviorSubject, which hands a new subscriber only the current value.
  `Processing.RootSeenFrom` models what such a subscriber sees, and
  `Processing.LateRootSubscriberSeesCurrentValueOnly` gives an example.
- For the events "a Resolve with count 1, a Solve with count 5, another Resolve with
  count 1", the root adds every count, Solve included, and reaches 7. The mesh counts
  only the two Resolve events (`Processing.ThreeEventScenario`).
- A missing required field, such as a mesh's `fileId`, does not stop construction: the
  code checks nothing. The model takes required fields as plain arguments, never
  `Option`, and has no error path for them.

## Model

| member | source | states |
|---|---|---|
| `ArcheNodes.NewNode` | src/lib/implementation/tree-nodes.ts:27-33 | a supplied non-empty id is kept verbatim and an absent or empty one is replaced by the generated id; `type` is kept when truthy and is `[]` otherwise; `ownerId`, `name` and `children` are copied |
| `ArcheNodes.NewRoot` | src/lib/implementation/tree-nodes.ts:50-60 | the root keeps its identity, type and children as given and conforms to the catalogue |
| `ArcheNodes.RootIgnoresParameters` | src/lib/implementation/tree-nodes.ts:50-54 | the `parameters` the root constructor accepts have no effect on the node |
| `ArcheNodes.OmittedIdsAreGenerated` | src/lib/implementation/tree-nodes.ts:29 | two nodes built without an id have different ids exactly when the generator handed out different ones |
| `ArcheNodes.NewMaterial` | src/lib/implementation/tree-nodes.ts:71-79 | a material is a leaf; supplied parameters are kept unchanged, omitted ones become `{poisson:0, young:0, density:0}` |
| `ArcheNodes.NewFolder` | src/lib/implementation/tree-nodes.ts:90 | a folder keeps its identity, type and children as given |
| `ArcheNodes.NewFile` | src/lib/implementation/tree-nodes.ts:98-101 | a file node records its `fileId` and keeps its children as given |
| `ArcheNodes.NewFolderDiscontinuity` | src/lib/implementation/tree-nodes.ts:110 | a discontinuity folder keeps its identity, type and children as given |
| `ArcheNodes.NewDiscontinuity` | src/lib/implementation/tree-nodes.ts:113-118 | a discontinuity keeps its identity, type and children as given |
| `ArcheNodes.NewMesh` | src/lib/implementation/tree-nodes.ts:128-132 | a mesh is typed `["mesh"]` whatever the caller wants, and records `fileId`, bounding box and children |
| `ArcheNodes.NewDiscontinuityMesh` | src/lib/implementation/tree-nodes.ts:142-146 | a discontinuity mesh is typed `["mesh"]` and is a leaf |
| `ArcheNodes.NewObservationMesh` | src/lib/implementation/tree-nodes.ts:154-157 | an observation mesh is typed `["mesh"]`; supplied children are kept, omitted children become `[]` |
| `ArcheNodes.NewBoundaryCondition` | src/lib/implementation/tree-nodes.ts:178-190 | a boundary condition is a leaf typed `['boundary-condition']`; supplied parameters are kept, and without them all three axes are `locked` with the constant-zero field |
| `ArcheNodes.NewFolderObservation` | src/lib/implementation/tree-nodes.ts:200 | an observation folder keeps its identity, type and children as given |
| `ArcheNodes.NewObservation` | src/lib/implementation/tree-nodes.ts:207-209 | an observation keeps its identity, type and children as given |
| `ArcheNodes.NewPlaneObservation` | src/lib/implementation/tree-nodes.ts:215 | a plane observation keeps its identity, type and children as given |
| `ArcheNodes.NewFolderRemote` | src/lib/implementation/tree-nodes.ts:222 | a remote folder keeps its identity, type and children as given |
| `ArcheNodes.NewAndersonianRemote` | src/lib/implementation/tree-nodes.ts:231-249 | an Andersonian remote is a leaf whose type defaults to `[]`; supplied parameters are kept, omitted ones become `{HSigma:0, hSigma:0, vSigma:0, theta:0}` |
| `ArcheNodes.NewCoulombConstraint` | src/lib/implementation/tree-nodes.ts:257-275 | a Coulomb constraint is a leaf typed `['constraint']`; supplied parameters are kept, omitted ones become `{friction:0, cohesion:0}` |
| `ArcheNodes.NewCoulombOrthoConstraint` | src/lib/implementation/tree-nodes.ts:283-287 | an orthotropic Coulomb constraint is a leaf typed `['constraint']`; omitted parameters become `{theta:0, frictionDip:0, frictionStrike:0}` |
| `ArcheNodes.NewRealization` | src/lib/implementation/tree-nodes.ts:298-304 | a realization is a leaf whose type is the string `'dataframe'`, not an array, and records its three file ids |
| `ArcheNodes.FolderOfWellFormed` | src/lib/implementation/tree-nodes.ts:90 | a folder built over well-formed subtrees is a well-formed tree |
| `ArcheNodes.ObservationMeshOfWellFormed` | src/lib/implementation/tree-nodes.ts:154-157 | an observation mesh built over well-formed children, or none, is a well-formed tree |
| `Processing.Ordinal` | src/lib/implementation/tree-nodes.ts:12-15 | the enum's run-time numbers: Solve is 0 (falsy) and Resolve is 1 |
| `Processing.PassesResolveFilter` | src/lib/implementation/tree-nodes.ts:159-160 | the filter `s.type && s.type == ProcessingType.Resolve` lets an event through exactly when its type is Resolve (Solve is 0 and falsy) |
| `Processing.FoldLeft` | src/lib/implementation/tree-nodes.ts:57 | the `scan` accumulator is the seed before any event and one reducer step after a single event |
| `Processing.FoldLeftAppend` | src/lib/implementation/tree-nodes.ts:57 | folding `s1 ++ s2` from a seed equals folding `s2` from the result of `s1` |
| `Processing.FoldLeftSnoc` | src/lib/implementation/tree-nodes.ts:161-162 | one more event applies the reducer once to the previous accumulator |
| `Processing.Scan` | src/lib/implementation/tree-nodes.ts:55-58 | `scan` emits one snapshot per event, the k-th being the fold of the first k+1 events |
| `Processing.RootStep` | src/lib/implementation/tree-nodes.ts:57 | the root reducer advances the count by the event's count, whatever its type |
| `Processing.RootSnapshots` | src/lib/implementation/tree-nodes.ts:55-58 | the k-th snapshot the root's `scan` emits counts the first k+1 values it was handed |
| `Processing.RootFoldIsSum` | src/lib/implementation/tree-nodes.ts:57 | the root reducer's count after a sequence is the seed's count plus the sum of all counts |
| `Processing.RootSeenFrom` | src/lib/implementation/tree-nodes.ts:47-58 | a root subscriber that attaches at value k counts exactly the sum of the values from k on |
| `Processing.RootProcesses` | src/lib/implementation/tree-nodes.ts:47-58 | after events e1..en, the root count seen since construction is `0 + Σ ei.count`; the initial `{type:'none', count:0}` adds 0 |
| `Processing.RootSeenFromPost` | src/lib/implementation/tree-nodes.ts:55-58 | each posted event advances a root subscriber by applying the reducer once |
| `Processing.RootSubscribersPost` | src/lib/implementation/tree-nodes.ts:55-58 | each posted event advances every root subscriber at once, whenever it attached |
| `Processing.RootIgnoresType` | src/lib/implementation/tree-nodes.ts:56-57 | the root count depends only on the events' counts, not on their types or ids |
| `Processing.RootProcessesGrow` | src/lib/implementation/tree-nodes.ts:57 | with non-negative counts the root count never decreases as events arrive |
| `Processing.TotalCountAppend` | src/lib/implementation/tree-nodes.ts:57 | the sum of counts over a concatenation is the sum of the two sums |
| `Processing.ResolveEvents` | src/lib/implementation/tree-nodes.ts:159-160 | the filtered events are all Resolve events, and each Resolve event occurs as often as it was posted (duplicates kept), each other event never |
| `Processing.ResolveEventsSingle` | src/lib/implementation/tree-nodes.ts:160 | a single event is kept exactly when it is a Resolve event |
| `Processing.ResolveEventsAppend` | src/lib/implementation/tree-nodes.ts:159-160 | filtering distributes over concatenation; with the single-event case this fixes the order to arrival order |
| `Processing.IdsOf` | src/lib/implementation/tree-nodes.ts:162 | the ids are each event's `id` in order, duplicates and absent ids included |
| `Processing.MeshStep` | src/lib/implementation/tree-nodes.ts:161-162 | the mesh reducer adds the event's count and appends exactly its id at the end of the ids |
| `Processing.MeshFoldIsSummary` | src/lib/implementation/tree-nodes.ts:161-163 | the mesh reducer over events yields the seed count plus their sum, and the seed ids followed by their ids |
| `Processing.MeshFoldCount` | src/lib/implementation/tree-nodes.ts:161-163 | the mesh fold's count is the seed count plus the sum of the folded events' counts |
| `Processing.MeshFoldIds` | src/lib/implementation/tree-nodes.ts:161-163 | the mesh fold's ids are the seed ids followed by the folded events' ids, in order |
| `Processing.ObservationProcesses` | src/lib/implementation/tree-nodes.ts:159-164 | the accumulator of the mesh's `scan` after events es counts the sum over the Resolve events only, and its ids are theirs in arrival order |
| `Processing.MeshSnapshots` | src/lib/implementation/tree-nodes.ts:159-164 | the k-th snapshot the mesh's `scan` emits sums the first k+1 Resolve events and lists their ids |
| `Processing.ObservationPost` | src/lib/implementation/tree-nodes.ts:159-163 | a Resolve event adds its count and appends its id; any other event, Solve included, leaves the summary unchanged |
| `Processing.ObservationAppend` | src/lib/implementation/tree-nodes.ts:159-163 | the mesh summary of `s1 ++ s2` is the fold of `s2`'s Resolve events from the summary of `s1` |
| `Processing.ObservationIdsGrow` | src/lib/implementation/tree-nodes.ts:161-162 | as events arrive, whatever their counts, the ids only grow by appending |
| `Processing.ObservationProcessesGrow` | src/lib/implementation/tree-nodes.ts:161-162 | with non-negative counts the mesh count never decreases as events arrive |
| `Processing.TotalCountNonNegative` | src/lib/implementation/tree-nodes.ts:57 | non-negative counts sum to a non-negative total |
| `Processing.ThreeEventScenario` | src/lib/implementation/tree-nodes.ts:159-163 | Resolve r1, Solve 5, Resolve r2 leave the mesh at `{count:2, ids:[r1, r2]}` and the root at count 7 |
| `Processing.LateRootSubscriberSeesCurrentValueOnly` | src/lib/implementation/tree-nodes.ts:47 | a root subscriber attaching after those events counts 1, the current value only, not 7 |
| `Channels.SignalChannel.constructor` | src/lib/implementation/tree-nodes.ts:21 | a node's `signals$` starts with no events |
| `Channels.SignalChannel.Processes` | src/lib/implementation/tree-nodes.ts:159-164 | the accumulator of the mesh's `scan` is the sum over the Resolve events posted so far and their ids; subscribers hold it once a Resolve event has been posted |
| `Channels.SignalChannel.LastEmitted` | src/lib/implementation/tree-nodes.ts:159-164 | a subscriber of the mesh's `processes$` has received nothing exactly while no Resolve event has been posted, since `scan` never emits its seed; afterwards it holds the last snapshot, which is the accumulator |
| `Channels.SignalChannel.Post` | src/lib/implementation/tree-nodes.ts:159-164 | posting keeps the event; only a Resolve event changes the mesh summary, by one reducer step, and makes subscribers receive the new summary |
| `Channels.PostToOne` | src/lib/implementation/tree-nodes.ts:21 | posting to one node's channel leaves every other channel's summary unchanged |
| `Channels.ProcessSubject.constructor` | src/lib/implementation/tree-nodes.ts:47 | `process$` starts holding `{type:'none', count:0}` |
| `Channels.ProcessSubject.Processes` | src/lib/implementation/tree-nodes.ts:47-58 | a root subscriber attached since construction counts the sum of every value `process$` has held |
| `Channels.ProcessSubject.Next` | src/lib/implementation/tree-nodes.ts:47-58 | the posted event becomes the current value and the root summary advances by one reducer step |
| `Channels.ProcessSubject.Current` | src/lib/implementation/tree-nodes.ts:47 | the value a new subscriber receives first is the last one posted |

## Left out

- uuid generation (`uuidv4`) is a call into another package. The model takes the generated id as an argument and proves nothing about global uniqueness.
- rxjs mechanics are not modelled: subscription bookkeeping, the re-run of the cold pipe for each subscriber, and the concurrency of producers. The channels keep the event history, and the summaries are folds over it.
- The root's `process$` keeps only its current value. Its full history is ghost state, which the model needs to state what subscribers hold.
- The base class `ImmutableTree.Node` lives in another package. Its `id` and `children` are plain fields here.
- Each class's `nodeType` string is represented by the constructor of `Kind`, not as a separate field.
- A node and the channels it owns are separate values in the model. The link from a node to its channels is not represented.
- Boundary-condition fields that are functions `(x, y, z) => number` are opaque values (`ZeroFunction`, `FunctionValue(handle)`). They are never applied or compared as functions.
- Floating-point parameters and bounding boxes are `real`, since no arithmetic is done on them.
- Event counts are `int`. JavaScript number rounding in very large sums is not modelled.
- The root's `folders` object, the `ArcheFacade` references, the realization's `keplerObject`, and `DataFrame` are external objects and are not modelled.
- Events are assumed well formed: an `Event` is always a record with an integer `count`. The source's `signals$` accepts any value. A posted `null` or `undefined` would make the filter's `s.type` throw and end the mesh's `processes$` for every subscriber, late ones included, since the ReplaySubject replays it. An absent or non-numeric `count` would turn the running count into NaN or a concatenated string from then on. Neither failure is modelled.
- The TypeScript type annotations are compile-time only. The model accepts an absent `id` for every class, as the code does at run time.
- The following code is commented out in the source and is not modelled: `parseProject`, the `data()` serialisers, and the two displacement-constraint classes.
- PassesResolveFilter: treats every string `type` as different from Resolve. JavaScript's loose `==` would also let through a numeric string such as "1".
- SignalChannel.Processes: before the first Resolve event the mesh's `processes$` has emitted nothing, yet this function gives the seed `{count: 0, ids: []}` there. `SignalChannel.LastEmitted` is the value subscribers actually hold, `None` until then.
