/**
 * The node variant model of tree-nodes.ts: every node class as one constructor
 * of `Kind` carrying that class's parameters, and every class constructor as a
 * function that fills in the fields its caller left out.
 *
 * JavaScript's `x || d` and `x ? x : d` fall back on `d` when `x` is absent or
 * falsy; the functions below write that truthiness out. The inheritance chains
 * (File, Mesh, ObservationMesh, ...) are flattened: each class's function builds
 * its kind through `NewNode`, the constructor every class ends up calling.
 */
module ArcheNodes {
  import opened Wrappers

  /** An identifier produced by the uuid generator the source calls; never empty. */
  type GeneratedId = s: string | s != "" witness "0"

  /** The `type` field: an array of tags, except for Realization, which stores the bare string 'dataframe'. */
  datatype TypeTag = TagList(tags: seq<string>) | TagString(text: string)

  datatype MaterialParameters = MaterialParameters(poisson: real, young: real, density: real)

  /** A boundary-condition field: a formula given as text, or a function `(x, y, z) => number`. */
  datatype Field =
    | Formula(text: string)
    | ZeroFunction            // the constant-zero function the source supplies by default
    | FunctionValue(handle: nat)  // any other function, known only by identity

  datatype Axis = Axis(axisType: string, field: Field)

  datatype BoundaryParameters = BoundaryParameters(dipAxis: Axis, strikeAxis: Axis, normalAxis: Axis)

  datatype RemoteParameters = RemoteParameters(HSigma: real, hSigma: real, vSigma: real, theta: real)

  datatype CoulombParameters = CoulombParameters(friction: real, cohesion: real)

  datatype CoulombOrthoParameters = CoulombOrthoParameters(theta: real, frictionDip: real, frictionStrike: real)

  datatype Point = Point(x: real, y: real, z: real)

  datatype BoundingBox = BoundingBox(min: Point, max: Point)

  /** One constructor per node class, with the fields that class adds. */
  datatype Kind =
    | Generic                                   // ArcheNode
    | Root                                      // RootArcheNode
    | Material(material: MaterialParameters)    // ArcheMaterialNode
    | Folder                                    // ArcheFolderNode
    | File(fileId: string)                      // ArcheFileNode
    | FolderDiscontinuity                       // ArcheFolderDiscontinuityNode
    | Discontinuity                             // ArcheDiscontinuityNode
    | Mesh(fileId: string, box: BoundingBox)    // ArcheMeshNode
    | DiscontinuityMesh(fileId: string, box: BoundingBox)
    | ObservationMesh(fileId: string, box: BoundingBox)
    | BoundaryCondition(boundary: BoundaryParameters)
    | FolderObservation
    | Observation
    | PlaneObservation
    | FolderRemote
    | AndersonianRemote(remote: RemoteParameters)
    | CoulombConstraint(coulomb: CoulombParameters)
    | CoulombOrthoConstraint(ortho: CoulombOrthoParameters)
    | Realization(fileId: string, meshFileId: string, solutionId: string)

  /** A `children` field: absent (`undefined`) or an array of nodes. */
  datatype Children = Absent | Present(nodes: seq<Node>)

  /** A node: the fields every class has, `children` absent for leaves, and its kind. */
  datatype Node = Node(id: string, ownerId: string, name: string, tags: TypeTag,
                       children: Children, kind: Kind)

  // ----- the catalogue ----------------------------------------------------

  /** Kinds whose constructors pass `children: undefined`, or no children at all. */
  predicate IsLeafKind(k: Kind) {
    k.Material? || k.DiscontinuityMesh? || k.BoundaryCondition? || k.AndersonianRemote?
    || k.CoulombConstraint? || k.CoulombOrthoConstraint? || k.Realization?
  }

  /** The fixed `type` values of the source's classes. */
  const MeshType: TypeTag := TagList(["mesh"])
  const BoundaryConditionType: TypeTag := TagList(["boundary-condition"])
  const ConstraintType: TypeTag := TagList(["constraint"])
  const DataframeType: TypeTag := TagString("dataframe")

  /** The `type` a kind fixes whatever its caller wants, if it fixes one. */
  function FixedType(k: Kind): Option<TypeTag> {
    match k
    case Mesh(_, _) => Some(MeshType)
    case DiscontinuityMesh(_, _) => Some(MeshType)
    case ObservationMesh(_, _) => Some(MeshType)
    case BoundaryCondition(_) => Some(BoundaryConditionType)
    case CoulombConstraint(_) => Some(ConstraintType)
    case CoulombOrthoConstraint(_) => Some(ConstraintType)
    case Realization(_, _, _) => Some(DataframeType)
    case _ => None
  }

  /** The shape every constructed node has: an id, no children for a leaf, children for an observation mesh, its fixed type. */
  predicate Conforms(n: Node) {
    && n.id != ""
    && (IsLeafKind(n.kind) ==> n.children == Absent)
    && (n.kind.ObservationMesh? ==> n.children.Present?)
    && (FixedType(n.kind).Some? ==> n.tags == FixedType(n.kind).value)
  }

  /** A tree all of whose nodes conform. */
  predicate WellFormedTree(n: Node)
    decreases n
  {
    && Conforms(n)
    && match n.children
       case Absent => true
       case Present(cs) => forall c :: c in cs ==> WellFormedTree(c)
  }

  // ----- identity and type defaulting -------------------------------------

  /** `id ? ... : ...`: an id counts as supplied when present and not empty. */
  predicate Supplied(id: Option<string>) {
    id.Some? && id.value != ""
  }

  /** The truthiness `type || []` tests: an array always, a string when not empty. */
  predicate TagTruthy(t: TypeTag) {
    t.TagList? || t.text != ""
  }

  /** `id` kept when supplied, the generated one otherwise; `ownerId` and `name` copied. */
  predicate Stamped(r: Node, id: Option<string>, generated: GeneratedId, ownerId: string, name: string) {
    && (Supplied(id) ==> r.id == id.value)
    && (!Supplied(id) ==> r.id == generated)
    && r.ownerId == ownerId
    && r.name == name
  }

  /** `type` kept when truthy, `[]` otherwise. */
  predicate TypedAs(r: Node, tags: Option<TypeTag>) {
    && (tags.Some? && TagTruthy(tags.value) ==> r.tags == tags.value)
    && (!(tags.Some? && TagTruthy(tags.value)) ==> r.tags == TagList([]))
  }

  /** `new ArcheNode({id, ownerId, name, type, children})`, for a node of kind `kind`. */
  function NewNode(kind: Kind, id: Option<string>, generated: GeneratedId, ownerId: string, name: string,
                   tags: Option<TypeTag>, children: Children): (r: Node)
    ensures Stamped(r, id, generated, ownerId, name) && TypedAs(r, tags)
    ensures r.id != ""
    ensures r.children == children && r.kind == kind
  {
    var nodeId := if Supplied(id) then id.value else generated;
    var nodeTags := if tags.Some? && TagTruthy(tags.value) then tags.value else TagList([]);
    Node(nodeId, ownerId, name, nodeTags, children, kind)
  }

  // ----- one function per class ---------------------------------------------

  /** `new RootArcheNode(...)`: `parameters` are accepted and dropped; `folders` is not modelled. */
  function NewRoot(id: Option<string>, generated: GeneratedId, ownerId: string, name: string,
                   tags: Option<TypeTag>, children: Children,
                   parameters: Option<MaterialParameters>): (r: Node)
    ensures Stamped(r, id, generated, ownerId, name) && TypedAs(r, tags) && Conforms(r)
    ensures r.kind == Root && r.children == children
  {
    NewNode(Root, id, generated, ownerId, name, tags, children)
  }

  /** `new ArcheMaterialNode(...)`: a leaf whose parameters default to all zero. */
  function NewMaterial(id: Option<string>, generated: GeneratedId, ownerId: string, name: string,
                       tags: Option<TypeTag>, parameters: Option<MaterialParameters>): (r: Node)
    ensures Stamped(r, id, generated, ownerId, name) && TypedAs(r, tags) && Conforms(r)
    ensures r.kind.Material? && r.children == Absent
    ensures parameters.Some? ==> r.kind.material == parameters.value
    ensures parameters.None? ==> r.kind.material == MaterialParameters(0.0, 0.0, 0.0)
  {
    NewNode(Material(parameters.GetOr(MaterialParameters(0.0, 0.0, 0.0))), id, generated, ownerId, name, tags, Absent)
  }

  /** `new ArcheFolderNode(...)`. */
  function NewFolder(id: Option<string>, generated: GeneratedId, ownerId: string, name: string,
                     tags: Option<TypeTag>, children: Children): (r: Node)
    ensures Stamped(r, id, generated, ownerId, name) && TypedAs(r, tags) && Conforms(r)
    ensures r.kind == Folder && r.children == children
  {
    NewNode(Folder, id, generated, ownerId, name, tags, children)
  }

  /** `new ArcheFileNode(...)`: records the referenced `fileId`. */
  function NewFile(id: Option<string>, generated: GeneratedId, ownerId: string, name: string,
                   tags: Option<TypeTag>, fileId: string, children: Children): (r: Node)
    ensures Stamped(r, id, generated, ownerId, name) && TypedAs(r, tags) && Conforms(r)
    ensures r.kind == File(fileId) && r.children == children
  {
    NewNode(File(fileId), id, generated, ownerId, name, tags, children)
  }

  /** `new ArcheFolderDiscontinuityNode(...)`. */
  function NewFolderDiscontinuity(id: Option<string>, generated: GeneratedId, ownerId: string, name: string,
                                  tags: Option<TypeTag>, children: Children): (r: Node)
    ensures Stamped(r, id, generated, ownerId, name) && TypedAs(r, tags) && Conforms(r)
    ensures r.kind == FolderDiscontinuity && r.children == children
  {
    NewNode(FolderDiscontinuity, id, generated, ownerId, name, tags, children)
  }

  /** `new ArcheDiscontinuityNode(...)`: its declared `fileId` is never assigned. */
  function NewDiscontinuity(id: Option<string>, generated: GeneratedId, ownerId: string, name: string,
                            tags: Option<TypeTag>, children: Children): (r: Node)
    ensures Stamped(r, id, generated, ownerId, name) && TypedAs(r, tags) && Conforms(r)
    ensures r.kind == Discontinuity && r.children == children
  {
    NewNode(Discontinuity, id, generated, ownerId, name, tags, children)
  }

  /** `new ArcheMeshNode(...)`: the type is always `["mesh"]`; children are passed through. */
  function NewMesh(id: Option<string>, generated: GeneratedId, ownerId: string, name: string,
                   fileId: string, box: BoundingBox, children: Children): (r: Node)
    ensures Stamped(r, id, generated, ownerId, name) && Conforms(r)
    ensures r.kind == Mesh(fileId, box) && r.children == children
    ensures r.tags == MeshType
  {
    NewNode(Mesh(fileId, box), id, generated, ownerId, name, Some(MeshType), children)
  }

  /** `new ArcheDiscontinuityMeshNode(...)`: a mesh leaf. */
  function NewDiscontinuityMesh(id: Option<string>, generated: GeneratedId, ownerId: string, name: string,
                                fileId: string, box: BoundingBox): (r: Node)
    ensures Stamped(r, id, generated, ownerId, name) && Conforms(r)
    ensures r.kind == DiscontinuityMesh(fileId, box) && r.children == Absent
    ensures r.tags == MeshType
  {
    NewNode(DiscontinuityMesh(fileId, box), id, generated, ownerId, name, Some(MeshType), Absent)
  }

  /** `new ArcheObservationMeshNode(...)`: a mesh whose children default to `[]`. */
  function NewObservationMesh(id: Option<string>, generated: GeneratedId, ownerId: string, name: string,
                              fileId: string, box: BoundingBox, children: Children): (r: Node)
    ensures Stamped(r, id, generated, ownerId, name) && Conforms(r)
    ensures r.kind == ObservationMesh(fileId, box)
    ensures r.tags == MeshType
    ensures children.Present? ==> r.children == children
    ensures children.Absent? ==> r.children == Present([])
  {
    NewNode(ObservationMesh(fileId, box), id, generated, ownerId, name, Some(MeshType),
            if children.Present? then children else Present([]))
  }

  /** `new ArcheBoundaryConditionNode(...)`: a leaf typed `['boundary-condition']`, every axis locked at zero by default. */
  function NewBoundaryCondition(id: Option<string>, generated: GeneratedId, ownerId: string, name: string,
                                parameters: Option<BoundaryParameters>): (r: Node)
    ensures Stamped(r, id, generated, ownerId, name) && Conforms(r)
    ensures r.kind.BoundaryCondition? && r.children == Absent
    ensures r.tags == BoundaryConditionType
    ensures parameters.Some? ==> r.kind.boundary == parameters.value
    ensures parameters.None? ==>
      && r.kind.boundary.dipAxis == Axis("locked", ZeroFunction)
      && r.kind.boundary.strikeAxis == Axis("locked", ZeroFunction)
      && r.kind.boundary.normalAxis == Axis("locked", ZeroFunction)
  {
    var locked := Axis("locked", ZeroFunction);
    NewNode(BoundaryCondition(parameters.GetOr(BoundaryParameters(locked, locked, locked))),
            id, generated, ownerId, name, Some(BoundaryConditionType), Absent)
  }

  /** `new ArcheFolderObservationNode(...)`. */
  function NewFolderObservation(id: Option<string>, generated: GeneratedId, ownerId: string, name: string,
                                tags: Option<TypeTag>, children: Children): (r: Node)
    ensures Stamped(r, id, generated, ownerId, name) && TypedAs(r, tags) && Conforms(r)
    ensures r.kind == FolderObservation && r.children == children
  {
    NewNode(FolderObservation, id, generated, ownerId, name, tags, children)
  }

  /** `new ArcheObservationNode(...)`. */
  function NewObservation(id: Option<string>, generated: GeneratedId, ownerId: string, name: string,
                          tags: Option<TypeTag>, children: Children): (r: Node)
    ensures Stamped(r, id, generated, ownerId, name) && TypedAs(r, tags) && Conforms(r)
    ensures r.kind == Observation && r.children == children
  {
    NewNode(Observation, id, generated, ownerId, name, tags, children)
  }

  /** `new ArchePlaneObservationNode(...)`. */
  function NewPlaneObservation(id: Option<string>, generated: GeneratedId, ownerId: string, name: string,
                               tags: Option<TypeTag>, children: Children): (r: Node)
    ensures Stamped(r, id, generated, ownerId, name) && TypedAs(r, tags) && Conforms(r)
    ensures r.kind == PlaneObservation && r.children == children
  {
    NewNode(PlaneObservation, id, generated, ownerId, name, tags, children)
  }

  /** `new ArcheFolderRemoteNode(...)`. */
  function NewFolderRemote(id: Option<string>, generated: GeneratedId, ownerId: string, name: string,
                           tags: Option<TypeTag>, children: Children): (r: Node)
    ensures Stamped(r, id, generated, ownerId, name) && TypedAs(r, tags) && Conforms(r)
    ensures r.kind == FolderRemote && r.children == children
  {
    NewNode(FolderRemote, id, generated, ownerId, name, tags, children)
  }

  /** `new ArcheAndersonianRemoteNode(...)`: a leaf (no children are passed on) whose stresses default to zero. */
  function NewAndersonianRemote(id: Option<string>, generated: GeneratedId, ownerId: string, name: string,
                                tags: Option<TypeTag>, parameters: Option<RemoteParameters>): (r: Node)
    ensures Stamped(r, id, generated, ownerId, name) && TypedAs(r, tags) && Conforms(r)
    ensures r.kind.AndersonianRemote? && r.children == Absent
    ensures parameters.Some? ==> r.kind.remote == parameters.value
    ensures parameters.None? ==> r.kind.remote == RemoteParameters(0.0, 0.0, 0.0, 0.0)
  {
    NewNode(AndersonianRemote(parameters.GetOr(RemoteParameters(0.0, 0.0, 0.0, 0.0))),
            id, generated, ownerId, name, tags, Absent)
  }

  /** `new ArcheCoulombConstraintNode(...)`: a leaf typed `['constraint']` with zero friction and cohesion by default. */
  function NewCoulombConstraint(id: Option<string>, generated: GeneratedId, ownerId: string, name: string,
                                parameters: Option<CoulombParameters>): (r: Node)
    ensures Stamped(r, id, generated, ownerId, name) && Conforms(r)
    ensures r.kind.CoulombConstraint? && r.children == Absent
    ensures r.tags == ConstraintType
    ensures parameters.Some? ==> r.kind.coulomb == parameters.value
    ensures parameters.None? ==> r.kind.coulomb == CoulombParameters(0.0, 0.0)
  {
    NewNode(CoulombConstraint(parameters.GetOr(CoulombParameters(0.0, 0.0))),
            id, generated, ownerId, name, Some(ConstraintType), Absent)
  }

  /** `new ArcheCoulombOrthoConstraintNode(...)`: a leaf typed `['constraint']`, all parameters zero by default. */
  function NewCoulombOrthoConstraint(id: Option<string>, generated: GeneratedId, ownerId: string, name: string,
                                     parameters: Option<CoulombOrthoParameters>): (r: Node)
    ensures Stamped(r, id, generated, ownerId, name) && Conforms(r)
    ensures r.kind.CoulombOrthoConstraint? && r.children == Absent
    ensures r.tags == ConstraintType
    ensures parameters.Some? ==> r.kind.ortho == parameters.value
    ensures parameters.None? ==> r.kind.ortho == CoulombOrthoParameters(0.0, 0.0, 0.0)
  {
    NewNode(CoulombOrthoConstraint(parameters.GetOr(CoulombOrthoParameters(0.0, 0.0, 0.0))),
            id, generated, ownerId, name, Some(ConstraintType), Absent)
  }

  /** `new ArcheRealizationNode(...)`: a leaf whose type is the string 'dataframe', not an array. */
  function NewRealization(id: Option<string>, generated: GeneratedId, ownerId: string, name: string,
                          fileId: string, meshFileId: string, solutionId: string): (r: Node)
    ensures Stamped(r, id, generated, ownerId, name) && Conforms(r)
    ensures r.kind == Realization(fileId, meshFileId, solutionId) && r.children == Absent
    ensures r.tags == DataframeType
  {
    NewNode(Realization(fileId, meshFileId, solutionId), id, generated, ownerId, name,
            Some(DataframeType), Absent)
  }

  // ----- properties across constructors ----------------------------------

  /** The root's `parameters` argument has no effect on the node built. */
  lemma RootIgnoresParameters(id: Option<string>, generated: GeneratedId, ownerId: string, name: string,
                              tags: Option<TypeTag>, children: Children,
                              p: Option<MaterialParameters>, q: Option<MaterialParameters>)
    ensures NewRoot(id, generated, ownerId, name, tags, children, p)
         == NewRoot(id, generated, ownerId, name, tags, children, q)
  {
  }

  /**
   * Two constructions that both omit the id differ in id exactly when the
   * generator handed out different ids: uniqueness is the generator's.
   */
  lemma OmittedIdsAreGenerated(kind: Kind, g1: GeneratedId, g2: GeneratedId, ownerId: string, name: string,
                               tags: Option<TypeTag>, children: Children)
    ensures (NewNode(kind, None, g1, ownerId, name, tags, children).id
          != NewNode(kind, None, g2, ownerId, name, tags, children).id) <==> g1 != g2
  {
  }

  /** A folder built over well-formed subtrees is a well-formed tree. */
  lemma FolderOfWellFormed(id: Option<string>, generated: GeneratedId, ownerId: string, name: string,
                           tags: Option<TypeTag>, children: seq<Node>)
    requires forall c :: c in children ==> WellFormedTree(c)
    ensures WellFormedTree(NewFolder(id, generated, ownerId, name, tags, Present(children)))
  {
  }

  /** An observation mesh over well-formed realizations (or none) is a well-formed tree. */
  lemma ObservationMeshOfWellFormed(id: Option<string>, generated: GeneratedId, ownerId: string, name: string,
                                    fileId: string, box: BoundingBox, children: Children)
    requires children.Present? ==> forall c :: c in children.nodes ==> WellFormedTree(c)
    ensures WellFormedTree(NewObservationMesh(id, generated, ownerId, name, fileId, box, children))
  {
  }
}
