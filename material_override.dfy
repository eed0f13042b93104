/** The material override pass of the `Name` component. Once the model is
    loaded, its object tree is traversed and every node that is a mesh gets
    the one shared material; other nodes are left as they are. The in-place
    traversal is modelled as a pure rewrite of the tree, and the traversal
    order itself (a node before its children, children in order) as the
    sequence of visited nodes. */
module MaterialOverride {

  datatype Option<T> = None | Some(value: T)

  /** The kinds of object a loaded model tree holds. A skinned mesh is a
      mesh too (`instanceof Mesh` holds for it). */
  datatype Kind = Group | Mesh | SkinnedMesh | Bone | Light | Camera | Other

  predicate IsMesh(k: Kind) { k == Mesh || k == SkinnedMesh }

  /** A standard material: colour, roughness and metalness. The environment
      map it carries is a loaded texture and is not modelled. */
  datatype Material = Material(color: string, roughness: real, metalness: real)

  /** The shared material assigned to every mesh of the model. */
  const AluminiumMedium: Material := Material("#001536", 0.6, 1.0)

  /** A node of the loaded tree: its kind, its material (None for a node
      that has none, such as a group or a bone) and its children in order. */
  datatype Object3D = Object3D(kind: Kind, material: Option<Material>, children: seq<Object3D>)

  /** What the traversal sees at one node. */
  datatype Visit = Visit(kind: Kind, material: Option<Material>)

  /** The nodes of a tree in the order the traversal visits them: the node,
      then the subtrees of its children from first to last. */
  function Nodes(t: Object3D): (vs: seq<Visit>)
    ensures |vs| >= 1 && vs[0] == Visit(t.kind, t.material)
    decreases t, 1
  {
    [Visit(t.kind, t.material)] + NodesOfAll(t.children)
  }

  function NodesOfAll(cs: seq<Object3D>): seq<Visit>
    decreases cs, 0
  {
    if cs == [] then [] else Nodes(cs[0]) + NodesOfAll(cs[1..])
  }

  /** The assignment the callback performs at one visited node. */
  function OverrideVisit(v: Visit, m: Material): (w: Visit)
    ensures w.kind == v.kind
    ensures IsMesh(v.kind) ==> w.material == Some(m)
    ensures !IsMesh(v.kind) ==> w.material == v.material
  {
    if IsMesh(v.kind) then Visit(v.kind, Some(m)) else v
  }

  /** The callback applied to each visit of a traversal, in order. */
  function OverrideVisits(vs: seq<Visit>, m: Material): (ws: seq<Visit>)
    ensures |ws| == |vs|
    ensures forall i :: 0 <= i < |vs| ==> ws[i] == OverrideVisit(vs[i], m)
  {
    if vs == [] then [] else [OverrideVisit(vs[0], m)] + OverrideVisits(vs[1..], m)
  }

  /** `fbx.traverse(child => if (child instanceof Mesh) child.material = m)`. */
  function Override(t: Object3D, m: Material): (r: Object3D)
    ensures r.kind == t.kind && |r.children| == |t.children|
    ensures IsMesh(t.kind) ==> r.material == Some(m)
    ensures !IsMesh(t.kind) ==> r.material == t.material
    decreases t, 1
  {
    Object3D(t.kind, if IsMesh(t.kind) then Some(m) else t.material, OverrideAll(t.children, m))
  }

  function OverrideAll(cs: seq<Object3D>, m: Material): (rs: seq<Object3D>)
    ensures |rs| == |cs|
    decreases cs, 0
  {
    if cs == [] then [] else [Override(cs[0], m)] + OverrideAll(cs[1..], m)
  }

  /** Every mesh of the tree carries material `m`. */
  predicate EveryMeshHas(t: Object3D, m: Material)
  {
    forall v :: v in Nodes(t) && IsMesh(v.kind) ==> v.material == Some(m)
  }

  /** Two trees have the same shape: the same kinds at the same places. */
  predicate SameShape(a: Object3D, b: Object3D)
    decreases a
  {
    a.kind == b.kind && |a.children| == |b.children| &&
    forall i :: 0 <= i < |a.children| ==> SameShape(a.children[i], b.children[i])
  }

  lemma OverrideVisitsAppend(a: seq<Visit>, b: seq<Visit>, m: Material)
    ensures OverrideVisits(a + b, m) == OverrideVisits(a, m) + OverrideVisits(b, m)
  {
  }

  /** The rewrite visits the same nodes in the same order as the traversal,
      with the callback applied to each: the tree-level and the visit-level
      views of the pass agree. */
  lemma {:induction false} NodesOfOverride(t: Object3D, m: Material)
    ensures Nodes(Override(t, m)) == OverrideVisits(Nodes(t), m)
    decreases t, 1
  {
    NodesOfOverrideAll(t.children, m);
    OverrideVisitsAppend([Visit(t.kind, t.material)], NodesOfAll(t.children), m);
  }

  lemma {:induction false} NodesOfOverrideAll(cs: seq<Object3D>, m: Material)
    ensures NodesOfAll(OverrideAll(cs, m)) == OverrideVisits(NodesOfAll(cs), m)
    decreases cs, 0
  {
    if cs != [] {
      NodesOfOverride(cs[0], m);
      NodesOfOverrideAll(cs[1..], m);
      OverrideVisitsAppend(Nodes(cs[0]), NodesOfAll(cs[1..]), m);
    }
  }

  /** After the pass every mesh has the shared material; the node count and
      the kind of every node, in traversal order, are unchanged; and every
      node that is not a mesh keeps the material it had. */
  lemma OverridePass(t: Object3D, m: Material)
    ensures EveryMeshHas(Override(t, m), m)
    ensures |Nodes(Override(t, m))| == |Nodes(t)|
    ensures forall i :: 0 <= i < |Nodes(t)| ==>
              Nodes(Override(t, m))[i].kind == Nodes(t)[i].kind &&
              (IsMesh(Nodes(t)[i].kind) ==> Nodes(Override(t, m))[i].material == Some(m)) &&
              (!IsMesh(Nodes(t)[i].kind) ==> Nodes(Override(t, m))[i].material == Nodes(t)[i].material)
  {
    NodesOfOverride(t, m);
  }

  /** The pass keeps the shape of the tree. */
  lemma {:induction false} OverrideKeepsShape(t: Object3D, m: Material)
    ensures SameShape(Override(t, m), t)
    decreases t
  {
    var r := Override(t, m);
    forall i | 0 <= i < |t.children|
      ensures SameShape(r.children[i], t.children[i])
    {
      OverrideAllAt(t.children, m, i);
      OverrideKeepsShape(t.children[i], m);
    }
  }

  lemma {:induction false} OverrideAllAt(cs: seq<Object3D>, m: Material, i: nat)
    requires i < |cs|
    ensures OverrideAll(cs, m)[i] == Override(cs[i], m)
    decreases cs
  {
    if i > 0 {
      OverrideAllAt(cs[1..], m, i - 1);
    }
  }

  /** The pass leaves a tree unchanged exactly when every mesh already has
      the shared material. */
  lemma {:induction false} OverrideFixesExactly(t: Object3D, m: Material)
    ensures Override(t, m) == t <==> EveryMeshHas(t, m)
  {
    OverridePass(t, m);
    if EveryMeshHas(t, m) {
      OverrideIdentity(t, m);
    }
  }

  lemma {:induction false} OverrideIdentity(t: Object3D, m: Material)
    requires EveryMeshHas(t, m)
    ensures Override(t, m) == t
    decreases t, 1
  {
    assert Nodes(t)[0] in Nodes(t);
    EveryMeshHasChildren(t, m);
    OverrideAllIdentity(t.children, m);
  }

  lemma {:induction false} OverrideAllIdentity(cs: seq<Object3D>, m: Material)
    requires forall i :: 0 <= i < |cs| ==> EveryMeshHas(cs[i], m)
    ensures OverrideAll(cs, m) == cs
    decreases cs, 0
  {
    if cs != [] {
      OverrideIdentity(cs[0], m);
      OverrideAllIdentity(cs[1..], m);
    }
  }

  lemma EveryMeshHasChildren(t: Object3D, m: Material)
    requires EveryMeshHas(t, m)
    ensures forall i :: 0 <= i < |t.children| ==> EveryMeshHas(t.children[i], m)
  {
    forall i | 0 <= i < |t.children|
      ensures EveryMeshHas(t.children[i], m)
    {
      NodesOfAllContains(t.children, i);
    }
  }

  lemma {:induction false} NodesOfAllContains(cs: seq<Object3D>, i: nat)
    requires i < |cs|
    ensures forall v :: v in Nodes(cs[i]) ==> v in NodesOfAll(cs)
    decreases cs
  {
    if i > 0 {
      NodesOfAllContains(cs[1..], i - 1);
    }
  }

  /** Running the pass twice is the same as running it once. */
  lemma OverrideIdempotent(t: Object3D, m: Material)
    ensures Override(Override(t, m), m) == Override(t, m)
  {
    OverridePass(t, m);
    OverrideIdentity(Override(t, m), m);
  }
}
