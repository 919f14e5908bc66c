/**
 * three.js scene nodes as plain values: a tree of nodes, each with a uuid, a
 * `type` string, a `userData` bag, a visibility flag, a material handle, a
 * transform and its children. Traversal order is three.js `traverse` order
 * (the node, then each child's subtree, left to right).
 */
module SceneGraph {
  import opened Wrappers
  import opened JsValues
  import opened ThreedModels

  /** Tags stored in `userData` (values of `threed-constants.ts`). */
  const ObjectIdTag: string := "customId"
  const RootTag: string := "rootObject"
  const CameraId: string := "CameraRig"
  const EnvironmentId: string := "Environment"

  datatype Node = Node(
    uuid: string,
    kind: string,
    userData: map<string, JsValue>,
    visible: bool,
    material: JsValue,
    position: Vector3,
    rotation: Vector3,
    scale: Vector3,
    children: seq<Node>)

  /** `o instanceof THREE.Mesh`: meshes, skinned meshes and instanced meshes. */
  predicate IsMesh(n: Node)
  {
    n.kind == "Mesh" || n.kind == "SkinnedMesh" || n.kind == "InstancedMesh"
  }

  /** `traverse` order: the node itself, then each child's subtree in turn. */
  function Traverse(n: Node): (r: seq<Node>)
    decreases n, 1
    ensures |r| >= 1 && r[0] == n
  {
    [n] + TraverseAll(n.children)
  }

  function TraverseAll(ns: seq<Node>): seq<Node>
    decreases ns, 0
  {
    if ns == [] then [] else Traverse(ns[0]) + TraverseAll(ns[1..])
  }

  /** The meshes of a node list, in order. */
  function FilterMeshes(s: seq<Node>): (r: seq<Node>)
    ensures |r| <= |s|
    ensures forall m :: m in r <==> m in s && IsMesh(m)
  {
    if s == [] then []
    else (if IsMesh(s[0]) then [s[0]] else []) + FilterMeshes(s[1..])
  }

  /** All mesh nodes of a subtree, in traversal order (a model's `flatModel`). */
  function Meshes(n: Node): seq<Node>
  {
    FilterMeshes(Traverse(n))
  }

  lemma FilterMeshesAppend(a: seq<Node>, b: seq<Node>)
    ensures FilterMeshes(a + b) == FilterMeshes(a) + FilterMeshes(b)
  {
    if a == [] {
      assert a + b == b;
    } else {
      assert (a + b)[1..] == a[1..] + b;
      FilterMeshesAppend(a[1..], b);
    }
  }

  /** Whether a node with this uuid occurs in the subtree. */
  predicate Contains(n: Node, uuid: string)
  {
    exists m :: m in Traverse(n) && m.uuid == uuid
  }

  /**
   * The chain of nodes from `n` down to the first node (in traversal order)
   * with this uuid, inclusive at both ends.
   */
  function PathTo(n: Node, uuid: string): (r: Option<seq<Node>>)
    decreases n, 1
    ensures r.Some? ==> |r.value| >= 1 && r.value[0] == n && r.value[|r.value| - 1].uuid == uuid
  {
    if n.uuid == uuid then Some([n])
    else
      var p := PathToAll(n.children, uuid);
      if p.Some? then Some([n] + p.value) else None
  }

  function PathToAll(ns: seq<Node>, uuid: string): (r: Option<seq<Node>>)
    decreases ns, 0
    ensures r.Some? ==> |r.value| >= 1 && r.value[|r.value| - 1].uuid == uuid
  {
    if ns == [] then None
    else
      var p := PathTo(ns[0], uuid);
      if p.Some? then p else PathToAll(ns[1..], uuid)
  }

  /**
   * Ancestor-or-self lookup along a root-to-node chain: the nearest node,
   * starting from the chain's end, whose `userData[tag]` equals `value`.
   */
  function NearestTagged(chain: seq<Node>, tag: string, value: JsValue): (r: Option<Node>)
    ensures r.Some? ==> r.value in chain && Get(r.value.userData, tag) == value
    ensures r.None? ==> forall m :: m in chain ==> Get(m.userData, tag) != value
  {
    if chain == [] then None
    else if Get(chain[|chain| - 1].userData, tag) == value then Some(chain[|chain| - 1])
    else NearestTagged(chain[..|chain| - 1], tag, value)
  }

  /**
   * `getParentByChild` / `ThreedUtils.findParentByChild` for the node with
   * this uuid inside the tree `root`; nothing if the node is not in the tree.
   */
  function FindParentByChild(root: Node, uuid: string, tag: string, value: JsValue): (r: Option<Node>)
    ensures PathTo(root, uuid).None? ==> r.None?
    ensures r.Some? ==> r.value in PathTo(root, uuid).value && Get(r.value.userData, tag) == value
    ensures PathTo(root, uuid).Some? && r.None? ==>
              forall m :: m in PathTo(root, uuid).value ==> Get(m.userData, tag) != value
  {
    var p := PathTo(root, uuid);
    if p.None? then None else NearestTagged(p.value, tag, value)
  }

  /** The node `NearestTagged` finds is the last tagged one of the chain: no node below it carries the value. */
  lemma {:induction false} NearestTaggedIsNearest(chain: seq<Node>, tag: string, value: JsValue)
    ensures NearestTagged(chain, tag, value).Some? ==>
              exists k :: 0 <= k < |chain| && chain[k] == NearestTagged(chain, tag, value).value &&
                          Get(chain[k].userData, tag) == value &&
                          forall j :: k < j < |chain| ==> Get(chain[j].userData, tag) != value
  {
    if chain != [] && Get(chain[|chain| - 1].userData, tag) != value {
      var init := chain[..|chain| - 1];
      NearestTaggedIsNearest(init, tag, value);
      if NearestTagged(init, tag, value).Some? {
        var k :| 0 <= k < |init| && init[k] == NearestTagged(init, tag, value).value &&
                 Get(init[k].userData, tag) == value &&
                 forall j :: k < j < |init| ==> Get(init[j].userData, tag) != value;
        assert chain[k] == init[k];
        assert forall j :: k < j < |chain| ==> Get(chain[j].userData, tag) != value by {
          forall j | k < j < |chain|
            ensures Get(chain[j].userData, tag) != value
          {
            if j < |init| {
              assert chain[j] == init[j];
            }
          }
        }
      }
    }
  }

  /**
   * `findParentByChild` climbs from the child: the node found is the nearest
   * ancestor-or-self of the child carrying the value.
   */
  lemma FindParentByChildIsNearest(root: Node, uuid: string, tag: string, value: JsValue)
    ensures FindParentByChild(root, uuid, tag, value).Some? ==>
              var chain := PathTo(root, uuid).value;
              exists k :: 0 <= k < |chain| && chain[k] == FindParentByChild(root, uuid, tag, value).value &&
                          Get(chain[k].userData, tag) == value &&
                          forall j :: k < j < |chain| ==> Get(chain[j].userData, tag) != value
  {
    var p := PathTo(root, uuid);
    if p.Some? {
      var chain := p.value;
      assert FindParentByChild(root, uuid, tag, value) == NearestTagged(chain, tag, value);
      NearestTaggedIsNearest(chain, tag, value);
      if NearestTagged(chain, tag, value).Some? {
        var k :| 0 <= k < |chain| && chain[k] == NearestTagged(chain, tag, value).value &&
                 Get(chain[k].userData, tag) == value &&
                 forall j :: k < j < |chain| ==> Get(chain[j].userData, tag) != value;
        assert chain[k] == FindParentByChild(root, uuid, tag, value).value;
        assert chain == PathTo(root, uuid).value;
      }
    }
  }

  /** The first node with this uuid, if any. */
  function Find(n: Node, uuid: string): Option<Node>
  {
    var p := PathTo(n, uuid);
    if p.None? then None else Some(p.value[|p.value| - 1])
  }

  /** The uuids of a node list, in order. */
  function Uuids(s: seq<Node>): (r: seq<string>)
    ensures |r| == |s| && forall i :: 0 <= i < |s| ==> r[i] == s[i].uuid
  {
    if s == [] then [] else [s[0].uuid] + Uuids(s[1..])
  }

  lemma UuidsAppend(a: seq<Node>, b: seq<Node>)
    ensures Uuids(a + b) == Uuids(a) + Uuids(b)
  {
  }

  /**
   * The uuids of the meshes of a subtree, computed directly by recursion; a
   * model keeps these references as its `flatModel`.
   */
  function MeshIds(n: Node): seq<string>
    decreases n, 1
  {
    (if IsMesh(n) then [n.uuid] else []) + MeshIdsAll(n.children)
  }

  function MeshIdsAll(ns: seq<Node>): seq<string>
    decreases ns, 0
  {
    if ns == [] then [] else MeshIds(ns[0]) + MeshIdsAll(ns[1..])
  }

  /** `MeshIds` lists exactly the meshes met by `traverse`, in traversal order. */
  lemma {:induction false} MeshIdsAreTraversalMeshes(n: Node)
    decreases n, 1
    ensures MeshIds(n) == Uuids(Meshes(n))
  {
    MeshIdsAllAreTraversalMeshes(n.children);
    FilterMeshesAppend([n], TraverseAll(n.children));
    UuidsAppend(FilterMeshes([n]), FilterMeshes(TraverseAll(n.children)));
  }

  lemma {:induction false} MeshIdsAllAreTraversalMeshes(ns: seq<Node>)
    decreases ns, 0
    ensures MeshIdsAll(ns) == Uuids(FilterMeshes(TraverseAll(ns)))
  {
    if ns != [] {
      MeshIdsAreTraversalMeshes(ns[0]);
      MeshIdsAllAreTraversalMeshes(ns[1..]);
      FilterMeshesAppend(Traverse(ns[0]), TraverseAll(ns[1..]));
      UuidsAppend(FilterMeshes(Traverse(ns[0])), FilterMeshes(TraverseAll(ns[1..])));
    }
  }

  /** `THREE.MathUtils.degToRad` applied to each component. */
  const Deg2Rad: real := 3.141592653589793 / 180.0

  function DegToRad(v: Vector3): (r: Vector3)
    ensures r.x / Deg2Rad == v.x && r.y / Deg2Rad == v.y && r.z / Deg2Rad == v.z
    ensures (r.x > 0.0 <==> v.x > 0.0) && (r.y > 0.0 <==> v.y > 0.0) && (r.z > 0.0 <==> v.z > 0.0)
  {
    Vector3(v.x * Deg2Rad, v.y * Deg2Rad, v.z * Deg2Rad)
  }

  /** The first occurrence of `x` removed (`Array.prototype.splice(indexOf(x), 1)`); unchanged if absent. */
  function RemoveFirst<T(==)>(s: seq<T>, x: T): (r: seq<T>)
    ensures x !in s ==> r == s
    ensures x in s ==> |r| == |s| - 1 && multiset(r) == multiset(s) - multiset{x}
  {
    if s == [] then []
    else
      assert s == [s[0]] + s[1..];
      if s[0] == x then s[1..]
      else [s[0]] + RemoveFirst(s[1..], x)
  }
}
