/**
 * `ThreedAbstractScene`: the base of the stand-alone 3D scenes (editor,
 * first-person and navigation scenes). It owns the scene's top-level
 * children, the loaded GLTF models keyed by custom id, and the list of
 * clickable scene objects: every childless node of type "Mesh".
 * Rendering, resizing and mouse handling are left to three.js and the
 * browser; the subclass hooks `onSettingValues` and `onRemoveModel` are
 * recorded as counts and events.
 */
module AbstractScene {
  import opened Wrappers
  import opened JsValues
  import opened ThreedModels
  import opened SceneGraph
  import opened ModelManager
  import opened UpdateDevices

  const AlreadyAttached: string := "Renderer already attached to element!"
  /** The `TypeError` of `parent.remove(...)` on a root that has no parent. */
  const NoParent: string := "Cannot read properties of null (reading 'remove')"

  /** The objects `initialize` creates: grid helper, shadow light and plane, ambient light. */
  datatype Fixtures = Fixtures(grid: Node, light: Node, plane: Node, ambient: Node)

  function InitialChildren(createGrid: bool, shadow: bool, f: Fixtures): seq<Node>
  {
    (if createGrid then [f.grid] else []) + (if shadow then [f.light, f.plane] else []) + [f.ambient]
  }

  /** The children without the node with this uuid (`parent.remove`). */
  function RemoveUuid(children: seq<Node>, uuid: string): (r: seq<Node>)
    ensures forall n :: n in r <==> n in children && n.uuid != uuid
    ensures |r| <= |children|
  {
    if children == [] then []
    else (if children[0].uuid == uuid then [] else [children[0]]) + RemoveUuid(children[1..], uuid)
  }

  /** `scene.add(n)`: three.js first detaches `n` from its parent, then appends it. */
  function AddChild(children: seq<Node>, n: Node): (r: seq<Node>)
    ensures |r| >= 1 && r[|r| - 1] == n
    ensures forall m :: m in r <==> m == n || (m in children && m.uuid != n.uuid)
  {
    RemoveUuid(children, n.uuid) + [n]
  }

  predicate HasUuid(children: seq<Node>, uuid: string)
  {
    exists k :: 0 <= k < |children| && children[k].uuid == uuid
  }

  /** No two top-level children share a uuid (one three.js object each). */
  predicate DistinctUuids(children: seq<Node>)
  {
    forall i, j :: 0 <= i < j < |children| ==> children[i].uuid != children[j].uuid
  }

  lemma {:induction false} RemoveUuidDistinct(children: seq<Node>, uuid: string)
    requires DistinctUuids(children)
    ensures DistinctUuids(RemoveUuid(children, uuid)) && !HasUuid(RemoveUuid(children, uuid), uuid)
  {
    var r := RemoveUuid(children, uuid);
    if children != [] {
      var rest := RemoveUuid(children[1..], uuid);
      RemoveUuidDistinct(children[1..], uuid);
      if children[0].uuid != uuid {
        forall j | 0 <= j < |rest|
          ensures rest[j].uuid != children[0].uuid
        {
          assert rest[j] in children[1..];
        }
      }
    }
  }

  lemma AddChildDistinct(children: seq<Node>, n: Node)
    requires DistinctUuids(children)
    ensures DistinctUuids(AddChild(children, n))
  {
    RemoveUuidDistinct(children, n.uuid);
    var rest := RemoveUuid(children, n.uuid);
    forall j | 0 <= j < |rest|
      ensures rest[j].uuid != n.uuid
    {
      assert rest[j] in rest;
    }
  }

  /** `listChildren`: childless "Mesh" nodes, depth first, left to right; a node with children is only descended into. */
  function LeafMeshIds(children: seq<Node>): seq<string>
    decreases children, 0
  {
    if children == [] then []
    else
      ChildLeafMeshIds(children[0]) + LeafMeshIds(children[1..])
  }

  predicate IsLeafMesh(n: Node)
  {
    |n.children| == 0 && n.kind == "Mesh"
  }

  function FilterLeafMeshes(s: seq<Node>): (r: seq<Node>)
    ensures forall n :: n in r <==> n in s && IsLeafMesh(n)
  {
    if s == [] then [] else (if IsLeafMesh(s[0]) then [s[0]] else []) + FilterLeafMeshes(s[1..])
  }

  lemma FilterLeafMeshesAppend(a: seq<Node>, b: seq<Node>)
    ensures FilterLeafMeshes(a + b) == FilterLeafMeshes(a) + FilterLeafMeshes(b)
  {
    if a == [] {
      assert a + b == b;
    } else {
      assert (a + b)[1..] == a[1..] + b;
      FilterLeafMeshesAppend(a[1..], b);
    }
  }

  /** What `listChildren` collects for one child: its leaves if it has children, else itself if it is a "Mesh". */
  function ChildLeafMeshIds(c: Node): seq<string>
    decreases c, 1
  {
    if |c.children| > 0 then LeafMeshIds(c.children) else if c.kind == "Mesh" then [c.uuid] else []
  }

  lemma {:induction false} ChildLeafMeshIdsAreTraversalLeaves(c: Node)
    decreases c, 1
    ensures ChildLeafMeshIds(c) == Uuids(FilterLeafMeshes(Traverse(c)))
  {
    LeafMeshIdsAreTraversalLeaves(c.children);
    FilterLeafMeshesAppend([c], TraverseAll(c.children));
    UuidsAppend(FilterLeafMeshes([c]), FilterLeafMeshes(TraverseAll(c.children)));
    if |c.children| == 0 {
      assert TraverseAll(c.children) == [];
    }
  }

  /**
   * The collected objects are exactly the childless "Mesh" nodes met by a
   * depth-first traversal of the children, in traversal order: a mesh that
   * has children, and every other node type, is left out.
   */
  lemma {:induction false} LeafMeshIdsAreTraversalLeaves(children: seq<Node>)
    decreases children, 0
    ensures LeafMeshIds(children) == Uuids(FilterLeafMeshes(TraverseAll(children)))
  {
    if children != [] {
      ChildLeafMeshIdsAreTraversalLeaves(children[0]);
      LeafMeshIdsAreTraversalLeaves(children[1..]);
      FilterLeafMeshesAppend(Traverse(children[0]), TraverseAll(children[1..]));
      UuidsAppend(FilterLeafMeshes(Traverse(children[0])), FilterLeafMeshes(TraverseAll(children[1..])));
    }
  }

  /**
   * JavaScript `==` on the values a tag can hold, without string-to-number
   * coercion: `undefined` and `null` equal each other, a boolean compares as
   * 0 or 1 with a number, values of one kind compare by value, and a string
   * equals only a string.
   */
  predicate LooseEquals(a: JsValue, b: JsValue): (r: bool)
    ensures a == b ==> r
    ensures r ==> (a.Str? <==> b.Str?) && (a.Handle? <==> b.Handle?)
    ensures r ==> (a.Undefined? || a.Null? <==> b.Undefined? || b.Null?)
  {
    match (a, b)
    case (Undefined, Undefined) => true
    case (Undefined, Null) => true
    case (Null, Undefined) => true
    case (Null, Null) => true
    case (Bool(x), Bool(y)) => x == y
    case (Num(x), Num(y)) => x == y
    case (Bool(x), Num(y)) => (if x then 1.0 else 0.0) == y
    case (Num(x), Bool(y)) => x == (if y then 1.0 else 0.0)
    case (Str(x), Str(y)) => x == y
    case (Handle(x), Handle(y)) => x == y
    case _ => false
  }

  /**
   * `getParentByChild` over the chain of a node's ancestors, root first and
   * the node itself last: the node if its `userData[tag] == value`, else the
   * same question for its parent, and nothing past the root.
   */
  function GetParentByChild(chain: seq<Node>, tag: string, value: JsValue): (r: Option<Node>)
    ensures r.Some? ==> r.value in chain && LooseEquals(Get(r.value.userData, tag), value)
    ensures chain != [] && LooseEquals(Get(chain[|chain| - 1].userData, tag), value) ==> r == Some(chain[|chain| - 1])
  {
    if chain == [] then None
    else if LooseEquals(Get(chain[|chain| - 1].userData, tag), value) then Some(chain[|chain| - 1])
    else GetParentByChild(chain[..|chain| - 1], tag, value)
  }

  /** The answer is the nearest matching node up the chain, and nothing exactly when no node matches. */
  lemma GetParentByChildIsNearest(chain: seq<Node>, tag: string, value: JsValue)
    ensures GetParentByChild(chain, tag, value).None? <==>
              forall k :: 0 <= k < |chain| ==> !LooseEquals(Get(chain[k].userData, tag), value)
    ensures GetParentByChild(chain, tag, value).Some? ==>
              exists k :: 0 <= k < |chain| && chain[k] == GetParentByChild(chain, tag, value).value &&
                          LooseEquals(Get(chain[k].userData, tag), value) &&
                          forall j :: k < j < |chain| ==> !LooseEquals(Get(chain[j].userData, tag), value)
  {
    GetParentByChildNone(chain, tag, value);
    if GetParentByChild(chain, tag, value).Some? {
      var k := GetParentByChildIndex(chain, tag, value);
    }
  }

  /** Nothing is found exactly when no node of the chain matches. */
  lemma {:induction false} GetParentByChildNone(chain: seq<Node>, tag: string, value: JsValue)
    ensures GetParentByChild(chain, tag, value).None? <==>
              forall k :: 0 <= k < |chain| ==> !LooseEquals(Get(chain[k].userData, tag), value)
  {
    if chain != [] && !LooseEquals(Get(chain[|chain| - 1].userData, tag), value) {
      var init := chain[..|chain| - 1];
      GetParentByChildNone(init, tag, value);
      assert forall k :: 0 <= k < |init| ==> init[k] == chain[k];
    }
  }

  /** The index of the node found: it matches and no node below it does. */
  lemma {:induction false} GetParentByChildIndex(chain: seq<Node>, tag: string, value: JsValue) returns (k: nat)
    requires GetParentByChild(chain, tag, value).Some?
    ensures k < |chain| && chain[k] == GetParentByChild(chain, tag, value).value
    ensures LooseEquals(Get(chain[k].userData, tag), value)
    ensures forall j :: k < j < |chain| ==> !LooseEquals(Get(chain[j].userData, tag), value)
  {
    var last := |chain| - 1;
    if LooseEquals(Get(chain[last].userData, tag), value) {
      k := last;
    } else {
      var init := chain[..last];
      k := GetParentByChildIndex(init, tag, value);
      assert chain[k] == init[k];
      assert forall j :: k < j < last ==> chain[j] == init[j];
    }
  }

  /** The state the abstract scene keeps: models, scene children, clickable objects and the hooks run so far. */
  datatype SceneState = SceneState(
    models: map<string, Gltf>,
    children: seq<Node>,
    objects: seq<string>,
    hasSettings: bool,
    settingApplications: nat,
    removed: seq<string>)

  /** `setValues`: the subclass hook runs only when there are models and settings. */
  function SettingsApplied(st: SceneState): (r: SceneState)
    ensures r.models == st.models && r.children == st.children && r.objects == st.objects && r.removed == st.removed
    ensures (|st.models| == 0 || !st.hasSettings) <==> r == st
    ensures r.settingApplications == st.settingApplications || r.settingApplications == st.settingApplications + 1
  {
    if |st.models| == 0 || !st.hasSettings then st else st.(settingApplications := st.settingApplications + 1)
  }

  /** The GLTF `addModel` registers: model and root stamped with the id and as a root object. */
  function Stamped(model: Gltf, id: string): Gltf
  {
    Gltf(Stamp(model.userData, id), model.scene.(userData := Stamp(model.scene.userData, id)))
  }

  /**
   * `addModel`: register the stamped model under `configs.id || root.uuid`,
   * put its root last in the scene, apply the settings and recollect the
   * scene objects.
   */
  function Added(st: SceneState, model: Gltf, configs: ModelConfig): SceneState
  {
    var id := CustomId(configs, model.scene);
    var g := Stamped(model, id);
    var children := AddChild(st.children, g.scene);
    SettingsApplied(st.(models := st.models[id := g], children := children)).(objects := LeafMeshIds(children))
  }

  /** What `removeModel` leaves, and the error it throws when the root has no parent. */
  datatype RemoveOutcome = RemoveOutcome(state: SceneState, error: Option<string>)

  /**
   * `removeModel`: an unknown id changes nothing; otherwise the hook runs,
   * the root is detached (a root already out of the scene makes `parent`
   * null and the call throws before the entry is deleted), the entry is
   * deleted and, when asked, the scene objects are recollected.
   */
  function Removed(st: SceneState, id: string, calculateSceneObjects: bool): RemoveOutcome
  {
    if id !in st.models then RemoveOutcome(st, None)
    else
      var notified := st.(removed := st.removed + [id]);
      var root := st.models[id].scene;
      if !HasUuid(st.children, root.uuid) then RemoveOutcome(notified, Some(NoParent))
      else
        var children := RemoveUuid(st.children, root.uuid);
        var objects := if calculateSceneObjects then LeafMeshIds(children) else st.objects;
        RemoveOutcome(notified.(models := st.models - {id}, children := children, objects := objects), None)
  }

  /** Each registered model and its root carry its id and the root tag. */
  predicate Stamps(models: map<string, Gltf>)
  {
    forall id :: id in models ==>
      Get(models[id].userData, ObjectIdTag) == Str(id) && Get(models[id].userData, RootTag) == Bool(true) &&
      Get(models[id].scene.userData, ObjectIdTag) == Str(id) && Get(models[id].scene.userData, RootTag) == Bool(true)
  }

  /** The invariant of the scene: stamped models, one top-level child per uuid, every model root in the scene. */
  predicate SceneInv(st: SceneState)
  {
    Stamps(st.models) && DistinctUuids(st.children) &&
    forall id :: id in st.models ==> st.models[id].scene in st.children
  }

  /** Under the invariant two ids never share a root: each root carries its own id. */
  lemma RootsDistinct(st: SceneState, i: string, j: string)
    requires SceneInv(st) && i in st.models && j in st.models && i != j
    ensures st.models[i].scene.uuid != st.models[j].scene.uuid
  {
    var a :| 0 <= a < |st.children| && st.children[a] == st.models[i].scene;
    var b :| 0 <= b < |st.children| && st.children[b] == st.models[j].scene;
    assert Get(st.children[a].userData, ObjectIdTag) != Get(st.children[b].userData, ObjectIdTag);
  }

  lemma StampedCarriesId(model: Gltf, id: string)
    ensures Get(Stamped(model, id).userData, ObjectIdTag) == Str(id) && Get(Stamped(model, id).userData, RootTag) == Bool(true)
    ensures Get(Stamped(model, id).scene.userData, ObjectIdTag) == Str(id) && Get(Stamped(model, id).scene.userData, RootTag) == Bool(true)
    ensures Stamped(model, id).scene.uuid == model.scene.uuid
  {
  }

  /**
   * Adding a model keeps the invariant, registers it under its custom id
   * with its root last among the scene children, keeps every other entry,
   * and leaves the objects list equal to the scene's childless meshes.
   */
  lemma AddedRegisters(st: SceneState, model: Gltf, configs: ModelConfig)
    requires SceneInv(st)
    requires forall id :: id in st.models && id != CustomId(configs, model.scene) ==> st.models[id].scene.uuid != model.scene.uuid
    ensures SceneInv(Added(st, model, configs))
    ensures var id := CustomId(configs, model.scene);
            var r := Added(st, model, configs);
            r.models.Keys == st.models.Keys + {id} && r.models[id] == Stamped(model, id) &&
            r.children[|r.children| - 1] == r.models[id].scene &&
            (forall k :: k in st.models && k != id ==> r.models[k] == st.models[k]) &&
            r.objects == LeafMeshIds(r.children)
  {
    AddedShape(st, model, configs);
    var id := CustomId(configs, model.scene);
    StampedCarriesId(model, id);
    AddedKeepsInv(st, id, Stamped(model, id), Added(st, model, configs));
  }

  /** The state `addModel` leaves: the stamped model under its id and no other entry changed, its root last, the objects recollected. */
  lemma AddedShape(st: SceneState, model: Gltf, configs: ModelConfig)
    ensures var id := CustomId(configs, model.scene);
            var r := Added(st, model, configs);
            r.models.Keys == st.models.Keys + {id} && r.models[id] == Stamped(model, id) &&
            r.children[|r.children| - 1] == r.models[id].scene &&
            (forall k :: k in st.models && k != id ==> r.models[k] == st.models[k]) &&
            r.objects == LeafMeshIds(r.children)
  {
    var id := CustomId(configs, model.scene);
    var r := Added(st, model, configs);
    assert r.models == st.models[id := Stamped(model, id)];
    assert r.children == AddChild(st.children, Stamped(model, id).scene);
  }

  /** Registering a stamped model and putting its root in the scene keeps the invariant. */
  lemma AddedKeepsInv(st: SceneState, id: string, g: Gltf, r: SceneState)
    requires SceneInv(st)
    requires Get(g.userData, ObjectIdTag) == Str(id) && Get(g.userData, RootTag) == Bool(true)
    requires Get(g.scene.userData, ObjectIdTag) == Str(id) && Get(g.scene.userData, RootTag) == Bool(true)
    requires forall k :: k in st.models && k != id ==> st.models[k].scene.uuid != g.scene.uuid
    requires r.models == st.models[id := g] && r.children == AddChild(st.children, g.scene)
    ensures SceneInv(r)
  {
    AddChildDistinct(st.children, g.scene);
    AddedRootsPresent(st, id, g, r.models, r.children);
    StampsAdded(st.models, id, g);
  }

  /** After the root of `g` replaces any same-uuid child, every registered root, `g`'s included, is a child. */
  lemma AddedRootsPresent(st: SceneState, id: string, g: Gltf, models: map<string, Gltf>, children: seq<Node>)
    requires forall k :: k in st.models ==> st.models[k].scene in st.children
    requires forall k :: k in st.models && k != id ==> st.models[k].scene.uuid != g.scene.uuid
    requires models == st.models[id := g] && children == AddChild(st.children, g.scene)
    ensures forall k :: k in models ==> models[k].scene in children
  {
    forall k | k in models
      ensures models[k].scene in children
    {
      if k != id {
        assert st.models[k].scene in st.children;
      }
    }
  }

  /** Registering a model stamped with its own id keeps every model stamped. */
  lemma StampsAdded(models: map<string, Gltf>, id: string, g: Gltf)
    requires Stamps(models)
    requires Get(g.userData, ObjectIdTag) == Str(id) && Get(g.userData, RootTag) == Bool(true)
    requires Get(g.scene.userData, ObjectIdTag) == Str(id) && Get(g.scene.userData, RootTag) == Bool(true)
    ensures Stamps(models[id := g])
  {
    var m := models[id := g];
    forall k | k in m
      ensures Get(m[k].userData, ObjectIdTag) == Str(k) && Get(m[k].userData, RootTag) == Bool(true)
      ensures Get(m[k].scene.userData, ObjectIdTag) == Str(k) && Get(m[k].scene.userData, RootTag) == Bool(true)
    {
      if k != id {
        assert m[k] == models[k];
      }
    }
  }

  /** Removing a model keeps the invariant; afterwards neither its entry nor its root remains. */
  lemma RemovedForgets(st: SceneState, id: string, calculateSceneObjects: bool)
    requires SceneInv(st)
    ensures var out := Removed(st, id, calculateSceneObjects);
            out.error.None? && SceneInv(out.state) && out.state.models == st.models - {id} &&
            (id in st.models ==> !HasUuid(out.state.children, st.models[id].scene.uuid) &&
                                 out.state.removed == st.removed + [id]) &&
            (id !in st.models ==> out.state == st) &&
            (id in st.models && calculateSceneObjects ==> out.state.objects == LeafMeshIds(out.state.children))
  {
    if id in st.models {
      var root := st.models[id].scene;
      assert root in st.children;
      var k :| 0 <= k < |st.children| && st.children[k] == root;
      assert HasUuid(st.children, root.uuid);
      RemoveUuidDistinct(st.children, root.uuid);
      var children := RemoveUuid(st.children, root.uuid);
      var models := st.models - {id};
      var out := Removed(st, id, calculateSceneObjects);
      assert out.error.None? && out.state.children == children && out.state.models == models;
      forall j | j in models
        ensures models[j].scene in children
      {
        RootsDistinct(st, j, id);
        assert st.models[j].scene in st.children;
      }
      forall j | j in models
        ensures Get(models[j].userData, ObjectIdTag) == Str(j) && Get(models[j].userData, RootTag) == Bool(true)
        ensures Get(models[j].scene.userData, ObjectIdTag) == Str(j) && Get(models[j].scene.userData, RootTag) == Bool(true)
      {
        assert models[j] == st.models[j];
      }
      assert Stamps(models);
    }
  }

  /** `replaceModel`: remove without recollecting, then add. */
  function Replaced(st: SceneState, model: Gltf, configs: ModelConfig): RemoveOutcome
  {
    var out := Removed(st, CustomId(configs, model.scene), false);
    if out.error.Some? then out else RemoveOutcome(Added(out.state, model, configs), None)
  }

  /** Replacing keeps the invariant and leaves exactly one entry and one scene child for the model. */
  lemma ReplacedKeepsOneEntry(st: SceneState, model: Gltf, configs: ModelConfig)
    requires SceneInv(st)
    requires forall id :: id in st.models && id != CustomId(configs, model.scene) ==> st.models[id].scene.uuid != model.scene.uuid
    ensures var id := CustomId(configs, model.scene);
            var out := Replaced(st, model, configs);
            out.error.None? && SceneInv(out.state) && out.state.models.Keys == st.models.Keys + {id} &&
            out.state.models[id] == Stamped(model, id) &&
            (forall k :: k in st.models && k != id ==> out.state.models[k] == st.models[k])
  {
    var id := CustomId(configs, model.scene);
    RemovedForgets(st, id, false);
    var mid := Removed(st, id, false).state;
    AddedRegisters(mid, model, configs);
    ReplacedShape(st, model, configs);
  }

  /** When the removal does not throw, replacing is adding to the state without the old entry. */
  lemma ReplacedShape(st: SceneState, model: Gltf, configs: ModelConfig)
    requires Removed(st, CustomId(configs, model.scene), false).error.None?
    ensures var id := CustomId(configs, model.scene);
            var out := Replaced(st, model, configs);
            out.error.None? && out.state == Added(Removed(st, id, false).state, model, configs) &&
            out.state.models.Keys == st.models.Keys + {id} && out.state.models[id] == Stamped(model, id) &&
            (forall k :: k in st.models && k != id ==> out.state.models[k] == st.models[k])
  {
    var id := CustomId(configs, model.scene);
    var mid := Removed(st, id, false).state;
    assert mid.models == st.models - {id};
    AddedShape(mid, model, configs);
  }

  /** The scene children with the given parts of the transform applied to the child with this uuid. */
  function TransformChild(children: seq<Node>, uuid: string, t: TransformSettings): (r: seq<Node>)
    ensures |r| == |children|
    ensures forall k :: 0 <= k < |r| ==> r[k] == (if children[k].uuid == uuid then ApplyTransforms(children[k], t) else children[k])
  {
    seq(|children|, k requires 0 <= k < |children| =>
          if children[k].uuid == uuid then ApplyTransforms(children[k], t) else children[k])
  }

  /** `updateModelTransforms`: the given parts of a registered model's root transform are set, in the registry and in the scene. */
  function Transform(st: SceneState, id: string, t: TransformSettings): (r: SceneState)
    ensures r.models.Keys == st.models.Keys && |r.children| == |st.children|
    ensures r.objects == st.objects && r.removed == st.removed && r.settingApplications == st.settingApplications
  {
    if id !in st.models then st
    else
      var root := st.models[id].scene;
      st.(models := st.models[id := st.models[id].(scene := ApplyTransforms(root, t))],
          children := TransformChild(st.children, root.uuid, t))
  }

  /**
   * The transform keeps the invariant, keeps each child's uuid and subtree,
   * and so leaves the clickable objects as they were; an unknown id changes
   * nothing.
   */
  lemma TransformKeepsScene(st: SceneState, id: string, t: TransformSettings)
    requires SceneInv(st)
    ensures SceneInv(Transform(st, id, t))
    ensures forall k :: 0 <= k < |st.children| ==>
              Transform(st, id, t).children[k].uuid == st.children[k].uuid &&
              Transform(st, id, t).children[k].children == st.children[k].children
    ensures id !in st.models ==> Transform(st, id, t) == st
    ensures id in st.models ==> Transform(st, id, t).models[id].scene == ApplyTransforms(st.models[id].scene, t)
  {
    TransformShape(st, id, t);
    if id in st.models {
      TransformKeepsInv(st, id, t, Transform(st, id, t));
    }
  }

  /** What the transform leaves, under any state: uuids and subtrees of the children kept, the model's root transformed. */
  lemma TransformShape(st: SceneState, id: string, t: TransformSettings)
    ensures forall k :: 0 <= k < |st.children| ==>
              Transform(st, id, t).children[k].uuid == st.children[k].uuid &&
              Transform(st, id, t).children[k].children == st.children[k].children
    ensures id !in st.models ==> Transform(st, id, t) == st
    ensures id in st.models ==>
              Transform(st, id, t).models == st.models[id := st.models[id].(scene := ApplyTransforms(st.models[id].scene, t))] &&
              Transform(st, id, t).children == TransformChild(st.children, st.models[id].scene.uuid, t)
  {
  }

  /** Transforming a registered model's root in the registry and in the scene keeps the invariant. */
  lemma TransformKeepsInv(st: SceneState, id: string, t: TransformSettings, r: SceneState)
    requires SceneInv(st) && id in st.models
    requires r.models == st.models[id := st.models[id].(scene := ApplyTransforms(st.models[id].scene, t))]
    requires r.children == TransformChild(st.children, st.models[id].scene.uuid, t)
    ensures SceneInv(r)
  {
    TransformKeepsStamps(st.models, id, t);
    TransformChildDistinct(st.children, st.models[id].scene.uuid, t);
    forall j | j in st.models && j != id
      ensures st.models[j].scene.uuid != st.models[id].scene.uuid
    {
      RootsDistinct(st, j, id);
    }
    TransformKeepsRoots(st.models, st.children, id, t);
  }

  lemma TransformKeepsRoots(models: map<string, Gltf>, children: seq<Node>, id: string, t: TransformSettings)
    requires id in models && forall j :: j in models ==> models[j].scene in children
    requires forall j :: j in models && j != id ==> models[j].scene.uuid != models[id].scene.uuid
    ensures var r := models[id := models[id].(scene := ApplyTransforms(models[id].scene, t))];
            forall j :: j in r ==> r[j].scene in TransformChild(children, models[id].scene.uuid, t)
  {
    var r := models[id := models[id].(scene := ApplyTransforms(models[id].scene, t))];
    var rc := TransformChild(children, models[id].scene.uuid, t);
    forall j | j in r
      ensures r[j].scene in rc
    {
      var m :| 0 <= m < |children| && children[m] == models[j].scene;
      assert rc[m] == r[j].scene;
    }
  }

  lemma TransformKeepsStamps(models: map<string, Gltf>, id: string, t: TransformSettings)
    requires Stamps(models) && id in models
    ensures Stamps(models[id := models[id].(scene := ApplyTransforms(models[id].scene, t))])
  {
    var r := models[id := models[id].(scene := ApplyTransforms(models[id].scene, t))];
    forall j | j in r
      ensures Get(r[j].userData, ObjectIdTag) == Str(j) && Get(r[j].userData, RootTag) == Bool(true)
      ensures Get(r[j].scene.userData, ObjectIdTag) == Str(j) && Get(r[j].scene.userData, RootTag) == Bool(true)
    {
      assert r[j].userData == models[j].userData && r[j].scene.userData == models[j].scene.userData;
    }
  }

  lemma TransformChildDistinct(children: seq<Node>, uuid: string, t: TransformSettings)
    requires DistinctUuids(children)
    ensures DistinctUuids(TransformChild(children, uuid, t))
  {
    var r := TransformChild(children, uuid, t);
    forall a, b | 0 <= a < b < |r|
      ensures r[a].uuid != r[b].uuid
    {
      assert r[a].uuid == children[a].uuid && r[b].uuid == children[b].uuid;
    }
  }

  /** `setDevicesValues`: every object of every group, in order. */
  function TransformAll(st: SceneState, objects: seq<ObjectSettings>): SceneState
  {
    if objects == [] then st
    else
      var o := objects[|objects| - 1];
      Transform(TransformAll(st, objects[..|objects| - 1]), o.entity.id, ObjectTransforms(o))
  }

  lemma {:induction false} TransformAllAppend(st: SceneState, a: seq<ObjectSettings>, b: seq<ObjectSettings>)
    decreases |b|
    ensures TransformAll(st, a + b) == TransformAll(TransformAll(st, a), b)
  {
    if b == [] {
      assert a + b == a;
    } else {
      assert (a + b)[..|a + b| - 1] == a + b[..|b| - 1];
      TransformAllAppend(st, a, b[..|b| - 1]);
    }
  }

  /** The device updates keep the invariant and the clickable objects. */
  lemma {:induction false} TransformAllKeepsScene(st: SceneState, objects: seq<ObjectSettings>)
    requires SceneInv(st)
    ensures SceneInv(TransformAll(st, objects))
    ensures TransformAll(st, objects).models.Keys == st.models.Keys && TransformAll(st, objects).objects == st.objects
  {
    if objects != [] {
      var o := objects[|objects| - 1];
      TransformAllKeepsScene(st, objects[..|objects| - 1]);
      TransformKeepsScene(TransformAll(st, objects[..|objects| - 1]), o.entity.id, ObjectTransforms(o));
    }
  }

  /**
   * What a widget's `onSettingValues` does with the scene settings: the
   * environment model takes its object settings, the camera rig its initial
   * placement, and then every device object moves its model.
   */
  function SceneSettingsApplied(st: SceneState, value: SceneSettings): SceneState
  {
    var env := if value.environment.Some? && value.environment.value.objectSettings.Some?
               then Transform(st, EnvironmentId, ObjectTransforms(value.environment.value.objectSettings.value))
               else st;
    var cam := if value.camera.Some? then Transform(env, CameraId, CameraTransforms(value.camera.value)) else env;
    TransformAll(cam, UpdateObjects(value.devices))
  }

  /** Applying scene settings keeps the scene invariant, the registered ids and the clickable objects. */
  lemma SceneSettingsKeepScene(st: SceneState, value: SceneSettings)
    requires SceneInv(st)
    ensures SceneInv(SceneSettingsApplied(st, value))
    ensures SceneSettingsApplied(st, value).models.Keys == st.models.Keys
    ensures SceneSettingsApplied(st, value).objects == st.objects
  {
    var env := if value.environment.Some? && value.environment.value.objectSettings.Some?
               then Transform(st, EnvironmentId, ObjectTransforms(value.environment.value.objectSettings.value))
               else st;
    if value.environment.Some? && value.environment.value.objectSettings.Some? {
      TransformKeepsScene(st, EnvironmentId, ObjectTransforms(value.environment.value.objectSettings.value));
    }
    var cam := if value.camera.Some? then Transform(env, CameraId, CameraTransforms(value.camera.value)) else env;
    if value.camera.Some? {
      TransformKeepsScene(env, CameraId, CameraTransforms(value.camera.value));
    }
    TransformAllKeepsScene(cam, UpdateObjects(value.devices));
  }

  /** The camera a scene may pass along, and whether it is a perspective camera. */
  datatype CameraState = CameraState(position: Vector3, rotation: Vector3, near: real, far: real, fov: real, perspective: bool)

  /** `far`, `near` and `fov` of a perspective camera: each setting unless it is 0, which keeps the camera's own value. */
  function LensAfter(settings: CameraSettings, camera: CameraState): (r: CameraState)
    ensures r.position == camera.position && r.rotation == camera.rotation && r.perspective == camera.perspective
    ensures settings.far == 0.0 ==> r.far == camera.far
    ensures settings.far != 0.0 ==> r.far == settings.far
    ensures settings.near == 0.0 ==> r.near == camera.near
    ensures settings.near != 0.0 ==> r.near == settings.near
    ensures settings.fov == 0.0 ==> r.fov == camera.fov
    ensures settings.fov != 0.0 ==> r.fov == settings.fov
  {
    camera.(far := if settings.far != 0.0 then settings.far else camera.far,
            near := if settings.near != 0.0 then settings.near else camera.near,
            fov := if settings.fov != 0.0 then settings.fov else camera.fov)
  }

  /**
   * `setCameraValues` on the camera: position and rotation (degrees) come
   * from the settings, and a perspective camera also takes its lens values
   * as `LensAfter` says; any other object keeps them.
   */
  function CameraAfter(settings: CameraSettings, camera: CameraState): (r: CameraState)
    ensures r.position == settings.initialPosition && r.rotation == DegToRad(settings.initialRotation)
    ensures r.perspective == camera.perspective
    ensures !camera.perspective ==> r.near == camera.near && r.far == camera.far && r.fov == camera.fov
    ensures camera.perspective ==> r == LensAfter(settings, camera).(position := r.position, rotation := r.rotation)
  {
    var placed := camera.(position := settings.initialPosition, rotation := DegToRad(settings.initialRotation));
    if camera.perspective then LensAfter(settings, placed) else placed
  }

  /** Applying the same camera settings twice is applying them once. */
  lemma CameraAfterIdempotent(settings: CameraSettings, camera: CameraState)
    ensures CameraAfter(settings, CameraAfter(settings, camera)) == CameraAfter(settings, camera)
  {
  }

  function CameraTransforms(settings: CameraSettings): TransformSettings
  {
    TransformSettings(Some(settings.initialPosition), Some(settings.initialRotation), None)
  }

  class ThreedAbstractScene<S> {
    /** The element the renderer's canvas lives in, once attached. */
    var rendererContainer: Option<nat>
    /** Containers the canvas was appended to by `attachToElement`. */
    var appendedTo: seq<nat>
    var models: map<string, Gltf>
    var sceneChildren: seq<Node>
    /** uuids of the clickable scene objects. */
    var objects: seq<string>
    var settingsValue: Option<S>
    var settingApplications: nat
    var removed: seq<string>

    function State(): SceneState
      reads this
    {
      SceneState(models, sceneChildren, objects, settingsValue.Some?, settingApplications, removed)
    }

    /** `constructor` and `initialize`: an empty model registry and the fixtures the configuration asks for. */
    constructor(canvas: Option<nat>, createGrid: bool, shadow: bool, fixtures: Fixtures)
      requires DistinctUuids(InitialChildren(createGrid, shadow, fixtures))
      ensures rendererContainer == canvas && appendedTo == []
      ensures State() == SceneState(map[], InitialChildren(createGrid, shadow, fixtures), [], false, 0, [])
      ensures SceneInv(State())
    {
      rendererContainer := canvas;
      appendedTo := [];
      models := map[];
      sceneChildren := InitialChildren(createGrid, shadow, fixtures);
      objects := [];
      settingsValue := None;
      settingApplications := 0;
      removed := [];
    }

    /** `attachToElement`: a second container is refused with an error and nothing changes. */
    method AttachToElement(container: nat) returns (error: Option<string>)
      modifies this
      ensures old(rendererContainer).Some? ==> error == Some(AlreadyAttached) && rendererContainer == old(rendererContainer) && appendedTo == old(appendedTo)
      ensures old(rendererContainer).None? ==> error.None? && rendererContainer == Some(container) && appendedTo == old(appendedTo) + [container]
      ensures State() == old(State())
    {
      if rendererContainer.Some? {
        return Some(AlreadyAttached);
      }
      rendererContainer := Some(container);
      appendedTo := appendedTo + [container];
      error := None;
    }

    /** `listChildren`: append the childless meshes under `children`, recursing into nodes that have children. */
    method ListChildren(children: seq<Node>)
      modifies this`objects
      decreases children
      ensures objects == old(objects) + LeafMeshIds(children)
    {
      for i := 0 to |children|
        invariant objects == old(objects) + LeafMeshIds(children[..i])
      {
        var child := children[i];
        LeafMeshIdsSnoc(children[..i], child);
        assert children[..i + 1] == children[..i] + [child];
        if |child.children| > 0 {
          ListChildren(child.children);
        } else if child.kind == "Mesh" {
          objects := objects + [child.uuid];
        }
      }
      assert children[..|children|] == children;
    }

    /** `recalculateSceneObjects`. */
    method RecalculateSceneObjects()
      modifies this
      ensures State() == old(State()).(objects := LeafMeshIds(sceneChildren))
      ensures settingsValue == old(settingsValue)
      ensures rendererContainer == old(rendererContainer) && appendedTo == old(appendedTo)
    {
      objects := [];
      ListChildren(sceneChildren);
    }

    method SetValues()
      modifies this
      ensures State() == SettingsApplied(old(State()))
      ensures settingsValue == old(settingsValue)
      ensures rendererContainer == old(rendererContainer) && appendedTo == old(appendedTo)
    {
      if |models| == 0 || settingsValue.None? {
        return;
      }
      settingApplications := settingApplications + 1;
    }

    /** `updateValue`: store the settings and apply them. */
    method UpdateValue(value: S)
      modifies this
      ensures settingsValue == Some(value)
      ensures State() == SettingsApplied(old(State()).(hasSettings := true))
      ensures rendererContainer == old(rendererContainer) && appendedTo == old(appendedTo)
    {
      settingsValue := Some(value);
      SetValues();
    }

    method AddModel(model: Gltf, configs: ModelConfig)
      modifies this
      ensures State() == Added(old(State()), model, configs)
      ensures settingsValue == old(settingsValue)
      ensures rendererContainer == old(rendererContainer) && appendedTo == old(appendedTo)
    {
      var id := CustomId(configs, model.scene);
      var g := Stamped(model, id);
      models := models[id := g];
      sceneChildren := AddChild(sceneChildren, g.scene);
      ghost var registered := State();
      assert registered == old(State()).(models := old(models)[id := g], children := AddChild(old(sceneChildren), g.scene));
      SetValues();
      RecalculateSceneObjects();
    }

    method RemoveModel(id: string, calculateSceneObjects: bool) returns (error: Option<string>)
      modifies this
      ensures RemoveOutcome(State(), error) == Removed(old(State()), id, calculateSceneObjects)
      ensures settingsValue == old(settingsValue)
      ensures rendererContainer == old(rendererContainer) && appendedTo == old(appendedTo)
    {
      if id !in models {
        return None;
      }
      var gltf := models[id];
      removed := removed + [id];
      if !HasUuid(sceneChildren, gltf.scene.uuid) {
        return Some(NoParent);
      }
      sceneChildren := RemoveUuid(sceneChildren, gltf.scene.uuid);
      models := models - {id};
      error := None;
      if calculateSceneObjects {
        RecalculateSceneObjects();
      }
    }

    method ReplaceModel(model: Gltf, configs: ModelConfig) returns (error: Option<string>)
      modifies this
      ensures RemoveOutcome(State(), error) == Replaced(old(State()), model, configs)
      ensures settingsValue == old(settingsValue)
      ensures rendererContainer == old(rendererContainer) && appendedTo == old(appendedTo)
    {
      error := RemoveModel(CustomId(configs, model.scene), false);
      if error.Some? {
        return;
      }
      AddModel(model, configs);
    }

    method UpdateModelTransforms(id: string, settings: TransformSettings)
      modifies this
      ensures State() == Transform(old(State()), id, settings)
      ensures settingsValue == old(settingsValue)
      ensures rendererContainer == old(rendererContainer) && appendedTo == old(appendedTo)
    {
      if id !in models {
        return;
      }
      var root := models[id].scene;
      models := models[id := models[id].(scene := ApplyTransforms(root, settings))];
      sceneChildren := TransformChild(sceneChildren, root.uuid, settings);
    }

    /** `setEnvironmentValues`: the environment model takes the object settings, when there are any. */
    method SetEnvironmentValues(environment: Option<EnvironmentSettings>)
      modifies this
      ensures environment.None? || environment.value.objectSettings.None? ==> State() == old(State())
      ensures environment.Some? && environment.value.objectSettings.Some? ==>
                State() == Transform(old(State()), EnvironmentId, ObjectTransforms(environment.value.objectSettings.value))
      ensures settingsValue == old(settingsValue)
      ensures rendererContainer == old(rendererContainer) && appendedTo == old(appendedTo)
    {
      if environment.None? || environment.value.objectSettings.None? {
        return;
      }
      UpdateModelTransforms(EnvironmentId, ObjectTransforms(environment.value.objectSettings.value));
    }

    /**
     * `setCameraValues`: the camera rig model takes the initial position and
     * rotation, and a camera passed along is updated as `CameraAfter` says.
     */
    method SetCameraValues(settings: Option<CameraSettings>, camera: Option<CameraState>) returns (updated: Option<CameraState>)
      modifies this
      ensures settings.None? ==> State() == old(State()) && updated == camera
      ensures settings.Some? ==> State() == Transform(old(State()), CameraId, CameraTransforms(settings.value))
      ensures settings.Some? && camera.Some? ==> updated == Some(CameraAfter(settings.value, camera.value))
      ensures settings.Some? && camera.None? ==> updated.None?
      ensures settingsValue == old(settingsValue)
      ensures rendererContainer == old(rendererContainer) && appendedTo == old(appendedTo)
    {
      if settings.None? {
        return camera;
      }
      UpdateModelTransforms(CameraId, CameraTransforms(settings.value));
      if camera.None? {
        return None;
      }
      var c := camera.value.(position := settings.value.initialPosition, rotation := DegToRad(settings.value.initialRotation));
      if c.perspective {
        c := LensAfter(settings.value, c);
      }
      updated := Some(c);
    }

    /** The inner loop of `setDevicesValues`: one group's objects, in order. */
    method SetGroupObjects(objects: seq<ObjectSettings>)
      modifies this
      ensures State() == TransformAll(old(State()), objects)
      ensures settingsValue == old(settingsValue)
      ensures rendererContainer == old(rendererContainer) && appendedTo == old(appendedTo)
    {
      for j := 0 to |objects|
        invariant State() == TransformAll(old(State()), objects[..j])
        invariant settingsValue == old(settingsValue)
        invariant rendererContainer == old(rendererContainer) && appendedTo == old(appendedTo)
      {
        var o := objects[j];
        assert objects[..j + 1][..j] == objects[..j];
        UpdateModelTransforms(o.entity.id, ObjectTransforms(o));
      }
      assert objects[..|objects|] == objects;
    }

    /** `setDevicesValues`: each object of each group with objects moves the model keyed by its entity id. */
    method SetDevicesValues(devices: Option<DevicesSettings>)
      modifies this
      ensures State() == TransformAll(old(State()), UpdateObjects(devices))
      ensures settingsValue == old(settingsValue)
      ensures rendererContainer == old(rendererContainer) && appendedTo == old(appendedTo)
    {
      if devices.None? || devices.value.groups.None? {
        return;
      }
      var groups := devices.value.groups.value;
      for i := 0 to |groups|
        invariant State() == TransformAll(old(State()), DeviceObjects(groups[..i]))
        invariant settingsValue == old(settingsValue)
        invariant rendererContainer == old(rendererContainer) && appendedTo == old(appendedTo)
      {
        assert groups[..i + 1][..i] == groups[..i];
        var objects := groups[i].objects;
        if objects.Some? {
          assert DeviceObjects(groups[..i + 1]) == DeviceObjects(groups[..i]) + objects.value;
          TransformAllAppend(old(State()), DeviceObjects(groups[..i]), objects.value);
          SetGroupObjects(objects.value);
        } else {
          assert DeviceObjects(groups[..i + 1]) == DeviceObjects(groups[..i]) + [];
          assert DeviceObjects(groups[..i + 1]) == DeviceObjects(groups[..i]);
        }
      }
      assert groups[..|groups|] == groups;
    }
  }

  lemma LeafMeshIdsSnoc(children: seq<Node>, c: Node)
    ensures LeafMeshIds(children + [c]) ==
            LeafMeshIds(children) + (if |c.children| > 0 then LeafMeshIds(c.children) else if c.kind == "Mesh" then [c.uuid] else [])
  {
    if children == [] {
      assert [c][1..] == [];
    } else {
      assert (children + [c])[1..] == children[1..] + [c];
      LeafMeshIdsSnoc(children[1..], c);
    }
  }
}
