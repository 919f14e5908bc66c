/**
 * `ThreedModelManager`: the registry of loaded GLTF models of a scene,
 * keyed by custom id in insertion order (a JavaScript `Map`), with the flat
 * list of every registered model's meshes kept beside it.
 */
module ModelManager {
  import opened Wrappers
  import opened JsValues
  import opened ThreedModels
  import opened SceneGraph

  datatype ModelConfig = ModelConfig(id: Option<string>, autoResize: bool)

  /** A loaded GLTF: its own `userData` and its root group `scene`. */
  datatype Gltf = Gltf(userData: map<string, JsValue>, scene: Node)

  /** `flatModel` holds references (uuids) to the meshes of `root`. */
  datatype ModelData = ModelData(id: string, gltf: Gltf, root: Node, flatModel: seq<string>, explodedModel: Option<Node>)

  /** Notifications, in the order they are emitted; removal records whether the root was still in the scene. */
  datatype ModelEvent = AfterAddModel(id: string) | BeforeRemoveModel(id: string, rootInScene: bool)

  /** The optional transform parts `updateModelTransforms` takes (rotation in degrees). */
  datatype TransformSettings = TransformSettings(position: Option<Vector3>, rotation: Option<Vector3>, scale: Option<Vector3>)

  /** `configs.id || root.uuid`. */
  function CustomId(configs: ModelConfig, root: Node): string
  {
    if TruthyStr(configs.id) then configs.id.value else root.uuid
  }

  /** The id and ROOT_TAG stamps `addModel` writes into a `userData` bag. */
  function Stamp(userData: map<string, JsValue>, customId: string): map<string, JsValue>
  {
    userData[ObjectIdTag := Str(customId)][RootTag := Bool(true)]
  }

  /** The flat mesh list a registry should carry: each model's meshes, in key order. */
  function ConcatFlat(keys: seq<string>, models: map<string, ModelData>): seq<string>
    requires forall k :: k in keys ==> k in models
  {
    if keys == [] then [] else models[keys[0]].flatModel + ConcatFlat(keys[1..], models)
  }

  lemma ConcatFlatAppend(keys: seq<string>, k: string, models: map<string, ModelData>)
    requires forall j :: j in keys ==> j in models
    requires k in models
    ensures ConcatFlat(keys + [k], models) == ConcatFlat(keys, models) + models[k].flatModel
  {
    if keys != [] {
      assert (keys + [k])[1..] == keys[1..] + [k];
      ConcatFlatAppend(keys[1..], k, models);
    }
  }

  /** The root with the transform parts that are present set; rotation converted to radians. */
  function ApplyTransforms(root: Node, t: TransformSettings): (r: Node)
    ensures r.uuid == root.uuid && r.kind == root.kind && r.children == root.children
    ensures r.userData == root.userData && r.visible == root.visible
    ensures r.position == (if t.position.Some? then t.position.value else root.position)
    ensures r.rotation == (if t.rotation.Some? then DegToRad(t.rotation.value) else root.rotation)
    ensures r.scale == (if t.scale.Some? then t.scale.value else root.scale)
  {
    var p := if t.position.Some? then root.(position := t.position.value) else root;
    var q := if t.rotation.Some? then p.(rotation := DegToRad(t.rotation.value)) else p;
    if t.scale.Some? then q.(scale := t.scale.value) else q
  }

  /** The registry entry after `updateModelTransforms`: its root (also the GLTF scene) transformed. */
  function Transformed(data: ModelData, t: TransformSettings): (r: ModelData)
    ensures r.id == data.id && r.flatModel == data.flatModel && r.explodedModel == data.explodedModel
    ensures r.root == ApplyTransforms(data.root, t) && r.gltf.scene == r.root && r.gltf.userData == data.gltf.userData
  {
    var root := ApplyTransforms(data.root, t);
    data.(root := root, gltf := data.gltf.(scene := root))
  }

  /**
   * The entry after `explodeObjectByDistance`: the exploded group is the
   * existing one, or `split` the first time; distance 0 shows the original
   * root and hides the exploded group, any other distance does the reverse.
   */
  function Explode(data: ModelData, distance: real, split: Node): (r: ModelData)
    ensures r.id == data.id && r.flatModel == data.flatModel && r.explodedModel.Some?
    ensures r.root == data.root.(visible := distance == 0.0) && r.gltf.scene == r.root
    ensures r.explodedModel.value.visible == (distance != 0.0)
    ensures data.explodedModel.Some? ==> r.explodedModel.value == data.explodedModel.value.(visible := distance != 0.0)
    ensures data.explodedModel.None? ==> r.explodedModel.value == split.(visible := distance != 0.0)
  {
    var exploded := if data.explodedModel.Some? then data.explodedModel.value else split;
    var root := data.root.(visible := distance == 0.0);
    data.(root := root, gltf := data.gltf.(scene := root), explodedModel := Some(exploded.(visible := distance != 0.0)))
  }

  /** Exploding twice builds the exploded group only once: the second call reuses the first one's group. */
  lemma ExplodeBuildsOnce(data: ModelData, d1: real, d2: real, split1: Node, split2: Node)
    ensures Explode(Explode(data, d1, split1), d2, split2).explodedModel.value ==
            Explode(data, d1, split1).explodedModel.value.(visible := d2 != 0.0)
    ensures Explode(Explode(data, d1, split1), d2, split2) == Explode(data, d2, split1)
  {
  }

  lemma ExplodeKeepsMeshes(data: ModelData, distance: real, split: Node)
    ensures MeshIds(Explode(data, distance, split).root) == MeshIds(data.root)
  {
  }

  /**
   * The registry invariant: `order` lists each key of `models` once; every
   * entry is keyed by its own id, records its root's meshes and has its
   * root in the scene; no two entries share a root; the flat list is the
   * concatenation of the entries' mesh lists in key order.
   */
  ghost predicate RegistryInv(order: seq<string>, models: map<string, ModelData>, flat: seq<string>, scene: seq<string>)
  {
    (forall i, j :: 0 <= i < j < |order| ==> order[i] != order[j]) &&
    (forall k :: k in models <==> k in order) &&
    (forall k :: k in models ==>
       models[k].id == k && models[k].flatModel == MeshIds(models[k].root) &&
       models[k].root.uuid in scene) &&
    (forall k1, k2 :: k1 in models && k2 in models && k1 != k2 ==> models[k1].root.uuid != models[k2].root.uuid) &&
    flat == ConcatFlat(order, models)
  }

  /** Registering a model whose root is not in the scene yet, and putting the root there, keeps the invariant. */
  lemma AddKeepsInv(order: seq<string>, models: map<string, ModelData>, flat: seq<string>, scene: seq<string>,
                    id: string, d: ModelData)
    requires RegistryInv(order, models, flat, scene)
    requires d.id == id && d.flatModel == MeshIds(d.root) && d.root.uuid !in scene
    ensures var order' := if id in models then order else order + [id];
            var models' := models[id := d];
            RegistryInv(order', models', ConcatFlat(order', models'), scene + [d.root.uuid])
  {
    var order' := if id in models then order else order + [id];
    var models' := models[id := d];
    var scene' := scene + [d.root.uuid];
    if id !in models {
      forall i, j | 0 <= i < j < |order'|
        ensures order'[i] != order'[j]
      {
        if j == |order| {
          assert order'[i] == order[i];
        }
      }
    }
    forall k | k in models'
      ensures models'[k].root.uuid in scene'
    {
      if k != id {
        assert models[k].root.uuid in scene;
      }
    }
    forall k1, k2 | k1 in models' && k2 in models' && k1 != k2
      ensures models'[k1].root.uuid != models'[k2].root.uuid
    {
      if k1 != id && k2 != id {
        assert models'[k1] == models[k1] && models'[k2] == models[k2];
      } else if k1 == id {
        assert models'[k2].root.uuid in scene;
      } else {
        assert models'[k1].root.uuid in scene;
      }
    }
  }

  /** Replacing an entry by one with the same id, root uuid and meshes, while the scene only grows, keeps the invariant. */
  lemma RegistryInvSameShape(order: seq<string>, models: map<string, ModelData>, flat: seq<string>,
                             scene: seq<string>, scene': seq<string>, id: string, d: ModelData)
    requires RegistryInv(order, models, flat, scene)
    requires id in models && d.id == id && d.root.uuid == models[id].root.uuid
    requires d.flatModel == models[id].flatModel && d.flatModel == MeshIds(d.root)
    requires forall u :: u in scene ==> u in scene'
    ensures RegistryInv(order, models[id := d], flat, scene')
  {
    ConcatFlatSameFlat(order, models, models[id := d]);
  }

  class ThreedModelManager {
    /** Keys of `models` in insertion order. */
    var order: seq<string>
    var models: map<string, ModelData>
    var flatModels: seq<string>
    /** uuids of the scene's children, in order. */
    var sceneChildren: seq<string>
    var events: seq<ModelEvent>

    ghost predicate Valid()
      reads this
    {
      RegistryInv(order, models, flatModels, sceneChildren)
    }

    constructor(sceneChildren: seq<string>)
      ensures Valid()
      ensures order == [] && models == map[] && flatModels == [] && events == []
      ensures this.sceneChildren == sceneChildren
    {
      order, models, flatModels := [], map[], [];
      this.sceneChildren := sceneChildren;
      events := [];
    }

    /** `getAllFlatModels`. */
    function AllFlatModels(): seq<string>
      reads this
    {
      flatModels
    }

    /** `recalculateFlatModels`: rebuild the flat list from the models, in key order. */
    method RecalculateFlatModels()
      modifies this
      requires forall k :: k in order ==> k in models
      ensures order == old(order) && models == old(models)
      ensures sceneChildren == old(sceneChildren) && events == old(events)
      ensures flatModels == ConcatFlat(order, models)
    {
      var keys, ms := order, models;
      var flat: seq<string> := [];
      var i := 0;
      while i < |keys|
        invariant 0 <= i <= |keys|
        invariant forall k :: k in keys[..i] ==> k in ms
        invariant flat == ConcatFlat(keys[..i], ms)
        invariant order == keys && models == ms
        invariant sceneChildren == old(sceneChildren) && events == old(events)
      {
        ConcatFlatAppend(keys[..i], keys[i], ms);
        assert keys[..i + 1] == keys[..i] + [keys[i]];
        flat := flat + ms[keys[i]].flatModel;
        i := i + 1;
      }
      assert keys[..|keys|] == keys;
      flatModels := flat;
    }

    /**
     * `addModel`: key the model by `configs.id`, else by its root's uuid; stamp
     * that id and ROOT_TAG on the GLTF and on its root; record the root's
     * meshes; put the root in the scene; notify; rebuild the flat list. An
     * existing key keeps its position and gets the new data.
     */
    method AddModel(model: Gltf, configs: ModelConfig) returns (customId: string)
      modifies this
      requires Valid()
      // A loaded model brings a root with a fresh uuid, not yet in the scene.
      requires model.scene.uuid !in sceneChildren
      ensures Valid()
      ensures customId == CustomId(configs, model.scene)
      ensures var root := model.scene.(userData := Stamp(model.scene.userData, customId));
              models == old(models)[customId := ModelData(customId, Gltf(Stamp(model.userData, customId), root),
                                                          root, MeshIds(root), None)]
      ensures order == if customId in old(models) then old(order) else old(order) + [customId]
      ensures sceneChildren == old(sceneChildren) + [model.scene.uuid]
      ensures events == old(events) + [AfterAddModel(customId)]
    {
      customId := CustomId(configs, model.scene);
      var root := model.scene.(userData := Stamp(model.scene.userData, customId));
      var gltf := Gltf(Stamp(model.userData, customId), root);
      var data := ModelData(customId, gltf, root, MeshIds(root), None);
      AddKeepsInv(order, models, flatModels, sceneChildren, customId, data);
      Register(data);
      RecalculateFlatModels();
    }

    /** The registering steps of `addModel` before the flat list is rebuilt. */
    method Register(data: ModelData)
      modifies this
      ensures order == if data.id in old(models) then old(order) else old(order) + [data.id]
      ensures models == old(models)[data.id := data]
      ensures sceneChildren == old(sceneChildren) + [data.root.uuid]
      ensures events == old(events) + [AfterAddModel(data.id)]
      ensures flatModels == old(flatModels)
    {
      if data.id !in models {
        order := order + [data.id];
      }
      models := models[data.id := data];
      sceneChildren := sceneChildren + [data.root.uuid];
      events := events + [AfterAddModel(data.id)];
    }

    /**
     * `removeModel`: nothing for an unknown id; otherwise notify while the
     * root is still in the scene, detach the root, drop the entry and rebuild
     * the flat list.
     */
    method RemoveModel(id: string)
      modifies this
      requires Valid()
      ensures Valid()
      ensures id !in old(models) ==>
                models == old(models) && order == old(order) && flatModels == old(flatModels) &&
                sceneChildren == old(sceneChildren) && events == old(events)
      ensures id in old(models) ==>
                models == old(models) - {id} && order == RemoveFirst(old(order), id) &&
                sceneChildren == RemoveFirst(old(sceneChildren), old(models)[id].root.uuid) &&
                events == old(events) + [BeforeRemoveModel(id, true)]
      ensures id !in models
    {
      if id !in models {
        return;
      }
      var data := models[id];
      events := events + [BeforeRemoveModel(id, data.root.uuid in sceneChildren)];
      sceneChildren := RemoveFirst(sceneChildren, data.root.uuid);
      models := models - {id};
      order := RemoveFirst(order, id);
      RemoveFirstKeepsDistinct(old(order), id);
      forall k | k in models
        ensures models[k].root.uuid in sceneChildren
      {
        RemoveFirstKeeps(old(sceneChildren), data.root.uuid, models[k].root.uuid);
      }
      RecalculateFlatModels();
    }

    /**
     * `replaceModel`: drop whatever is registered under the chosen id (its
     * root leaves the scene, announced by a removal event), then add the
     * model, whose root enters the scene and which ends up as the single and
     * last entry under the id.
     */
    method ReplaceModel(model: Gltf, configs: ModelConfig) returns (customId: string)
      modifies this
      requires Valid()
      // A loaded model brings a root with a fresh uuid, not yet in the scene.
      requires model.scene.uuid !in sceneChildren
      ensures Valid()
      ensures customId == CustomId(configs, model.scene)
      ensures customId in models && models[customId].gltf.scene == models[customId].root
      ensures models[customId].root == model.scene.(userData := Stamp(model.scene.userData, customId))
      ensures models == (old(models) - {customId})[customId := models[customId]]
      ensures order == RemoveFirst(old(order), customId) + [customId]
      ensures multiset(order)[customId] == 1
      ensures sceneChildren == (if customId in old(models) then RemoveFirst(old(sceneChildren), old(models)[customId].root.uuid)
                                else old(sceneChildren)) + [model.scene.uuid]
      ensures events == old(events) + (if customId in old(models) then [BeforeRemoveModel(customId, true)] else []) +
                        [AfterAddModel(customId)]
    {
      var key := CustomId(configs, model.scene);
      var uuids := sceneChildren;
      RemoveModel(key);
      assert model.scene.uuid !in sceneChildren by {
        if key in old(models) {
          RemoveFirstSubset(uuids, old(models)[key].root.uuid, model.scene.uuid);
        }
      }
      ghost var removed, orderBefore := models, order;
      ghost var sceneBefore, eventsBefore := sceneChildren, events;
      ghost var announced := if key in old(models) then [BeforeRemoveModel(key, true)] else [];
      assert eventsBefore == old(events) + announced;
      assert removed == old(models) - {key} && orderBefore == RemoveFirst(old(order), key);
      assert key !in orderBefore;
      customId := AddModel(model, configs);
      assert sceneChildren == sceneBefore + [model.scene.uuid];
      assert events == old(events) + announced + [AfterAddModel(key)];
      assert order == orderBefore + [key] && models == removed[key := models[key]];
      assert multiset(orderBefore)[key] == 0;
    }

    /**
     * `explodeObjectByDistance` (visibility only): unknown ids are ignored;
     * otherwise the entry becomes `Explode(entry, distance, split)`, and the
     * exploded group enters the scene the one time it is built.
     */
    method ExplodeObjectByDistance(id: string, distance: real, split: Node)
      modifies this`models, this`sceneChildren
      requires Valid()
      ensures Valid()
      ensures id !in old(models) ==> models == old(models) && sceneChildren == old(sceneChildren)
      ensures id in old(models) ==> models == old(models)[id := Explode(old(models)[id], distance, split)]
      ensures id in old(models) ==>
                sceneChildren == old(sceneChildren) + (if old(models)[id].explodedModel.None? then [split.uuid] else [])
    {
      if id !in models {
        return;
      }
      var data := models[id];
      var scene := sceneChildren;
      if data.explodedModel.None? {
        scene := scene + [split.uuid];
      }
      var newData := Explode(data, distance, split);
      ExplodeKeepsMeshes(data, distance, split);
      RegistryInvSameShape(order, models, flatModels, sceneChildren, scene, id, newData);
      Store(id, newData, scene);
    }

    /** Puts `d` under `id` and sets the scene's children to `scene`. */
    method Store(id: string, d: ModelData, scene: seq<string>)
      modifies this`models, this`sceneChildren
      ensures models == old(models)[id := d] && sceneChildren == scene
    {
      models := models[id := d];
      sceneChildren := scene;
    }

    /**
     * `updateModelTransforms`: nothing for an unknown id; otherwise only the
     * given parts of the model root's transform are set.
     */
    method UpdateModelTransforms(id: string, settings: TransformSettings)
      modifies this`models, this`sceneChildren
      requires Valid()
      ensures Valid()
      ensures sceneChildren == old(sceneChildren) && models.Keys == old(models).Keys
      ensures id !in old(models) ==> models == old(models)
      ensures id in old(models) ==> models == old(models)[id := Transformed(old(models)[id], settings)]
    {
      if id !in models {
        return;
      }
      var data := models[id];
      var newData := Transformed(data, settings);
      assert MeshIds(newData.root) == MeshIds(data.root);
      RegistryInvSameShape(order, models, flatModels, sceneChildren, sceneChildren, id, newData);
      Store(id, newData, sceneChildren);
    }
  }

  lemma ConcatFlatSameFlat(keys: seq<string>, m1: map<string, ModelData>, m2: map<string, ModelData>)
    requires forall k :: k in keys ==> k in m1 && k in m2 && m1[k].flatModel == m2[k].flatModel
    ensures ConcatFlat(keys, m1) == ConcatFlat(keys, m2)
  {
  }

  lemma RemoveFirstKeepsDistinct(s: seq<string>, x: string)
    requires forall i, j :: 0 <= i < j < |s| ==> s[i] != s[j]
    ensures forall i, j :: 0 <= i < j < |RemoveFirst(s, x)| ==> RemoveFirst(s, x)[i] != RemoveFirst(s, x)[j]
    ensures forall y :: y in RemoveFirst(s, x) <==> y in s && y != x
  {
    if s != [] {
      assert s == [s[0]] + s[1..];
      assert s[0] !in s[1..];
      if s[0] != x {
        RemoveFirstKeepsDistinct(s[1..], x);
        var r := RemoveFirst(s, x);
        assert r == [s[0]] + RemoveFirst(s[1..], x);
        forall i, j | 0 <= i < j < |r|
          ensures r[i] != r[j]
        {
          if i == 0 {
            assert r[j] in RemoveFirst(s[1..], x);
          }
        }
      }
    }
  }

  lemma RemoveFirstKeeps(s: seq<string>, x: string, y: string)
    requires y in s && y != x
    ensures y in RemoveFirst(s, x)
  {
    if s[0] != x && s[0] != y {
      RemoveFirstKeeps(s[1..], x, y);
    }
  }

  lemma RemoveFirstSubset(s: seq<string>, x: string, y: string)
    requires y !in s
    ensures y !in RemoveFirst(s, x)
  {
    if s != [] && s[0] != x {
      RemoveFirstSubset(s[1..], x, y);
    }
  }
}
