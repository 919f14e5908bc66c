/**
 * `ThreedUpdateDevicesComponent`: on every data update, each device object of
 * each device group moves the model registered under its entity id to the
 * object's position, rotation and scale.
 */
module UpdateDevices {
  import opened Wrappers
  import opened ThreedModels
  import opened SceneGraph
  import opened ModelManager

  /** An object's three vectors, all present. */
  function ObjectTransforms(o: ObjectSettings): TransformSettings
  {
    TransformSettings(Some(o.position), Some(o.rotation), Some(o.scale))
  }

  /** The objects of every group that has an object list, group by group. */
  function DeviceObjects(groups: seq<DeviceGroupSettings>): seq<ObjectSettings>
  {
    if groups == [] then []
    else
      var last := groups[|groups| - 1];
      DeviceObjects(groups[..|groups| - 1]) + (if last.objects.Some? then last.objects.value else [])
  }

  /** One more group adds its objects, if it has any, after those of the groups before it. */
  lemma DeviceObjectsStep(groups: seq<DeviceGroupSettings>, i: nat)
    requires i < |groups|
    ensures groups[i].objects.Some? ==> DeviceObjects(groups[..i + 1]) == DeviceObjects(groups[..i]) + groups[i].objects.value
    ensures groups[i].objects.None? ==> DeviceObjects(groups[..i + 1]) == DeviceObjects(groups[..i])
  {
    assert groups[..i + 1][..i] == groups[..i];
  }

  /** The objects an update carries: none for missing values or a missing group list. */
  function UpdateObjects(values: Option<DevicesSettings>): seq<ObjectSettings>
  {
    if values.None? || values.value.groups.None? then [] else DeviceObjects(values.value.groups.value)
  }

  /** One `updateModelTransforms` call on the registry. */
  function ApplyObject(models: map<string, ModelData>, o: ObjectSettings): map<string, ModelData>
  {
    var id := o.entity.id;
    if id in models then models[id := Transformed(models[id], ObjectTransforms(o))] else models
  }

  /** The registry after the calls for `objects`, in order. */
  function ApplyObjects(models: map<string, ModelData>, objects: seq<ObjectSettings>): map<string, ModelData>
  {
    if objects == [] then models else ApplyObject(ApplyObjects(models, objects[..|objects| - 1]), objects[|objects| - 1])
  }

  /** The last object naming `id`, whose transform is the one that stays. */
  function LastFor(objects: seq<ObjectSettings>, id: string): (r: Option<ObjectSettings>)
    ensures r.Some? ==> r.value in objects && r.value.entity.id == id
    ensures r.None? <==> forall o :: o in objects ==> o.entity.id != id
  {
    if objects == [] then None
    else if objects[|objects| - 1].entity.id == id then Some(objects[|objects| - 1])
    else
      var r := LastFor(objects[..|objects| - 1], id);
      assert forall o :: o in objects && o != objects[|objects| - 1] ==> o in objects[..|objects| - 1];
      r
  }

  /**
   * After a fan-out the registry has the same ids; a model no object names
   * is untouched; a named model stands where the last object naming it puts
   * it, with its meshes and everything else it had unchanged.
   */
  lemma {:induction false} ApplyObjectsEffect(models: map<string, ModelData>, objects: seq<ObjectSettings>, id: string)
    ensures ApplyObjects(models, objects).Keys == models.Keys
    ensures id in models && LastFor(objects, id).None? ==> ApplyObjects(models, objects)[id] == models[id]
    ensures id in models && LastFor(objects, id).Some? ==>
              var o := LastFor(objects, id).value;
              var m := ApplyObjects(models, objects)[id];
              m.root.position == o.position && m.root.rotation == DegToRad(o.rotation) && m.root.scale == o.scale &&
              m.id == models[id].id && m.flatModel == models[id].flatModel && m.root.uuid == models[id].root.uuid &&
              m.root.children == models[id].root.children && m.root.userData == models[id].root.userData
  {
    if objects != [] {
      var init := objects[..|objects| - 1];
      ApplyObjectsEffect(models, init, id);
    }
  }

  /** A fan-out over `a + b` is the fan-out over `a` followed by the one over `b`. */
  lemma {:induction false} ApplyObjectsAppend(models: map<string, ModelData>, a: seq<ObjectSettings>, b: seq<ObjectSettings>)
    decreases |b|
    ensures ApplyObjects(models, a + b) == ApplyObjects(ApplyObjects(models, a), b)
  {
    if b == [] {
      assert a + b == a;
    } else {
      assert (a + b)[..|a + b| - 1] == a + b[..|b| - 1];
      ApplyObjectsAppend(models, a, b[..|b| - 1]);
    }
  }

  class ThreedUpdateDevicesComponent {
    const modelManager: ThreedModelManager

    constructor(modelManager: ThreedModelManager)
      ensures this.modelManager == modelManager
    {
      this.modelManager := modelManager;
    }

    /** The inner loop of `onUpdateValues`: one group's objects, in order. */
    method UpdateGroupObjects(objects: seq<ObjectSettings>)
      requires modelManager.Valid()
      modifies modelManager`models, modelManager`sceneChildren
      ensures modelManager.Valid()
      ensures modelManager.models == ApplyObjects(old(modelManager.models), objects)
      ensures modelManager.sceneChildren == old(modelManager.sceneChildren)
    {
      for j := 0 to |objects|
        invariant modelManager.Valid()
        invariant modelManager.models == ApplyObjects(old(modelManager.models), objects[..j])
        invariant modelManager.sceneChildren == old(modelManager.sceneChildren)
      {
        var o := objects[j];
        assert objects[..j + 1][..j] == objects[..j];
        modelManager.UpdateModelTransforms(o.entity.id, ObjectTransforms(o));
      }
      assert objects[..|objects|] == objects;
    }

    /** `onUpdateValues`: every object of every group with objects updates the model keyed by its entity id. */
    method OnUpdateValues(values: Option<DevicesSettings>)
      requires modelManager.Valid()
      modifies modelManager`models, modelManager`sceneChildren
      ensures modelManager.Valid()
      ensures modelManager.models == ApplyObjects(old(modelManager.models), UpdateObjects(values))
      ensures modelManager.sceneChildren == old(modelManager.sceneChildren)
    {
      if values.None? || values.value.groups.None? {
        return;
      }
      var groups := values.value.groups.value;
      for i := 0 to |groups|
        invariant modelManager.Valid()
        invariant modelManager.models == ApplyObjects(old(modelManager.models), DeviceObjects(groups[..i]))
        invariant modelManager.sceneChildren == old(modelManager.sceneChildren)
      {
        DeviceObjectsStep(groups, i);
        var objects := groups[i].objects;
        if objects.Some? {
          ApplyObjectsAppend(old(modelManager.models), DeviceObjects(groups[..i]), objects.value);
          UpdateGroupObjects(objects.value);
        }
      }
      assert groups[..|groups|] == groups;
    }
  }
}
