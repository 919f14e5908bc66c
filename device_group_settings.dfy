/**
 * `ThreedDeviceGroupSettingsComponent`: the form editing one device group.
 * Resolving the group's alias adds one object per entity not listed yet;
 * removing an object remembers its entity in `deletedDevices`, and adding
 * that entity again strikes it off. The `useAttribute` switch enables the
 * attribute key and decides the public `entityAttribute`/`entityAlias`.
 */
module DeviceGroupSettingsComponent {
  import opened Wrappers
  import opened JsValues
  import opened ThreedModels

  /** Some object of the list is bound to the entity `id`. */
  predicate HasEntity(objects: seq<ObjectSettings>, id: string)
  {
    exists i :: 0 <= i < |objects| && objects[i].entity.id == id
  }

  /** No two objects are bound to the same entity. */
  predicate DistinctEntityIds(objects: seq<ObjectSettings>)
  {
    forall i, j :: 0 <= i < j < |objects| ==> objects[i].entity.id != objects[j].entity.id
  }

  /** Some remembered deleted device has the id `id`. */
  predicate IsDeleted(deleted: seq<EntityInfo>, id: string)
  {
    exists i :: 0 <= i < |deleted| && deleted[i].id == id
  }

  /** The object `addObjectIfNotExists` creates: no model URL yet, at the origin, unrotated, unit scale. */
  function NewObject(entity: EntityInfo): (o: ObjectSettings)
    ensures o.entity == entity && o.modelUrl == ""
    ensures o.position == Vector3(0.0, 0.0, 0.0) && o.rotation == Vector3(0.0, 0.0, 0.0)
    ensures o.scale == Vector3(1.0, 1.0, 1.0)
  {
    ObjectSettings(entity, "", VectorZero(), VectorZero(), VectorOne())
  }

  /**
   * `deletedDevices` without its first entry for entity `id`: exactly one
   * entry fewer when there is one, every other entry kept in order.
   */
  function ForgetDeleted(deleted: seq<EntityInfo>, id: string): (r: seq<EntityInfo>)
    ensures !IsDeleted(deleted, id) ==> r == deleted
    ensures IsDeleted(deleted, id) ==> |r| == |deleted| - 1
  {
    if deleted == [] then []
    else
      assert deleted == [deleted[0]] + deleted[1..];
      if deleted[0].id == id then deleted[1..]
      else
        var rest := ForgetDeleted(deleted[1..], id);
        assert IsDeleted(deleted, id) ==> IsDeleted(deleted[1..], id) by {
          if IsDeleted(deleted, id) {
            var i :| 0 <= i < |deleted| && deleted[i].id == id;
            assert deleted[1..][i - 1] == deleted[i];
          }
        }
        assert !IsDeleted(deleted, id) ==> !IsDeleted(deleted[1..], id) by {
          if IsDeleted(deleted[1..], id) {
            var i :| 0 <= i < |deleted[1..]| && deleted[1..][i].id == id;
            assert deleted[i + 1] == deleted[1..][i];
          }
        }
        [deleted[0]] + rest
  }

  /** Striking an entry off removes nothing else: every entry of another entity keeps its count. */
  lemma {:induction false} ForgetDeletedKeepsOthers(deleted: seq<EntityInfo>, id: string)
    ensures multiset(ForgetDeleted(deleted, id)) <= multiset(deleted)
    ensures forall e: EntityInfo :: e.id != id ==> multiset(ForgetDeleted(deleted, id))[e] == multiset(deleted)[e]
  {
    if deleted != [] {
      assert deleted == [deleted[0]] + deleted[1..];
      if deleted[0].id != id {
        ForgetDeletedKeepsOthers(deleted[1..], id);
      }
    }
  }

  /** Striking the first entry with the id off is cutting it out at the first index that has it. */
  lemma {:induction false} ForgetDeletedAt(deleted: seq<EntityInfo>, id: string, k: nat)
    requires k < |deleted| && deleted[k].id == id
    requires forall j :: 0 <= j < k ==> deleted[j].id != id
    ensures ForgetDeleted(deleted, id) == deleted[..k] + deleted[k + 1..]
    decreases k
  {
    if k > 0 {
      var tail := deleted[1..];
      assert deleted[0].id != id;
      assert deleted == [deleted[0]] + tail;
      assert forall j :: 0 <= j < k - 1 ==> tail[j].id != id by {
        forall j | 0 <= j < k - 1
          ensures tail[j].id != id
        {
          assert tail[j] == deleted[j + 1];
        }
      }
      ForgetDeletedAt(tail, id, k - 1);
      assert deleted[..k] == [deleted[0]] + tail[..k - 1];
      assert deleted[k + 1..] == tail[k..];
      calc {
        ForgetDeleted(deleted, id);
        [deleted[0]] + ForgetDeleted(tail, id);
        [deleted[0]] + (tail[..k - 1] + tail[k..]);
        ([deleted[0]] + tail[..k - 1]) + tail[k..];
      }
    } else {
      assert deleted[..0] + deleted[1..] == deleted[1..];
    }
  }

  /** The search loop of `addObjectIfNotExists`: the index of the object bound to `id`, or `|objects|` when none is. */
  method IndexOfEntity(objects: seq<ObjectSettings>, id: string) returns (k: nat)
    ensures k <= |objects| && (k < |objects| <==> HasEntity(objects, id))
  {
    k := 0;
    while k < |objects| && objects[k].entity.id != id
      invariant k <= |objects|
      invariant forall j :: 0 <= j < k ==> objects[j].entity.id != id
    {
      k := k + 1;
    }
  }

  /** The search of `deletedDevices`: the first index with the id `id`, or `|deleted|` when none has it. */
  method IndexOfDeleted(deleted: seq<EntityInfo>, id: string) returns (i: nat)
    ensures i <= |deleted| && (i < |deleted| <==> IsDeleted(deleted, id))
    ensures i < |deleted| ==> deleted[i].id == id
    ensures forall j :: 0 <= j < i ==> deleted[j].id != id
  {
    i := 0;
    while i < |deleted| && deleted[i].id != id
      invariant i <= |deleted|
      invariant forall j :: 0 <= j < i ==> deleted[j].id != id
    {
      i := i + 1;
    }
  }

  /** The object list together with the remembered deleted devices. */
  datatype Devices = Devices(objects: seq<ObjectSettings>, deleted: seq<EntityInfo>)

  /**
   * `addObjectIfNotExists`: a listed entity changes nothing; otherwise a new
   * object for it goes last and its first deleted entry is struck off.
   */
  function AddIfNotExists(d: Devices, entity: EntityInfo): (r: Devices)
    ensures HasEntity(d.objects, entity.id) ==> r == d
    ensures |d.objects| <= |r.objects| <= |d.objects| + 1 && r.objects[..|d.objects|] == d.objects
    ensures !HasEntity(d.objects, entity.id) ==> |r.objects| == |d.objects| + 1 && r.objects[|d.objects|] == NewObject(entity)
    ensures !HasEntity(d.objects, entity.id) ==> !IsDeleted(d.deleted, entity.id) || |r.deleted| == |d.deleted| - 1
    ensures forall e: EntityInfo :: e.id != entity.id ==> multiset(r.deleted)[e] == multiset(d.deleted)[e]
  {
    if HasEntity(d.objects, entity.id) then d
    else
      var objects := d.objects + [NewObject(entity)];
      assert objects[..|d.objects|] == d.objects;
      ForgetDeletedKeepsOthers(d.deleted, entity.id);
      Devices(objects, ForgetDeleted(d.deleted, entity.id))
  }

  /** After `addObjectIfNotExists` exactly the entity and those listed before have an object, each just one. */
  lemma AddIfNotExistsCovers(d: Devices, entity: EntityInfo)
    ensures var r := AddIfNotExists(d, entity);
            (forall x :: HasEntity(r.objects, x) <==> HasEntity(d.objects, x) || x == entity.id) &&
            (DistinctEntityIds(d.objects) ==> DistinctEntityIds(r.objects))
  {
    var r := AddIfNotExists(d, entity);
    if !HasEntity(d.objects, entity.id) {
      assert r.objects == d.objects + [NewObject(entity)];
      forall x
        ensures HasEntity(r.objects, x) <==> HasEntity(d.objects, x) || x == entity.id
      {
        if HasEntity(d.objects, x) {
          var i :| 0 <= i < |d.objects| && d.objects[i].entity.id == x;
          assert r.objects[i] == d.objects[i];
        }
        if HasEntity(r.objects, x) && x != entity.id {
          var i :| 0 <= i < |r.objects| && r.objects[i].entity.id == x;
          assert i < |d.objects| && d.objects[i] == r.objects[i];
        }
        if x == entity.id {
          assert r.objects[|d.objects|].entity.id == x;
        }
      }
      if DistinctEntityIds(d.objects) {
        forall i, j | 0 <= i < j < |r.objects|
          ensures r.objects[i].entity.id != r.objects[j].entity.id
        {
          if j == |d.objects| {
            assert r.objects[i] == d.objects[i];
          }
        }
      }
    }
  }

  /** `removeObject(index)`: the object leaves the list and its entity is remembered last. */
  function RemoveAt(d: Devices, index: nat): (r: Devices)
    requires index < |d.objects|
    ensures |r.objects| == |d.objects| - 1
    ensures forall i :: 0 <= i < |r.objects| ==> r.objects[i] == (if i < index then d.objects[i] else d.objects[i + 1])
    ensures multiset(r.deleted) == multiset(d.deleted) + multiset{d.objects[index].entity}
    ensures |r.deleted| == |d.deleted| + 1 && r.deleted[..|d.deleted|] == d.deleted
    ensures DistinctEntityIds(d.objects) ==> !HasEntity(r.objects, d.objects[index].entity.id) && DistinctEntityIds(r.objects)
  {
    var objects := d.objects[..index] + d.objects[index + 1..];
    var deleted := d.deleted + [d.objects[index].entity];
    assert deleted[..|d.deleted|] == d.deleted;
    assert forall i :: 0 <= i < |objects| ==> objects[i] == (if i < index then d.objects[i] else d.objects[i + 1]);
    Devices(objects, deleted)
  }

  /**
   * Removing an object and adding its entity back leaves the remembered
   * deleted devices as they were (when the entity was not remembered
   * already) and puts a fresh object for the entity last: its model URL
   * and transform are not restored.
   */
  lemma RemoveThenReAdd(d: Devices, index: nat)
    requires index < |d.objects| && DistinctEntityIds(d.objects)
    requires !IsDeleted(d.deleted, d.objects[index].entity.id)
    ensures var e := d.objects[index].entity;
            var r := AddIfNotExists(RemoveAt(d, index), e);
            r.deleted == d.deleted &&
            r.objects == d.objects[..index] + d.objects[index + 1..] + [NewObject(e)]
  {
    var e := d.objects[index].entity;
    var removed := RemoveAt(d, index);
    assert removed.objects == d.objects[..index] + d.objects[index + 1..];
    assert removed.deleted == d.deleted + [e];
    ForgetDeletedAt(removed.deleted, e.id, |d.deleted|);
    assert removed.deleted[..|d.deleted|] == d.deleted;
  }

  /** The resolved entities of `loadEntities`, each added in turn. */
  function AddAll(d: Devices, entities: seq<EntityInfo>): Devices
  {
    if entities == [] then d
    else AddIfNotExists(AddAll(d, entities[..|entities| - 1]), entities[|entities| - 1])
  }

  /** Some resolved entity has the id `id`. */
  predicate Resolves(entities: seq<EntityInfo>, id: string)
  {
    exists i :: 0 <= i < |entities| && entities[i].id == id
  }

  lemma ResolvesSnoc(init: seq<EntityInfo>, e: EntityInfo)
    ensures forall x :: Resolves(init + [e], x) <==> Resolves(init, x) || x == e.id
  {
    var all := init + [e];
    forall x
      ensures Resolves(all, x) <==> Resolves(init, x) || x == e.id
    {
      if Resolves(init, x) {
        var i :| 0 <= i < |init| && init[i].id == x;
        assert all[i] == init[i];
      }
      if Resolves(all, x) && x != e.id {
        var i :| 0 <= i < |all| && all[i].id == x;
        assert i < |init| && init[i] == all[i];
      }
      if x == e.id {
        assert all[|init|] == e;
      }
    }
  }

  /**
   * After the resolved entities are added, exactly the listed entities and
   * the resolved ones have an object, each just one, and the objects already
   * listed keep their place.
   */
  lemma {:induction false} AddAllCovers(d: Devices, entities: seq<EntityInfo>)
    ensures var r := AddAll(d, entities);
            (DistinctEntityIds(d.objects) ==> DistinctEntityIds(r.objects)) &&
            |d.objects| <= |r.objects| && r.objects[..|d.objects|] == d.objects &&
            forall x :: HasEntity(r.objects, x) <==> HasEntity(d.objects, x) || Resolves(entities, x)
    decreases |entities|
  {
    if entities != [] {
      var init := entities[..|entities| - 1];
      var last := entities[|entities| - 1];
      assert entities == init + [last];
      AddAllCovers(d, init);
      ResolvesSnoc(init, last);
      var m := AddAll(d, init);
      assert m.objects[..|d.objects|] == d.objects;
      var r := AddIfNotExists(m, last);
      AddIfNotExistsCovers(m, last);
      assert r.objects[..|m.objects|] == m.objects;
      assert r.objects[..|d.objects|] == r.objects[..|m.objects|][..|d.objects|];
    }
  }

  /** The value the form group reports: a disabled attribute key is left out of it (no attribute). */
  function FormValue(aliasSettings: AliasSettings, useAttribute: bool, keySettings: KeySettings, keyEnabled: bool,
                     tooltip: TooltipSettings, objects: seq<ObjectSettings>): (g: DeviceGroupSettings)
    ensures g.keySettings.entityAttribute.Some? ==> keyEnabled
    ensures g.objects == Some(objects) && g.aliasSettings == aliasSettings && g.useAttribute == useAttribute
  {
    DeviceGroupSettings(aliasSettings, useAttribute, if keyEnabled then keySettings else KeySettings(None),
      Some(objects), tooltip, None)
  }

  /** `this.lastEntityKeySettings?.entityAttribute || ""`. */
  function RestoredAttribute(last: Option<KeySettings>): (r: string)
    ensures last.Some? && TruthyStr(last.value.entityAttribute) ==> r == last.value.entityAttribute.value
    ensures !(last.Some? && TruthyStr(last.value.entityAttribute)) ==> r == ""
  {
    if last.Some? && TruthyStr(last.value.entityAttribute) then last.value.entityAttribute.value else ""
  }

  class ThreedDeviceGroupSettings {
    // The form group's controls.
    var aliasSettings: AliasSettings
    var useAttribute: bool
    var keySettings: KeySettings
    /** Whether the `threedEntityKeySettings` control is enabled. */
    var keyEnabled: bool
    var tooltip: TooltipSettings
    var objects: seq<ObjectSettings>
    // The component's fields.
    var deletedDevices: seq<EntityInfo>
    var entityAttribute: Option<string>
    var entityAlias: Option<string>
    var lastEntityKeySettings: Option<KeySettings>
    var modelValue: Option<DeviceGroupSettings>
    /** Whether `registerOnChange` has supplied `propagateChange`. */
    var hasPropagate: bool
    /** The values handed to `propagateChange`, oldest first. */
    var propagated: seq<Option<DeviceGroupSettings>>

    function Form(): DeviceGroupSettings
      reads this
    {
      FormValue(aliasSettings, useAttribute, keySettings, keyEnabled, tooltip, objects)
    }

    function State(): Devices
      reads this
    {
      Devices(objects, deletedDevices)
    }

    /**
     * `ngOnInit` on a fresh component: empty controls, no objects, and
     * `updateValidators(false)` with the switch off, so the key is disabled
     * and both public fields are null.
     */
    constructor(tooltip: TooltipSettings)
      ensures State() == Devices([], []) && !useAttribute && aliasSettings == AliasSettings(None)
      ensures !keyEnabled && keySettings == KeySettings(None)
      ensures entityAttribute.None? && entityAlias.None? && lastEntityKeySettings.None?
      ensures modelValue.None? && !hasPropagate && propagated == []
      ensures this.tooltip == tooltip
    {
      aliasSettings, useAttribute, keySettings, keyEnabled := AliasSettings(None), false, KeySettings(None), true;
      this.tooltip, objects := tooltip, [];
      deletedDevices, entityAttribute, entityAlias, lastEntityKeySettings := [], None, None, None;
      modelValue, hasPropagate, propagated := None, false, [];
      new;
      UpdateValidators();
    }

    method RegisterOnChange()
      modifies this
      ensures hasPropagate && propagated == old(propagated)
      ensures State() == old(State()) && Form() == old(Form()) && modelValue == old(modelValue)
    {
      hasPropagate := true;
    }

    /** `addObjectIfNotExists(entity)`. */
    method AddObjectIfNotExists(entity: EntityInfo)
      modifies this
      ensures State() == AddIfNotExists(old(State()), entity)
      ensures aliasSettings == old(aliasSettings) && useAttribute == old(useAttribute) && keySettings == old(keySettings)
      ensures keyEnabled == old(keyEnabled) && tooltip == old(tooltip)
      ensures entityAttribute == old(entityAttribute) && entityAlias == old(entityAlias)
      ensures lastEntityKeySettings == old(lastEntityKeySettings) && modelValue == old(modelValue)
      ensures hasPropagate == old(hasPropagate) && propagated == old(propagated)
    {
      var k := IndexOfEntity(objects, entity.id);
      if k < |objects| {
        return;
      }
      var deleted := deletedDevices;
      var i := IndexOfDeleted(deleted, entity.id);
      var rest := deleted;
      if i < |deleted| {
        ForgetDeletedAt(deleted, entity.id, i);
        rest := deleted[..i] + deleted[i + 1..];
      }
      assert rest == ForgetDeleted(deleted, entity.id);
      SetDevices(Devices(objects + [NewObject(entity)], rest));
    }

    /** Replaces the object list and the remembered deleted devices, nothing else. */
    method SetDevices(d: Devices)
      modifies this
      ensures State() == d
      ensures aliasSettings == old(aliasSettings) && useAttribute == old(useAttribute) && keySettings == old(keySettings)
      ensures keyEnabled == old(keyEnabled) && tooltip == old(tooltip)
      ensures entityAttribute == old(entityAttribute) && entityAlias == old(entityAlias)
      ensures lastEntityKeySettings == old(lastEntityKeySettings) && modelValue == old(modelValue)
      ensures hasPropagate == old(hasPropagate) && propagated == old(propagated)
    {
      objects, deletedDevices := d.objects, d.deleted;
    }

    /** `removeObject(index)`, for an index of a listed object. */
    method RemoveObject(index: nat)
      requires index < |objects|
      modifies this
      ensures State() == RemoveAt(old(State()), index)
      ensures aliasSettings == old(aliasSettings) && useAttribute == old(useAttribute) && keySettings == old(keySettings)
      ensures keyEnabled == old(keyEnabled) && tooltip == old(tooltip)
      ensures entityAttribute == old(entityAttribute) && entityAlias == old(entityAlias)
      ensures lastEntityKeySettings == old(lastEntityKeySettings) && modelValue == old(modelValue)
      ensures hasPropagate == old(hasPropagate) && propagated == old(propagated)
    {
      deletedDevices := deletedDevices + [objects[index].entity];
      objects := objects[..index] + objects[index + 1..];
    }

    /**
     * `loadEntities`, with `aliasId` the alias controller's id for the
     * selected alias and `resolved` the entities it resolves to: an unknown
     * alias clears the objects and the public alias; otherwise every
     * resolved entity is added.
     */
    method LoadEntities(aliasId: Option<string>, resolved: seq<EntityInfo>)
      modifies this
      ensures aliasId.None? ==> objects == [] && deletedDevices == old(deletedDevices) && entityAlias.None?
      ensures aliasId.Some? ==> State() == AddAll(old(State()), resolved) && entityAlias == aliasSettings.entityAlias
      ensures aliasSettings == old(aliasSettings) && useAttribute == old(useAttribute) && keySettings == old(keySettings)
      ensures keyEnabled == old(keyEnabled) && tooltip == old(tooltip)
      ensures entityAttribute == old(entityAttribute)
      ensures lastEntityKeySettings == old(lastEntityKeySettings) && modelValue == old(modelValue)
      ensures hasPropagate == old(hasPropagate) && propagated == old(propagated)
    {
      if aliasId.None? {
        objects := [];
        entityAlias := None;
        return;
      }
      entityAlias := aliasSettings.entityAlias;
      for k := 0 to |resolved|
        invariant State() == AddAll(old(State()), resolved[..k])
        invariant aliasSettings == old(aliasSettings) && useAttribute == old(useAttribute) && keySettings == old(keySettings)
        invariant keyEnabled == old(keyEnabled) && tooltip == old(tooltip)
        invariant entityAttribute == old(entityAttribute) && entityAlias == aliasSettings.entityAlias
        invariant lastEntityKeySettings == old(lastEntityKeySettings) && modelValue == old(modelValue)
        invariant hasPropagate == old(hasPropagate) && propagated == old(propagated)
      {
        assert resolved[..k + 1][..k] == resolved[..k];
        AddObjectIfNotExists(resolved[k]);
      }
      assert resolved[..|resolved|] == resolved;
    }

    /**
     * `updateValidators`: with the switch on, the key control is enabled and
     * refilled with the last remembered attribute (or ""), which both public
     * fields then follow; with it off, the current key settings are
     * remembered, the key is disabled and emptied, and both public fields are
     * null.
     */
    method UpdateValidators()
      modifies this
      ensures useAttribute ==> keyEnabled && keySettings == KeySettings(Some(RestoredAttribute(lastEntityKeySettings)))
      ensures useAttribute ==> entityAttribute == keySettings.entityAttribute && entityAlias == aliasSettings.entityAlias
      ensures useAttribute ==> lastEntityKeySettings == old(lastEntityKeySettings)
      ensures !useAttribute ==> !keyEnabled && keySettings == KeySettings(None) && entityAttribute.None? && entityAlias.None?
      ensures !useAttribute ==> lastEntityKeySettings == (if old(modelValue).Some? then Some(old(modelValue).value.keySettings) else None)
      ensures useAttribute == old(useAttribute) && aliasSettings == old(aliasSettings) && tooltip == old(tooltip)
      ensures State() == old(State()) && modelValue == old(modelValue)
      ensures hasPropagate == old(hasPropagate) && propagated == old(propagated)
    {
      if useAttribute {
        keyEnabled := true;
        keySettings := KeySettings(Some(RestoredAttribute(lastEntityKeySettings)));
        entityAttribute := keySettings.entityAttribute;
        entityAlias := aliasSettings.entityAlias;
      } else {
        lastEntityKeySettings := if modelValue.Some? then Some(modelValue.value.keySettings) else None;
        keyEnabled := false;
        keySettings := KeySettings(None);
        entityAttribute := None;
        entityAlias := None;
      }
    }

    /** The key control's change listener: the public attribute follows it while the switch is on. */
    method OnKeySettingsChanged(value: KeySettings)
      modifies this
      ensures keySettings == value
      ensures useAttribute ==> entityAttribute == Some(if TruthyStr(value.entityAttribute) then value.entityAttribute.value else "")
      ensures !useAttribute ==> entityAttribute.None?
      ensures useAttribute == old(useAttribute) && aliasSettings == old(aliasSettings) && keyEnabled == old(keyEnabled)
      ensures tooltip == old(tooltip) && entityAlias == old(entityAlias) && lastEntityKeySettings == old(lastEntityKeySettings)
      ensures State() == old(State()) && modelValue == old(modelValue)
      ensures hasPropagate == old(hasPropagate) && propagated == old(propagated)
    {
      keySettings := value;
      entityAttribute := if useAttribute then Some(if TruthyStr(value.entityAttribute) then value.entityAttribute.value else "") else None;
    }

    /**
     * `updateModel`, with `formValid` the form's validity: the form value
     * becomes the model value and, once a change callback is registered, is
     * handed on while the form is valid and null otherwise.
     */
    method UpdateModel(formValid: bool)
      modifies this
      ensures modelValue == Some(Form())
      ensures !hasPropagate ==> propagated == old(propagated)
      ensures hasPropagate && formValid ==> propagated == old(propagated) + [Some(Form())]
      ensures hasPropagate && !formValid ==> propagated == old(propagated) + [None]
      ensures Form() == old(Form()) && State() == old(State()) && hasPropagate == old(hasPropagate)
      ensures entityAttribute == old(entityAttribute) && entityAlias == old(entityAlias)
      ensures lastEntityKeySettings == old(lastEntityKeySettings)
    {
      modelValue := Some(Form());
      if !hasPropagate {
        return;
      }
      if formValid {
        propagated := propagated + [modelValue];
      } else {
        propagated := propagated + [None];
      }
    }

    /**
     * `writeValue`: the controls take the new value (a missing object list
     * gives none), its key settings are remembered, and the validators are
     * updated for its switch.
     */
    method WriteValue(value: DeviceGroupSettings)
      modifies this
      ensures modelValue == Some(value)
      ensures aliasSettings == value.aliasSettings && useAttribute == value.useAttribute && tooltip == value.tooltip
      ensures objects == (if value.objects.Some? then value.objects.value else [])
      ensures deletedDevices == old(deletedDevices)
      ensures value.useAttribute ==> keyEnabled && keySettings == KeySettings(Some(RestoredAttribute(Some(value.keySettings))))
      ensures value.useAttribute ==> entityAttribute == keySettings.entityAttribute && entityAlias == value.aliasSettings.entityAlias
      ensures !value.useAttribute ==> !keyEnabled && keySettings == KeySettings(None) && entityAttribute.None? && entityAlias.None?
      ensures lastEntityKeySettings == Some(value.keySettings)
      ensures hasPropagate == old(hasPropagate) && propagated == old(propagated)
    {
      modelValue := Some(value);
      aliasSettings, useAttribute, keySettings, tooltip := value.aliasSettings, value.useAttribute, value.keySettings, value.tooltip;
      objects := if value.objects.Some? then value.objects.value else [];
      lastEntityKeySettings := Some(value.keySettings);
      UpdateValidators();
    }
  }
}
