/**
 * `ThreedModelLoaderService`: turns environment and device-group settings into
 * "entity loaders" (where a model's URL comes from) and decides when two
 * loaders denote the same model, so that unchanged models are not reloaded.
 */
module ModelLoader {
  import opened Wrappers
  import opened JsValues
  import opened ThreedModels

  /** The messages of the errors thrown below. */
  const UndefinedEntityId: string := "TypeError: Cannot read properties of undefined (reading 'id')"

  /**
   * A loader either names the model URL directly or names an alias and the
   * server attribute holding the URL. `entity` is optional in both.
   */
  datatype EntityLoader =
    | ModelUrl(url: string, entity: Option<EntityInfo>)
    | AliasAttribute(entityAlias: string, entityAttribute: string, entity: Option<EntityInfo>)

  /** Entity id of an optional entity, the value of `entity?.id`. */
  function EntityIdOf(e: Option<EntityInfo>): Option<string>
  {
    if e.Some? then Some(e.value.id) else None
  }

  /**
   * `areLoaderEqual` as written: the alias branch reads `entity.id` on both
   * loaders once alias and attribute match, which throws a TypeError when
   * either loader carries no entity (every loader `toEntityLoader` builds from
   * an alias has none).
   */
  function AreLoaderEqualAsWritten(l1: Option<EntityLoader>, l2: Option<EntityLoader>): (r: Result<bool>)
    ensures (l1.None? || l2.None?) ==> r == Success(false)
    ensures l1.Some? && l2.Some? && l1.value.ModelUrl? && l2.value.ModelUrl? ==>
              r == Success(l1.value.url == l2.value.url)
    ensures l1.Some? && l2.Some? && l1.value.ModelUrl? != l2.value.ModelUrl? ==> r == Success(false)
    ensures r.Failure? <==>
              (l1.Some? && l2.Some? && l1.value.AliasAttribute? && l2.value.AliasAttribute? &&
               l1.value.entityAlias == l2.value.entityAlias &&
               l1.value.entityAttribute == l2.value.entityAttribute &&
               (l1.value.entity.None? || l2.value.entity.None?))
  {
    if l1.None? || l2.None? then Success(false)
    else
      match (l1.value, l2.value)
      case (ModelUrl(u1, _), ModelUrl(u2, _)) => Success(u1 == u2)
      case (AliasAttribute(a1, t1, e1), AliasAttribute(a2, t2, e2)) =>
        if !(a1 == a2 && t1 == t2) then Success(false)
        else if e1.None? || e2.None? then Failure(UndefinedEntityId)
        else Success(e1.value.id == e2.value.id)
      case _ => Success(false)
  }

  /**
   * `areLoaderEqual` with the entity ids compared as `entity?.id`, so that two
   * alias loaders without an entity compare by alias and attribute alone.
   */
  function AreLoaderEqual(l1: Option<EntityLoader>, l2: Option<EntityLoader>): bool
  {
    if l1.None? || l2.None? then false
    else
      match (l1.value, l2.value)
      case (ModelUrl(u1, _), ModelUrl(u2, _)) => u1 == u2
      case (AliasAttribute(a1, t1, e1), AliasAttribute(a2, t2, e2)) =>
        a1 == a2 && t1 == t2 && EntityIdOf(e1) == EntityIdOf(e2)
      case _ => false
  }

  /**
   * Missing loaders are never equal; URL loaders are equal exactly when their
   * urls match; alias loaders when alias, attribute and entity id match; the
   * two kinds never equal each other; the relation is symmetric and every
   * present loader equals itself. Wherever the code as written does not throw,
   * it agrees with this definition.
   */
  lemma AreLoaderEqualProperties(l1: Option<EntityLoader>, l2: Option<EntityLoader>)
    ensures (l1.None? || l2.None?) ==> !AreLoaderEqual(l1, l2)
    ensures l1.Some? && l2.Some? && l1.value.ModelUrl? && l2.value.ModelUrl? ==>
              (AreLoaderEqual(l1, l2) <==> l1.value.url == l2.value.url)
    ensures l1.Some? && l2.Some? && l1.value.AliasAttribute? && l2.value.AliasAttribute? ==>
              (AreLoaderEqual(l1, l2) <==>
                 l1.value.entityAlias == l2.value.entityAlias &&
                 l1.value.entityAttribute == l2.value.entityAttribute &&
                 EntityIdOf(l1.value.entity) == EntityIdOf(l2.value.entity))
    ensures l1.Some? && l2.Some? && l1.value.ModelUrl? != l2.value.ModelUrl? ==> !AreLoaderEqual(l1, l2)
    ensures AreLoaderEqual(l1, l2) == AreLoaderEqual(l2, l1)
    ensures l1.Some? ==> AreLoaderEqual(l1, l1)
    ensures AreLoaderEqualAsWritten(l1, l2).Success? ==>
              AreLoaderEqualAsWritten(l1, l2).value == AreLoaderEqual(l1, l2)
  {
  }

  /**
   * Editing only the position, rotation or scale of the environment object
   * (or anything else that does not reach the loader) leaves an equal loader,
   * so the scene settings do not reload the environment model.
   */
  lemma TransformEditKeepsEnvironmentLoader(e: EnvironmentSettings, position: Vector3, rotation: Vector3, scale: Vector3)
    requires ToEntityLoader(e).Some?
    ensures var e' := if e.objectSettings.Some?
                      then e.(objectSettings := Some(e.objectSettings.value.(position := position, rotation := rotation, scale := scale)))
                      else e;
            AreLoaderEqual(ToEntityLoader(e), ToEntityLoader(e'))
  {
    var e' := if e.objectSettings.Some?
              then e.(objectSettings := Some(e.objectSettings.value.(position := position, rotation := rotation, scale := scale)))
              else e;
    assert ToEntityLoader(e') == ToEntityLoader(e);
    AreLoaderEqualProperties(ToEntityLoader(e), ToEntityLoader(e));
  }

  /**
   * The code as written throws when it compares an alias-based environment
   * loader with itself: the alias "A" / attribute "url" environment, sent
   * twice, makes the second comparison read `undefined.id`.
   */
  lemma AliasEnvironmentComparisonThrows()
    ensures var e := EnvironmentSettings(AliasSettings(Some("A")), KeySettings(Some("url")), true, None);
            ToEntityLoader(e) == Some(AliasAttribute("A", "url", None)) &&
            AreLoaderEqualAsWritten(ToEntityLoader(e), ToEntityLoader(e)).Failure? &&
            AreLoaderEqual(ToEntityLoader(e), ToEntityLoader(e))
  {
  }

  /** `isConfigValid`: the config, its alias controller and its loader are all present. */
  datatype LoaderConfig = LoaderConfig(entityLoader: Option<EntityLoader>, hasAliasController: bool)

  predicate IsConfigValid(config: Option<LoaderConfig>): (r: bool)
    ensures r ==> config.Some? && config.value.entityLoader.Some?
    ensures config.Some? && !config.value.hasAliasController ==> !r
    ensures config.Some? && config.value.hasAliasController && config.value.entityLoader.Some? ==> r
  {
    config.Some? && config.value.hasAliasController && config.value.entityLoader.Some?
  }

  /**
   * `toEntityLoader`: an environment with `useAlias` off and a non-empty model
   * URL loads that URL for the object's entity; with `useAlias` on and both
   * alias and attribute non-empty it loads through the alias (no entity);
   * anything else yields no loader.
   */
  function ToEntityLoader(settings: EnvironmentSettings): (r: Option<EntityLoader>)
    ensures (r.Some? && r.value.ModelUrl?) <==>
              (!settings.useAlias && settings.objectSettings.Some? && settings.objectSettings.value.modelUrl != "")
    ensures (r.Some? && r.value.AliasAttribute?) <==>
              (settings.useAlias && TruthyStr(settings.aliasSettings.entityAlias) &&
               TruthyStr(settings.keySettings.entityAttribute))
    ensures r.Some? && r.value.ModelUrl? ==>
              r.value.url == settings.objectSettings.value.modelUrl &&
              r.value.entity == Some(settings.objectSettings.value.entity)
    ensures r.Some? && r.value.AliasAttribute? ==>
              r.value.entityAlias == settings.aliasSettings.entityAlias.value &&
              r.value.entityAttribute == settings.keySettings.entityAttribute.value &&
              r.value.entity.None?
  {
    if !settings.useAlias && settings.objectSettings.Some? && settings.objectSettings.value.modelUrl != "" then
      Some(ModelUrl(settings.objectSettings.value.modelUrl, Some(settings.objectSettings.value.entity)))
    else if settings.useAlias && TruthyStr(settings.aliasSettings.entityAlias) && TruthyStr(settings.keySettings.entityAttribute) then
      Some(AliasAttribute(settings.aliasSettings.entityAlias.value, settings.keySettings.entityAttribute.value, None))
    else
      None
  }

  /** The loader `toEntityLoaders` builds for one object of a group. */
  function ObjectLoader(group: DeviceGroupSettings, obj: ObjectSettings): EntityLoader
    requires TruthyStr(group.aliasSettings.entityAlias)
    requires group.useAttribute ==> TruthyStr(group.keySettings.entityAttribute)
  {
    if group.useAttribute then
      AliasAttribute(group.aliasSettings.entityAlias.value, group.keySettings.entityAttribute.value, Some(obj.entity))
    else
      ModelUrl(obj.modelUrl, Some(obj.entity))
  }

  /** Whether `toEntityLoaders` returns a list at all. */
  predicate HasEntityLoaders(group: DeviceGroupSettings)
  {
    TruthyStr(group.aliasSettings.entityAlias) &&
    (if group.useAttribute then TruthyStr(group.keySettings.entityAttribute) else group.objects.Some?)
  }

  /**
   * The list `toEntityLoaders` returns, as a value: one loader per object, in
   * object order, when the group has one at all.
   */
  function EntityLoaders(group: DeviceGroupSettings): (r: Option<seq<EntityLoader>>)
    // The settings type declares the object list and the group form always builds it; without it the source throws.
    requires group.useAttribute && TruthyStr(group.keySettings.entityAttribute) ==> group.objects.Some?
    ensures r.Some? <==> HasEntityLoaders(group)
    ensures r.Some? ==> |r.value| == |group.objects.value| &&
                        forall i :: 0 <= i < |r.value| ==> r.value[i].entity == Some(group.objects.value[i].entity)
  {
    if HasEntityLoaders(group) then
      Some(seq(|group.objects.value|, i requires 0 <= i < |group.objects.value| => ObjectLoader(group, group.objects.value[i])))
    else None
  }

  /**
   * `toEntityLoaders`: no list without an alias, nor with `useAttribute` set
   * and an empty attribute; otherwise one loader per object, in object order.
   * With `useAttribute` set the code iterates the object list unguarded, so a
   * list is required there.
   */
  method ToEntityLoaders(group: DeviceGroupSettings) returns (r: Option<seq<EntityLoader>>)
    // The settings type declares the object list and the group form always builds it; without it the source throws.
    requires group.useAttribute && TruthyStr(group.keySettings.entityAttribute) ==> group.objects.Some?
    ensures r.Some? <==> HasEntityLoaders(group)
    ensures r.Some? ==> |r.value| == |group.objects.value|
    ensures r.Some? ==> forall i :: 0 <= i < |r.value| ==> r.value[i] == ObjectLoader(group, group.objects.value[i])
    ensures r == EntityLoaders(group)
  {
    if !TruthyStr(group.aliasSettings.entityAlias) {
      return None;
    }
    if group.useAttribute && TruthyStr(group.keySettings.entityAttribute) {
      var objects := group.objects.value;
      var loaders: seq<EntityLoader> := [];
      var i := 0;
      while i < |objects|
        invariant 0 <= i <= |objects|
        invariant |loaders| == i
        invariant forall k :: 0 <= k < i ==> loaders[k] == ObjectLoader(group, objects[k])
      {
        loaders := loaders + [AliasAttribute(group.aliasSettings.entityAlias.value,
                                             group.keySettings.entityAttribute.value, Some(objects[i].entity))];
        i := i + 1;
      }
      assert loaders == EntityLoaders(group).value;
      return Some(loaders);
    } else if !group.useAttribute && group.objects.Some? {
      var objects := group.objects.value;
      var loaders: seq<EntityLoader> := [];
      var i := 0;
      while i < |objects|
        invariant 0 <= i <= |objects|
        invariant |loaders| == i
        invariant forall k :: 0 <= k < i ==> loaders[k] == ObjectLoader(group, objects[k])
      {
        loaders := loaders + [ModelUrl(objects[i].modelUrl, Some(objects[i].entity))];
        i := i + 1;
      }
      assert loaders == EntityLoaders(group).value;
      return Some(loaders);
    }
    return None;
  }

  /** Where `loadModelAsUrl` gets the model from. */
  datatype UrlSource =
    | Immediate(entityId: Option<string>, base64: string)           // `of({ entityId, base64 })`
    | EntityAttribute(entityType: string, id: string, attribute: string)
    | AliasThenAttribute(entityAlias: string, attribute: string)  // resolve the alias first

  const DefaultModelPath: string := "/assets/models/gltf/default.glb"

  /**
   * Branch selection of `loadModelAsUrl`. `randomId` stands for
   * `Math.random().toString()`. An invalid config yields the default model;
   * a URL loader passes its entity id and url through; an alias loader reads
   * the attribute of its entity, or of the entity its alias resolves to.
   */
  function LoadModelAsUrl(config: Option<LoaderConfig>, randomId: string): (r: UrlSource)
    ensures !IsConfigValid(config) ==> r == Immediate(Some(randomId), DefaultModelPath)
    ensures IsConfigValid(config) && config.value.entityLoader.value.ModelUrl? ==>
              r == Immediate(EntityIdOf(config.value.entityLoader.value.entity), config.value.entityLoader.value.url)
    ensures IsConfigValid(config) && config.value.entityLoader.value.AliasAttribute? ==>
              (r.EntityAttribute? <==> config.value.entityLoader.value.entity.Some?) &&
              (r.EntityAttribute? ==> r.id == config.value.entityLoader.value.entity.value.id &&
                                      r.attribute == config.value.entityLoader.value.entityAttribute) &&
              (r.AliasThenAttribute? ==> r.entityAlias == config.value.entityLoader.value.entityAlias)
  {
    if !IsConfigValid(config) then Immediate(Some(randomId), DefaultModelPath)
    else
      match config.value.entityLoader.value
      case ModelUrl(url, entity) => Immediate(EntityIdOf(entity), url)
      case AliasAttribute(alias, attribute, entity) =>
        if entity.Some? then EntityAttribute(entity.value.entityType, entity.value.id, attribute)
        else AliasThenAttribute(alias, attribute)
  }

  /**
   * The attribute lookup's completion: no values is an error, otherwise the
   * first value is the URL and the entity id falls back to "".
   */
  function AttributeToUrl(entityId: Option<string>, values: seq<string>): (r: Result<(string, string)>)
    ensures r.Failure? <==> |values| == 0
    ensures r.Success? ==> r.value.1 == values[0] && (entityId.Some? ==> r.value.0 == entityId.value)
    ensures r.Success? && entityId.None? ==> r.value.0 == ""
  {
    if |values| == 0 then Failure("Invalid attribute")
    else Success((if entityId.Some? then entityId.value else "", values[0]))
  }
}
