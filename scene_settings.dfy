/**
 * `ThreedSceneSettingsComponent`: the editor form for a scene's settings.
 * It remembers, per model id, the entity loader it last loaded from
 * (`lastEntityLoaders`), reloads a model only when its loader changed, and
 * asks the scene editor to remove the device models that new device settings
 * no longer mention. The asynchronous load (`loadModelAsGLTF` followed by
 * `replaceModel`) and the removal are recorded as requests to the editor.
 */
module SceneSettingsComponent {
  import opened Wrappers
  import opened JsValues
  import opened ThreedModels
  import opened ModelLoader
  import opened SceneGraph
  import ModelManager

  datatype ControllerType = FirstPersonController | OrbitController | VrController

  /** `hasCamera`: every controller but the orbit one has a camera to configure. */
  predicate HasCamera(controller: ControllerType)
  {
    controller != OrbitController
  }

  /** The controls `ngOnInit` puts in the form. */
  function ControlNames(controller: ControllerType): (r: set<string>)
    ensures "threedCameraSettings" in r <==> HasCamera(controller)
    ensures "threedEnvironmentSettings" in r && "threedDevicesSettings" in r
    ensures forall name :: name in r ==> name in {"threedEnvironmentSettings", "threedCameraSettings", "threedDevicesSettings"}
  {
    if HasCamera(controller) then {"threedEnvironmentSettings", "threedCameraSettings", "threedDevicesSettings"}
    else {"threedEnvironmentSettings", "threedDevicesSettings"}
  }

  // ---- loadModel -------------------------------------------------------------

  /** The IoT record `loadModel` stores in a device model's `userData`. */
  datatype IotDevice = Pir(name: string, isOccupied: bool) | Gateway(name: string) | UnknownDevice(name: string)

  /**
   * The IoT record of a loaded model: only an alias-based loader of a
   * `DEVICE` entity gets one; the alias decides between a PIR sensor (not
   * occupied), a gateway and an unknown device. `pirAlias` and
   * `gatewayAlias` stand for the alias names `PIR_SENSORS` and `GATEWAY`.
   */
  function DeviceDataFor(loader: EntityLoader, pirAlias: string, gatewayAlias: string): (r: Option<IotDevice>)
    ensures r.Some? <==> loader.AliasAttribute? && loader.entity.Some? && loader.entity.value.entityType == "DEVICE"
    ensures r.Some? ==> r.value.name == loader.entity.value.name
    ensures r.Some? ==> (r.value.Pir? <==> loader.entityAlias == pirAlias)
    ensures r.Some? && r.value.Pir? ==> !r.value.isOccupied
    ensures r.Some? ==> (r.value.Gateway? <==> loader.entityAlias != pirAlias && loader.entityAlias == gatewayAlias)
  {
    if loader.AliasAttribute? && loader.entity.Some? && loader.entity.value.entityType == "DEVICE" then
      var name := loader.entity.value.name;
      if loader.entityAlias == pirAlias then Some(Pir(name, false))
      else if loader.entityAlias == gatewayAlias then Some(Gateway(name))
      else Some(UnknownDevice(name))
    else None
  }

  /** What the component asks of the scene editor. */
  datatype SceneRequest =
    | LoadRequest(loader: EntityLoader, id: Option<string>)  // `loadModel(config, id)` with a loader
    | RemoveRequest(modelId: string)                         // `modelManager.removeModel(id)`

  /**
   * The models in the editor's scene, by id, after it carries out
   * `requests`: a load replaces the model under `id || entityId`, a removal
   * drops it. Every loader built from device settings carries its entity.
   */
  function Applied(scene: map<string, EntityLoader>, requests: seq<SceneRequest>): map<string, EntityLoader>
  {
    if requests == [] then scene
    else
      var prior := Applied(scene, requests[..|requests| - 1]);
      match requests[|requests| - 1]
      case LoadRequest(l, id) =>
        if TruthyStr(id) then prior[id.value := l]
        else if l.entity.Some? then prior[l.entity.value.id := l]
        else prior
      case RemoveRequest(id) => prior - {id}
  }

  // ---- lastEntityLoaders -----------------------------------------------------

  predicate Distinct(s: seq<string>)
  {
    forall i, j :: 0 <= i < j < |s| ==> s[i] != s[j]
  }

  /** `lastEntityLoaders`: a JS `Map` from model id to the last loader, with its key order. */
  datatype Tracker = Tracker(records: map<string, Option<EntityLoader>>, order: seq<string>)

  ghost predicate TrackerInv(t: Tracker)
  {
    Distinct(t.order) && forall id :: id in t.records <==> id in t.order
  }

  /** `lastEntityLoaders.get(id)`. */
  function Recorded(t: Tracker, id: string): Option<EntityLoader>
  {
    if id in t.records then t.records[id] else None
  }

  /** `lastEntityLoaders.set(id, l)`: a new key goes last, an existing key keeps its place. */
  function Record(t: Tracker, id: string, l: Option<EntityLoader>): (r: Tracker)
    ensures r.records == t.records[id := l]
    ensures Recorded(r, id) == l && forall other :: other != id ==> Recorded(r, other) == Recorded(t, other)
    ensures TrackerInv(t) ==> TrackerInv(r)
  {
    Tracker(t.records[id := l], if id in t.records then t.order else t.order + [id])
  }

  /** `lastEntityLoaders.delete(id)`. */
  function Forget(t: Tracker, id: string): (r: Tracker)
    requires TrackerInv(t)
    ensures TrackerInv(r)
    ensures r.records == t.records - {id}
  {
    ModelManager.RemoveFirstKeepsDistinct(t.order, id);
    Tracker(t.records - {id}, RemoveFirst(t.order, id))
  }

  function ForgetAll(t: Tracker, ids: seq<string>): (r: Tracker)
    requires TrackerInv(t)
    ensures TrackerInv(r)
    ensures r.records == t.records - set id | id in ids
  {
    if ids == [] then t
    else
      var prior := ForgetAll(t, ids[..|ids| - 1]);
      assert forall id :: id in ids <==> id in ids[..|ids| - 1] || id == ids[|ids| - 1] by {
        assert ids == ids[..|ids| - 1] + [ids[|ids| - 1]];
      }
      Forget(prior, ids[|ids| - 1])
  }

  /** The tracked ids other than the environment's, in key order. */
  function DeviceKeys(order: seq<string>): (r: seq<string>)
    ensures forall x :: x in r <==> x in order && x != EnvironmentId
    ensures Distinct(order) ==> Distinct(r)
  {
    if order == [] then []
    else
      var init := order[..|order| - 1];
      var last := order[|order| - 1];
      assert order == init + [last];
      var prior := DeviceKeys(init);
      assert Distinct(order) ==> Distinct(init) && last !in init;
      if last == EnvironmentId then prior else prior + [last]
  }

  // ---- updateSceneModels, device settings --------------------------------------

  /** Every loader built from device settings names its entity. */
  predicate HasEntities(loaders: seq<EntityLoader>)
  {
    forall i :: 0 <= i < |loaders| ==> loaders[i].entity.Some?
  }

  /** Some loader loads the entity `id`. */
  predicate Mentions(loaders: seq<EntityLoader>, id: string)
  {
    exists i :: 0 <= i < |loaders| && loaders[i].entity.Some? && loaders[i].entity.value.id == id
  }

  /** No two loaders load the same entity. */
  predicate DistinctEntities(loaders: seq<EntityLoader>)
    requires HasEntities(loaders)
  {
    forall i, j :: 0 <= i < j < |loaders| ==> loaders[i].entity.value.id != loaders[j].entity.value.id
  }

  /** The loop state of the device branch: the tracker, the ids still to delete, the requests so far. */
  datatype Pass = Pass(tracker: Tracker, pending: seq<string>, requests: seq<SceneRequest>)

  /**
   * One loader: it is recorded and loaded unless it equals the loader
   * recorded for its entity, and its entity is struck off the ids to delete.
   */
  function LoaderStep(p: Pass, l: EntityLoader): Pass
    requires l.entity.Some?
  {
    var id := l.entity.value.id;
    var loaded := if AreLoaderEqual(Recorded(p.tracker, id), Some(l)) then p
                  else p.(tracker := Record(p.tracker, id, Some(l)), requests := p.requests + [LoadRequest(l, None)]);
    loaded.(pending := RemoveFirst(loaded.pending, id))
  }

  function LoaderPass(p: Pass, loaders: seq<EntityLoader>): Pass
    requires HasEntities(loaders)
  {
    if loaders == [] then p
    else LoaderStep(LoaderPass(p, loaders[..|loaders| - 1]), loaders[|loaders| - 1])
  }

  lemma {:induction false} LoaderPassAppend(p: Pass, a: seq<EntityLoader>, b: seq<EntityLoader>)
    requires HasEntities(a) && HasEntities(b)
    ensures HasEntities(a + b)
    ensures LoaderPass(p, a + b) == LoaderPass(LoaderPass(p, a), b)
    decreases |b|
  {
    if b != [] {
      assert (a + b)[..|a + b| - 1] == a + b[..|b| - 1];
      LoaderPassAppend(p, a, b[..|b| - 1]);
    } else {
      assert a + b == a;
    }
  }

  /** The requests of the device branch that remove models. */
  function Removals(ids: seq<string>): (r: seq<SceneRequest>)
    ensures |r| == |ids| && forall k :: 0 <= k < |ids| ==> r[k] == RemoveRequest(ids[k])
  {
    seq(|ids|, k requires 0 <= k < |ids| => RemoveRequest(ids[k]))
  }

  /** The tracker and the requests after an update. */
  datatype Outcome = Outcome(tracker: Tracker, requests: seq<SceneRequest>)

  function StartPass(t: Tracker): Pass
  {
    Pass(t, DeviceKeys(t.order), [])
  }

  /**
   * The device branch as written: the records of removed models stay in
   * `lastEntityLoaders`.
   */
  function ReconcileDevicesAsWritten(t: Tracker, loaders: seq<EntityLoader>): (r: Outcome)
    requires TrackerInv(t)
    requires HasEntities(loaders)
    ensures TrackerInv(r.tracker)
    ensures forall id :: id in r.tracker.records <==> id in t.records || Mentions(loaders, id)
  {
    LoaderPassTracker(StartPass(t), loaders);
    var p := LoaderPass(StartPass(t), loaders);
    Outcome(p.tracker, p.requests + Removals(p.pending))
  }

  /** The device branch with the record of each removed model deleted along with the model. */
  function ReconcileDevices(t: Tracker, loaders: seq<EntityLoader>): (r: Outcome)
    requires TrackerInv(t)
    requires HasEntities(loaders)
    ensures TrackerInv(r.tracker)
  {
    LoaderPassTracker(StartPass(t), loaders);
    var p := LoaderPass(StartPass(t), loaders);
    Outcome(ForgetAll(p.tracker, p.pending), p.requests + Removals(p.pending))
  }

  /** Appending one loader adds its entity to the mentioned ones. */
  lemma MentionsSnoc(init: seq<EntityLoader>, l: EntityLoader)
    requires l.entity.Some?
    ensures forall x :: Mentions(init + [l], x) <==> Mentions(init, x) || x == l.entity.value.id
  {
    var all := init + [l];
    forall x
      ensures Mentions(all, x) <==> Mentions(init, x) || x == l.entity.value.id
    {
      if Mentions(init, x) {
        var i :| 0 <= i < |init| && init[i].entity.Some? && init[i].entity.value.id == x;
        assert all[i] == init[i];
      }
      if Mentions(all, x) && x != l.entity.value.id {
        var i :| 0 <= i < |all| && all[i].entity.Some? && all[i].entity.value.id == x;
        assert i < |init| && init[i] == all[i];
      }
      if x == l.entity.value.id {
        assert all[|init|] == l;
      }
    }
  }

  /**
   * One loader leaves its entity recorded and every other record as it
   * was, strikes the entity off the ids to delete, and requests at most the
   * load of that loader.
   */
  lemma LoaderStepFacts(p: Pass, l: EntityLoader)
    requires l.entity.Some?
    ensures var q := LoaderStep(p, l);
            var id := l.entity.value.id;
            (TrackerInv(p.tracker) ==> TrackerInv(q.tracker)) &&
            (forall x :: x in q.tracker.records <==> x in p.tracker.records || x == id) &&
            Recorded(q.tracker, id).Some? &&
            (forall x :: x != id ==> Recorded(q.tracker, x) == Recorded(p.tracker, x)) &&
            q.pending == RemoveFirst(p.pending, id) &&
            (q.requests == p.requests || q.requests == p.requests + [LoadRequest(l, None)])
  {
    var id := l.entity.value.id;
    if AreLoaderEqual(Recorded(p.tracker, id), Some(l)) {
      assert Recorded(p.tracker, id).Some?;
    }
  }

  /**
   * Through the loaders the tracker stays well formed, a mentioned entity
   * ends up recorded, and no other record is added or changed.
   */
  lemma {:induction false} LoaderPassTracker(p: Pass, loaders: seq<EntityLoader>)
    requires TrackerInv(p.tracker)
    requires HasEntities(loaders)
    ensures var q := LoaderPass(p, loaders);
            TrackerInv(q.tracker) &&
            (forall id :: id in q.tracker.records <==> id in p.tracker.records || Mentions(loaders, id)) &&
            (forall id :: Mentions(loaders, id) ==> Recorded(q.tracker, id).Some?) &&
            (forall id :: !Mentions(loaders, id) ==> Recorded(q.tracker, id) == Recorded(p.tracker, id))
    decreases |loaders|
  {
    if loaders != [] {
      var init := loaders[..|loaders| - 1];
      var l := loaders[|loaders| - 1];
      assert loaders == init + [l];
      LoaderPassTracker(p, init);
      LoaderStepFacts(LoaderPass(p, init), l);
      MentionsSnoc(init, l);
    }
  }

  /** An id leaves the ids to delete exactly when a loader mentions it. */
  lemma {:induction false} LoaderPassPending(p: Pass, loaders: seq<EntityLoader>)
    requires Distinct(p.pending)
    requires HasEntities(loaders)
    ensures var q := LoaderPass(p, loaders);
            Distinct(q.pending) && forall x :: x in q.pending <==> x in p.pending && !Mentions(loaders, x)
    decreases |loaders|
  {
    if loaders != [] {
      var init := loaders[..|loaders| - 1];
      var l := loaders[|loaders| - 1];
      assert loaders == init + [l];
      LoaderPassPending(p, init);
      var m := LoaderPass(p, init);
      LoaderStepFacts(m, l);
      ModelManager.RemoveFirstKeepsDistinct(m.pending, l.entity.value.id);
      MentionsSnoc(init, l);
    }
  }

  /** The loaders only append requests, each the load, without an id, of one of them. */
  lemma {:induction false} LoaderPassRequests(p: Pass, loaders: seq<EntityLoader>)
    requires HasEntities(loaders)
    ensures var q := LoaderPass(p, loaders);
            |p.requests| <= |q.requests| && q.requests[..|p.requests|] == p.requests &&
            forall k :: |p.requests| <= k < |q.requests| ==>
              q.requests[k].LoadRequest? && q.requests[k].id.None? && q.requests[k].loader in loaders
    decreases |loaders|
  {
    if loaders != [] {
      var init := loaders[..|loaders| - 1];
      var l := loaders[|loaders| - 1];
      assert loaders == init + [l];
      LoaderPassRequests(p, init);
      var m := LoaderPass(p, init);
      LoaderStepFacts(m, l);
      assert forall e :: e in init ==> e in loaders;
    }
  }

  /**
   * With distinct entities, each loader's entity ends up recorded with a
   * loader equal to it: either the one already there or the loader itself.
   */
  lemma {:induction false} LoaderPassRecords(p: Pass, loaders: seq<EntityLoader>)
    requires HasEntities(loaders) && DistinctEntities(loaders)
    ensures forall i :: 0 <= i < |loaders| ==>
              AreLoaderEqual(Recorded(LoaderPass(p, loaders).tracker, loaders[i].entity.value.id), Some(loaders[i]))
    decreases |loaders|
  {
    if loaders != [] {
      var init := loaders[..|loaders| - 1];
      var l := loaders[|loaders| - 1];
      var id := l.entity.value.id;
      assert DistinctEntities(init) by {
        forall i, j | 0 <= i < j < |init|
          ensures init[i].entity.value.id != init[j].entity.value.id
        {
          assert init[i] == loaders[i] && init[j] == loaders[j];
        }
      }
      LoaderPassRecords(p, init);
      var m := LoaderPass(p, init);
      var q := LoaderStep(m, l);
      assert LoaderPass(p, loaders) == q;
      LoaderStepFacts(m, l);
      AreLoaderEqualProperties(Some(l), Some(l));
      assert AreLoaderEqual(Recorded(q.tracker, id), Some(l)) by {
        if !AreLoaderEqual(Recorded(m.tracker, id), Some(l)) {
          assert q.tracker == Record(m.tracker, id, Some(l));
        }
      }
      forall i | 0 <= i < |init|
        ensures AreLoaderEqual(Recorded(q.tracker, loaders[i].entity.value.id), Some(loaders[i]))
      {
        assert loaders[i] == init[i];
        assert loaders[i].entity.value.id != id;
      }
    }
  }

  /** When every loader equals the recorded one, the loaders change nothing and load nothing. */
  lemma {:induction false} LoaderPassNoLoads(p: Pass, loaders: seq<EntityLoader>)
    requires HasEntities(loaders)
    requires forall i :: 0 <= i < |loaders| ==> AreLoaderEqual(Recorded(p.tracker, loaders[i].entity.value.id), Some(loaders[i]))
    ensures LoaderPass(p, loaders).tracker == p.tracker && LoaderPass(p, loaders).requests == p.requests
    decreases |loaders|
  {
    if loaders != [] {
      var init := loaders[..|loaders| - 1];
      assert forall i :: 0 <= i < |init| ==> init[i] == loaders[i];
      LoaderPassNoLoads(p, init);
    }
  }

  /**
   * The editor's scene holds, under each tracked device id, the model of the
   * recorded loader, and no other device model.
   */
  ghost predicate Mirrors(t: Tracker, scene: map<string, EntityLoader>)
  {
    (forall id :: id in t.records && id != EnvironmentId ==> t.records[id].Some? && id in scene && scene[id] == t.records[id].value) &&
    (forall id :: id in scene && id != EnvironmentId ==> id in t.records)
  }

  lemma {:induction false} AppliedAppend(scene: map<string, EntityLoader>, a: seq<SceneRequest>, b: seq<SceneRequest>)
    ensures Applied(scene, a + b) == Applied(Applied(scene, a), b)
    decreases |b|
  {
    if b != [] {
      assert (a + b)[..|a + b| - 1] == a + b[..|b| - 1];
      AppliedAppend(scene, a, b[..|b| - 1]);
    } else {
      assert a + b == a;
    }
  }

  lemma {:induction false} AppliedRemovals(scene: map<string, EntityLoader>, ids: seq<string>)
    ensures Applied(scene, Removals(ids)) == scene - set id | id in ids
    decreases |ids|
  {
    if ids != [] {
      var init := ids[..|ids| - 1];
      assert Removals(ids)[..|ids| - 1] == Removals(init);
      AppliedRemovals(scene, init);
      assert forall id :: id in ids <==> id in init || id == ids[|ids| - 1] by {
        assert ids == init + [ids[|ids| - 1]];
      }
    }
  }

  /** Recording a device loader and loading its model keeps the scene a mirror of the tracker. */
  lemma MirrorsRecord(t: Tracker, scene: map<string, EntityLoader>, id: string, l: EntityLoader)
    requires id != EnvironmentId && Mirrors(t, scene)
    ensures Mirrors(Record(t, id, Some(l)), scene[id := l])
  {
  }

  /** One device loader keeps the scene a mirror of the tracker. */
  lemma LoaderStepMirrors(p: Pass, scene: map<string, EntityLoader>, l: EntityLoader)
    requires l.entity.Some? && l.entity.value.id != EnvironmentId
    requires Mirrors(p.tracker, Applied(scene, p.requests))
    ensures Mirrors(LoaderStep(p, l).tracker, Applied(scene, LoaderStep(p, l).requests))
  {
    var id := l.entity.value.id;
    if !AreLoaderEqual(Recorded(p.tracker, id), Some(l)) {
      var reqs := p.requests + [LoadRequest(l, None)];
      assert reqs[..|reqs| - 1] == p.requests;
      var before := Applied(scene, p.requests);
      assert Applied(scene, reqs) == before[id := l];
      MirrorsRecord(p.tracker, before, id, l);
    }
  }

  /** The loaders keep the scene a mirror of the tracker, as long as no device claims the environment's id. */
  lemma {:induction false} LoaderPassMirrors(p: Pass, scene: map<string, EntityLoader>, loaders: seq<EntityLoader>)
    requires HasEntities(loaders) && !Mentions(loaders, EnvironmentId)
    requires Mirrors(p.tracker, Applied(scene, p.requests))
    ensures Mirrors(LoaderPass(p, loaders).tracker, Applied(scene, LoaderPass(p, loaders).requests))
    decreases |loaders|
  {
    if loaders != [] {
      var init := loaders[..|loaders| - 1];
      var l := loaders[|loaders| - 1];
      assert loaders == init + [l];
      MentionsSnoc(init, l);
      LoaderPassMirrors(p, scene, init);
      LoaderStepMirrors(LoaderPass(p, init), scene, l);
    }
  }

  /** Every request after the loads is a removal. */
  lemma ReconcileRequestsSplit(p: Pass)
    ensures var all := p.requests + Removals(p.pending);
            (forall k :: |p.requests| <= k < |all| ==> all[k] == RemoveRequest(p.pending[k - |p.requests|])) &&
            (forall x :: RemoveRequest(x) in Removals(p.pending) <==> x in p.pending)
  {
    var rs := Removals(p.pending);
    forall x
      ensures RemoveRequest(x) in rs <==> x in p.pending
    {
      if x in p.pending {
        var k :| 0 <= k < |p.pending| && p.pending[k] == x;
        assert rs[k] == RemoveRequest(x);
      }
    }
  }

  /**
   * The device branch, corrected, removes exactly the tracked devices that
   * no new loader mentions, and loads only given loaders.
   */
  lemma ReconcileRemovesExactly(t: Tracker, loaders: seq<EntityLoader>)
    requires TrackerInv(t) && HasEntities(loaders)
    ensures var out := ReconcileDevices(t, loaders);
            (forall x :: RemoveRequest(x) in out.requests <==> x in t.records && x != EnvironmentId && !Mentions(loaders, x)) &&
            (forall r :: r in out.requests && r.LoadRequest? ==> r.id.None? && r.loader in loaders)
  {
    var p := LoaderPass(StartPass(t), loaders);
    LoaderPassPending(StartPass(t), loaders);
    LoaderPassRequests(StartPass(t), loaders);
    ReconcileRequestsSplit(p);
    var out := ReconcileDevices(t, loaders);
    assert out.requests == p.requests + Removals(p.pending);
    assert forall r :: r in out.requests <==> r in p.requests || r in Removals(p.pending);
    forall r | r in p.requests
      ensures r.LoadRequest? && r.id.None? && r.loader in loaders
    {
      var k :| 0 <= k < |p.requests| && p.requests[k] == r;
    }
  }

  /** After the corrected device branch the tracked devices are exactly the mentioned entities. */
  lemma ReconcileTracksMentioned(t: Tracker, loaders: seq<EntityLoader>)
    requires TrackerInv(t) && HasEntities(loaders)
    ensures var out := ReconcileDevices(t, loaders);
            TrackerInv(out.tracker) &&
            (forall id :: id != EnvironmentId ==> (id in out.tracker.records <==> Mentions(loaders, id))) &&
            (forall id :: Mentions(loaders, id) ==> Recorded(out.tracker, id) == Recorded(LoaderPass(StartPass(t), loaders).tracker, id))
  {
    LoaderPassTracker(StartPass(t), loaders);
    LoaderPassPending(StartPass(t), loaders);
  }

  /**
   * The corrected device branch keeps the editor's scene a mirror of the
   * tracker, and afterwards the scene's device models are exactly the
   * entities the loaders mention.
   */
  lemma ReconcileMirrors(t: Tracker, scene: map<string, EntityLoader>, loaders: seq<EntityLoader>)
    requires TrackerInv(t) && Mirrors(t, scene)
    requires HasEntities(loaders) && !Mentions(loaders, EnvironmentId)
    ensures var out := ReconcileDevices(t, loaders);
            Mirrors(out.tracker, Applied(scene, out.requests)) &&
            forall id :: id != EnvironmentId ==> (id in Applied(scene, out.requests) <==> Mentions(loaders, id))
  {
    var p := LoaderPass(StartPass(t), loaders);
    LoaderPassMirrors(StartPass(t), scene, loaders);
    ReconcileTracksMentioned(t, loaders);
    var out := ReconcileDevices(t, loaders);
    AppliedAppend(scene, p.requests, Removals(p.pending));
    AppliedRemovals(Applied(scene, p.requests), p.pending);
  }

  lemma HeadIsMember(s: seq<string>)
    ensures s != [] ==> s[0] in s
  {
  }

  /** Once the tracked devices are exactly the mentioned ones, the loaders leave nothing to delete. */
  lemma PendingSettled(t: Tracker, loaders: seq<EntityLoader>)
    requires TrackerInv(t) && HasEntities(loaders)
    requires forall id :: id != EnvironmentId ==> (id in t.records <==> Mentions(loaders, id))
    ensures LoaderPass(StartPass(t), loaders).pending == []
  {
    LoaderPassPending(StartPass(t), loaders);
    var q := LoaderPass(StartPass(t), loaders);
    assert forall x :: x !in q.pending;
    HeadIsMember(q.pending);
  }

  /**
   * The corrected device branch settles: running it again with the same
   * loaders (each entity once) loads and removes nothing.
   */
  lemma ReconcileIdempotent(t: Tracker, loaders: seq<EntityLoader>)
    requires TrackerInv(t) && HasEntities(loaders) && DistinctEntities(loaders)
    ensures var out := ReconcileDevices(t, loaders);
            ReconcileDevices(out.tracker, loaders) == Outcome(out.tracker, [])
  {
    LoaderPassRecords(StartPass(t), loaders);
    ReconcileTracksMentioned(t, loaders);
    var t2 := ReconcileDevices(t, loaders).tracker;
    forall i | 0 <= i < |loaders|
      ensures AreLoaderEqual(Recorded(t2, loaders[i].entity.value.id), Some(loaders[i]))
    {
      assert Mentions(loaders, loaders[i].entity.value.id);
    }
    LoaderPassNoLoads(StartPass(t2), loaders);
    LoaderPassPending(StartPass(t2), loaders);
    var q := LoaderPass(StartPass(t2), loaders);
    PendingSettled(t2, loaders);
    assert q.requests + Removals(q.pending) == [];
  }

  /** A single loader's pass is its step. */
  lemma LoaderPassSingle(p: Pass, l: EntityLoader)
    requires l.entity.Some?
    ensures LoaderPass(p, [l]) == LoaderStep(p, l)
  {
    assert [l][..0] == [];
  }

  /** The tracker with one device "X" loaded from "x.glb", the scene holding it. */
  function StaleLoader(): EntityLoader
  {
    ModelUrl("x.glb", Some(EntityInfo("X", "x", "DEVICE")))
  }

  function StaleTracker(): (t: Tracker)
    ensures TrackerInv(t)
  {
    var t := Tracker(map["X" := Some(StaleLoader())], ["X"]);
    assert forall id :: id in t.records <==> id == "X";
    t
  }

  lemma StaleSetup()
    ensures TrackerInv(StaleTracker())
    ensures StartPass(StaleTracker()) == Pass(StaleTracker(), ["X"], [])
    ensures Removals(["X"]) == [RemoveRequest("X")]
    ensures Applied(map["X" := StaleLoader()], [RemoveRequest("X")]) == map[]
  {
    StaleDeviceKeys();
    StaleRemovalApplied();
  }

  lemma StaleDeviceKeys()
    ensures DeviceKeys(["X"]) == ["X"]
  {
    assert ["X"][..0] == [];
    assert DeviceKeys([]) == [];
  }

  lemma StaleRemovalApplied()
    ensures Applied(map["X" := StaleLoader()], [RemoveRequest("X")]) == map[]
  {
    assert [RemoveRequest("X")][..0] == [];
    var m := map["X" := StaleLoader()] - {"X"};
    assert m.Keys == {};
  }

  /**
   * As written, a removed device's record stays behind: with device "X"
   * loaded, settings without it remove the model, and settings that bring
   * "X" back with the same loader load nothing, so the scene lacks "X".
   */
  lemma StaleRecordSkipsReload()
    ensures var l := StaleLoader();
            var removed := ReconcileDevicesAsWritten(StaleTracker(), []);
            var readded := ReconcileDevicesAsWritten(removed.tracker, [l]);
            var scene := Applied(map["X" := l], removed.requests);
            removed.requests == [RemoveRequest("X")] && scene == map[] &&
            readded.requests == [] && Applied(scene, readded.requests) == map[] &&
            Mentions([l], "X")
  {
    var l := StaleLoader();
    var t := StaleTracker();
    StaleSetup();
    assert Mentions([l], "X") by {
      assert [l][0].entity.value.id == "X";
    }
    var removed := ReconcileDevicesAsWritten(t, []);
    assert removed.tracker == t;
    LoaderPassSingle(StartPass(t), l);
    AreLoaderEqualProperties(Some(l), Some(l));
    assert RemoveFirst(["X"], "X") == [];
    var again := LoaderPass(StartPass(t), [l]);
    assert again.requests == [] && again.pending == [];
    assert Removals([]) == [];
  }

  /** With the record deleted along with the model, "X" is loaded again. */
  lemma RemovedDeviceReloads()
    ensures var l := StaleLoader();
            var removed := ReconcileDevices(StaleTracker(), []);
            removed == Outcome(Tracker(map[], []), [RemoveRequest("X")]) &&
            Applied(map["X" := l], removed.requests) == map[] &&
            ReconcileDevices(Tracker(map[], []), [l]).requests == [LoadRequest(l, None)] &&
            Applied(map[], [LoadRequest(l, None)]) == map["X" := l]
  {
    var l := StaleLoader();
    StaleSetup();
    StaleRemoval();
    ReloadIntoEmpty();
    assert Applied(map[], [LoadRequest(l, None)]) == map["X" := l] by {
      assert [LoadRequest(l, None)][..0] == [];
    }
  }

  lemma StaleRemoval()
    ensures ReconcileDevices(StaleTracker(), []) == Outcome(Tracker(map[], []), [RemoveRequest("X")])
  {
    var t := StaleTracker();
    StaleSetup();
    var p := LoaderPass(StartPass(t), []);
    assert p == Pass(t, ["X"], []);
    assert ["X"][..0] == [];
    assert ForgetAll(t, ["X"]) == Forget(t, "X");
    assert RemoveFirst(["X"], "X") == [];
    assert (map["X" := Some(StaleLoader())] - {"X"}).Keys == {};
    assert Forget(t, "X") == Tracker(map[], []);
  }

  lemma ReloadIntoEmpty()
    ensures ReconcileDevices(Tracker(map[], []), [StaleLoader()]).requests == [LoadRequest(StaleLoader(), None)]
  {
    var l := StaleLoader();
    var t := Tracker(map[], []);
    assert DeviceKeys([]) == [];
    LoaderPassSingle(StartPass(t), l);
    var loaded := LoaderPass(StartPass(t), [l]);
    assert loaded.requests == [LoadRequest(l, None)];
    assert loaded.pending == [];
    assert Removals([]) == [];
  }

  // ---- updateSceneModels, environment settings ---------------------------------

  /**
   * The environment branch: the loader (possibly none) is tracked under
   * `ENVIRONMENT_ID` unless it equals the recorded one, and then loaded
   * under that id if there is one.
   */
  function ReconcileEnvironment(t: Tracker, loader: Option<EntityLoader>): (r: Outcome)
    ensures TrackerInv(t) ==> TrackerInv(r.tracker)
  {
    if AreLoaderEqual(Recorded(t, EnvironmentId), loader) then Outcome(t, [])
    else Outcome(Record(t, EnvironmentId, loader), if loader.Some? then [LoadRequest(loader.value, Some(EnvironmentId))] else [])
  }

  /**
   * The environment is tracked under its fixed key and nothing else
   * changes; afterwards the recorded loader equals the new one, and the same
   * settings again request nothing.
   */
  lemma EnvironmentTrackedUnderItsKey(t: Tracker, loader: Option<EntityLoader>)
    requires TrackerInv(t)
    ensures var out := ReconcileEnvironment(t, loader);
            TrackerInv(out.tracker) &&
            (forall id :: id != EnvironmentId ==> Recorded(out.tracker, id) == Recorded(t, id)) &&
            (forall id :: id != EnvironmentId ==> (id in out.tracker.records <==> id in t.records)) &&
            (loader.Some? ==> AreLoaderEqual(Recorded(out.tracker, EnvironmentId), loader)) &&
            (forall r :: r in out.requests ==> r == LoadRequest(loader.value, Some(EnvironmentId))) &&
            ReconcileEnvironment(out.tracker, loader).requests == []
  {
    AreLoaderEqualProperties(loader, loader);
  }

  /** The settings `updateSceneModels` receives: none, device settings, or environment settings. */
  datatype SceneModelInput =
    | NoSettings
    | DevicesInput(groups: seq<DeviceGroupSettings>)
    | EnvironmentInput(environment: EnvironmentSettings)

  /** Every group's object list is there whenever `toEntityLoaders` walks it. */
  predicate GroupsWellFormed(groups: seq<DeviceGroupSettings>)
  {
    forall i :: 0 <= i < |groups| ==>
      (groups[i].useAttribute && TruthyStr(groups[i].keySettings.entityAttribute) ==> groups[i].objects.Some?)
  }

  /** The loaders of all groups, group after group (`loaders?.forEach` skips a group without). */
  function GroupsLoaders(groups: seq<DeviceGroupSettings>): (r: seq<EntityLoader>)
    requires GroupsWellFormed(groups)
    ensures HasEntities(r)
  {
    if groups == [] then []
    else
      var g := groups[|groups| - 1];
      var prior := GroupsLoaders(groups[..|groups| - 1]);
      var own := EntityLoaders(g);
      if own.Some? then
        assert HasEntities(own.value);
        prior + own.value
      else prior
  }

  /** The body of the inner `forEach`, over one group's loaders. */
  method LoadLoaders(p: Pass, loaders: seq<EntityLoader>) returns (q: Pass)
    requires HasEntities(loaders)
    ensures q == LoaderPass(p, loaders)
  {
    var records, order, pending, requests := p.tracker.records, p.tracker.order, p.pending, p.requests;
    for i := 0 to |loaders|
      invariant Pass(Tracker(records, order), pending, requests) == LoaderPass(p, loaders[..i])
    {
      var l := loaders[i];
      assert loaders[..i + 1] == loaders[..i] + [l];
      assert loaders[..i + 1][..i] == loaders[..i];
      var id := l.entity.value.id;
      var last := if id in records then records[id] else None;
      if !AreLoaderEqual(last, Some(l)) {
        if id !in records {
          order := order + [id];
        }
        records := records[id := Some(l)];
        requests := requests + [LoadRequest(l, None)];
      }
      pending := RemoveFirst(pending, id);
    }
    assert loaders[..|loaders|] == loaders;
    q := Pass(Tracker(records, order), pending, requests);
  }

  /** The removal `forEach`, deleting each removed model's record as well. */
  method RemoveStale(t: Tracker, ids: seq<string>) returns (r: Tracker, removals: seq<SceneRequest>)
    requires TrackerInv(t)
    ensures r == ForgetAll(t, ids) && removals == Removals(ids)
  {
    r, removals := t, [];
    for k := 0 to |ids|
      invariant TrackerInv(r)
      invariant r == ForgetAll(t, ids[..k]) && removals == Removals(ids[..k])
    {
      assert ids[..k + 1][..k] == ids[..k];
      removals := removals + [RemoveRequest(ids[k])];
      r := Forget(r, ids[k]);
    }
    assert ids[..|ids|] == ids;
  }

  /** The device branch of `updateSceneModels` on plain values: both loops, then the removals. */
  method ReconcileGroups(t: Tracker, groups: seq<DeviceGroupSettings>) returns (out: Outcome)
    requires TrackerInv(t) && GroupsWellFormed(groups)
    ensures out == ReconcileDevices(t, GroupsLoaders(groups))
  {
    var p := StartPass(t);
    for i := 0 to |groups|
      invariant p == LoaderPass(StartPass(t), GroupsLoaders(groups[..i]))
    {
      assert groups[..i + 1][..i] == groups[..i];
      var loaders := ToEntityLoaders(groups[i]);
      if loaders.Some? {
        LoaderPassAppend(StartPass(t), GroupsLoaders(groups[..i]), loaders.value);
        p := LoadLoaders(p, loaders.value);
      }
    }
    assert groups[..|groups|] == groups;
    LoaderPassTracker(StartPass(t), GroupsLoaders(groups));
    var tracked, removals := RemoveStale(p.tracker, p.pending);
    out := Outcome(tracked, p.requests + removals);
  }

  /** The environment branch of `updateSceneModels` on plain values. */
  method ReconcileEnvironmentSettings(t: Tracker, environment: EnvironmentSettings) returns (out: Outcome)
    ensures out == ReconcileEnvironment(t, ToEntityLoader(environment))
  {
    var entityLoader := ToEntityLoader(environment);
    var last := if EnvironmentId in t.records then t.records[EnvironmentId] else None;
    if AreLoaderEqual(last, entityLoader) {
      return Outcome(t, []);
    }
    var order := if EnvironmentId in t.records then t.order else t.order + [EnvironmentId];
    var requests := if entityLoader.Some? then [LoadRequest(entityLoader.value, Some(EnvironmentId))] else [];
    out := Outcome(Tracker(t.records[EnvironmentId := entityLoader], order), requests);
  }

  class ThreedSceneSettings {
    const controller: ControllerType
    var lastEntityLoaders: map<string, Option<EntityLoader>>
    /** The key order of `lastEntityLoaders`. */
    var loaderOrder: seq<string>
    /** Requests made to the scene editor, oldest first. */
    var requests: seq<SceneRequest>
    var modelValue: Option<SceneSettings>

    function Tracked(): Tracker
      reads this
    {
      Tracker(lastEntityLoaders, loaderOrder)
    }

    ghost predicate Valid()
      reads this
    {
      TrackerInv(Tracked())
    }

    constructor(controller: ControllerType)
      ensures this.controller == controller
      ensures Tracked() == Tracker(map[], []) && requests == [] && modelValue.None?
      ensures Valid()
    {
      this.controller := controller;
      lastEntityLoaders, loaderOrder, requests, modelValue := map[], [], [], None;
    }

    /**
     * `updateSceneModels`: null settings are ignored; device settings
     * reconcile the device models (deleting each removed model's record);
     * environment settings reconcile the environment model.
     */
    method UpdateSceneModels(input: SceneModelInput)
      modifies this
      requires Valid()
      requires input.DevicesInput? ==> GroupsWellFormed(input.groups)
      ensures Valid()
      ensures input.NoSettings? ==> Tracked() == old(Tracked()) && requests == old(requests)
      ensures input.DevicesInput? ==>
                var out := ReconcileDevices(old(Tracked()), GroupsLoaders(input.groups));
                Tracked() == out.tracker && requests == old(requests) + out.requests
      ensures input.EnvironmentInput? ==>
                var out := ReconcileEnvironment(old(Tracked()), ToEntityLoader(input.environment));
                Tracked() == out.tracker && requests == old(requests) + out.requests
      ensures modelValue == old(modelValue)
    {
      var out: Outcome;
      match input {
        case NoSettings =>
          return;
        case DevicesInput(groups) =>
          out := ReconcileGroups(Tracked(), groups);
        case EnvironmentInput(environment) =>
          out := ReconcileEnvironmentSettings(Tracked(), environment);
      }
      lastEntityLoaders, loaderOrder := out.tracker.records, out.tracker.order;
      requests := requests + out.requests;
    }

    /**
     * `writeValue`: the new settings become the model value, then the
     * environment and the device models are reconciled, in that order.
     */
    method WriteValue(value: SceneSettings)
      modifies this
      requires Valid()
      // The form always supplies the group list, and each group its object list (see `GroupsWellFormed`).
      requires value.devices.Some? ==> value.devices.value.groups.Some? && GroupsWellFormed(value.devices.value.groups.value)
      ensures Valid()
      ensures modelValue == Some(value)
      ensures var env := if value.environment.Some? then ReconcileEnvironment(old(Tracked()), ToEntityLoader(value.environment.value))
                         else Outcome(old(Tracked()), []);
              var devices := if value.devices.Some? then ReconcileDevices(env.tracker, GroupsLoaders(value.devices.value.groups.value))
                             else Outcome(env.tracker, []);
              Tracked() == devices.tracker && requests == old(requests) + env.requests + devices.requests
    {
      modelValue := Some(value);
      ghost var env := if value.environment.Some? then ReconcileEnvironment(Tracked(), ToEntityLoader(value.environment.value))
                       else Outcome(Tracked(), []);
      ghost var before := requests;
      UpdateSceneModels(if value.environment.Some? then EnvironmentInput(value.environment.value) else NoSettings);
      assert Tracked() == env.tracker && requests == before + env.requests;
      ghost var middle := requests;
      UpdateSceneModels(if value.devices.Some? then DevicesInput(value.devices.value.groups.value) else NoSettings);
      assert requests == middle + (requests[|middle|..]);
    }
  }
}
