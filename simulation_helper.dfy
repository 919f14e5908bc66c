/**
 * `SimulationHelperComponent`: the runtime of the simulation widget. It
 * compiles the user's scripts (`setup.js`, `start.js`, `stop.js`, `reset.js`,
 * `onDataUpdate.js`, ...) into functions, keeps them with the assets in a
 * `context`, and steps the simulation through its lifecycle:
 * UNCOMPILED -> COMPILING -> SETUP_DONE -> STARTED -> UNCOMPILED.
 *
 * `new Function(...)` is an oracle `parses` (does the body compile with that
 * parameter list?), and what a user script does when it runs is an input
 * `RunOutcome` (it returns, or it throws / its promise rejects). The class
 * logs every script it invokes, and every state it assigns, in order.
 */
module SimulationHelper {
  import opened Wrappers
  import opened ThreedModels

  // ---- toDictionary --------------------------------------------------------------

  /**
   * `arr.reduce((obj, item) => { obj[keySelector(item)] = item; return obj }, {})`:
   * the items keyed by the selector, a later item replacing an earlier one
   * with the same key.
   */
  /** The script names the helper invokes by name. */
  const SetupJs := "setup.js"
  const StartJs := "start.js"
  const StopJs := "stop.js"
  const ResetJs := "reset.js"
  const OnDataUpdateJs := "onDataUpdate.js"

  /** `toDictionary`: each item stored under its key, a later item replacing an earlier one (see ToDictionaryKeys and ToDictionaryLastWins). */
  function ToDictionary<T>(items: seq<T>, key: T -> string): map<string, T>
  {
    if items == [] then map[]
    else ToDictionary(items[..|items| - 1], key)[key(items[|items| - 1]) := items[|items| - 1]]
  }

  /** The keys are exactly the selected ones, and each key holds an item that selects it. */
  lemma {:induction false} ToDictionaryKeys<T>(items: seq<T>, key: T -> string)
    ensures ToDictionary(items, key).Keys == set i | 0 <= i < |items| :: key(items[i])
    ensures forall k :: k in ToDictionary(items, key) ==>
      key(ToDictionary(items, key)[k]) == k && exists i :: 0 <= i < |items| && items[i] == ToDictionary(items, key)[k]
    decreases |items|
  {
    if items != [] {
      var n := |items| - 1;
      ToDictionaryKeys(items[..n], key);
      assert forall i :: 0 <= i < n ==> items[..n][i] == items[i];
      var d := ToDictionary(items, key);
      assert d == ToDictionary(items[..n], key)[key(items[n]) := items[n]];
      forall k | k in d
        ensures exists i :: 0 <= i < |items| && items[i] == d[k]
      {
        if k != key(items[n]) {
          var i :| 0 <= i < n && items[..n][i] == d[k];
          assert items[i] == d[k];
        }
      }
      assert forall i :: 0 <= i < |items| ==> key(items[i]) in d;
    }
  }

  /** No item after position `i` has the key of item `i`. */
  predicate LastWithKey<T>(items: seq<T>, key: T -> string, i: int)
  {
    0 <= i < |items| && forall j :: i < j < |items| ==> key(items[j]) != key(items[i])
  }

  /** Every key holds the LAST item that has it. */
  lemma {:induction false} ToDictionaryLastWins<T>(items: seq<T>, key: T -> string, i: int)
    requires LastWithKey(items, key, i)
    ensures key(items[i]) in ToDictionary(items, key)
    ensures ToDictionary(items, key)[key(items[i])] == items[i]
    decreases |items|
  {
    var n := |items| - 1;
    if i < n {
      assert items[..n][i] == items[i];
      assert LastWithKey(items[..n], key, i) by {
        forall j | i < j < n
          ensures key(items[..n][j]) != key(items[..n][i])
        {
          assert items[..n][j] == items[j];
        }
      }
      ToDictionaryLastWins(items[..n], key, i);
      assert key(items[n]) != key(items[i]);
    }
  }

  // ---- getCompiledScripts ----------------------------------------------------------

  /** A compiled script: the model's fields and the parameter list of its function. */
  datatype CompiledScript = CompiledScript(name: string, body: string, deletable: Option<bool>, params: seq<string>)

  /** `onDataUpdate.js` receives the data sources as a fourth argument; every other script three. */
  function Params(name: string): (p: seq<string>)
    ensures |p| == (if name == OnDataUpdateJs then 4 else 3)
    ensures p[..3] == ["context", "simulationScene", "Threed"]
  {
    if name != OnDataUpdateJs then ["context", "simulationScene", "Threed"]
    else ["context", "simulationScene", "Threed", "datasources"]
  }

  function Compiled(s: ScriptModel): CompiledScript
  {
    CompiledScript(s.name, s.body, s.deletable, Params(s.name))
  }

  function NameOf(c: CompiledScript): string { c.name }

  /** Each script compiled, in order. */
  function CompileAll(raw: seq<ScriptModel>): (r: seq<CompiledScript>)
    ensures |r| == |raw|
    ensures forall i :: 0 <= i < |raw| ==> r[i] == Compiled(raw[i])
  {
    if raw == [] then []
    else CompileAll(raw[..|raw| - 1]) + [Compiled(raw[|raw| - 1])]
  }

  /** The dictionary `getCompiledScripts` builds when every body compiles. */
  function CompiledScriptsOf(raw: seq<ScriptModel>): map<string, CompiledScript>
  {
    ToDictionary(CompileAll(raw), NameOf)
  }

  /** Does `new Function(params..., body)` succeed for every script? */
  predicate AllParse(raw: seq<ScriptModel>, parses: (seq<string>, string) -> bool)
  {
    forall i :: 0 <= i < |raw| ==> parses(Params(raw[i].name), raw[i].body)
  }

  /**
   * The entry for a script's name copies the body, name and deletable flag
   * of the last script with that name.
   */
  lemma CompiledScriptsOfLast(raw: seq<ScriptModel>, i: int)
    requires 0 <= i < |raw|
    requires forall j :: i < j < |raw| ==> raw[j].name != raw[i].name
    ensures raw[i].name in CompiledScriptsOf(raw)
    ensures CompiledScriptsOf(raw)[raw[i].name].body == raw[i].body
    ensures CompiledScriptsOf(raw)[raw[i].name].deletable == raw[i].deletable
    ensures CompiledScriptsOf(raw)[raw[i].name].name == raw[i].name
  {
    var c := CompileAll(raw);
    assert LastWithKey(c, NameOf, i);
    ToDictionaryLastWins(c, NameOf, i);
  }

  /** A script name is a key of the dictionary exactly when some script carries it. */
  lemma CompiledScriptsHas(raw: seq<ScriptModel>, name: string)
    ensures name in CompiledScriptsOf(raw) <==> exists j :: 0 <= j < |raw| && raw[j].name == name
  {
    var c := CompileAll(raw);
    ToDictionaryKeys(c, NameOf);
    if name in CompiledScriptsOf(raw) {
      var j :| 0 <= j < |c| && NameOf(c[j]) == name;
      assert raw[j].name == name;
    }
    if j :| 0 <= j < |raw| && raw[j].name == name {
      assert NameOf(c[j]) == name;
    }
  }

  /**
   * `getCompiledScripts`: compiles each script in order into a dictionary by
   * name; the first body `new Function` rejects throws a SyntaxError, which
   * is the `Failure`.
   */
  method GetCompiledScripts(raw: seq<ScriptModel>, parses: (seq<string>, string) -> bool)
    returns (r: Result<map<string, CompiledScript>>)
    ensures r.Success? <==> AllParse(raw, parses)
    ensures r.Success? ==> r.value == CompiledScriptsOf(raw)
  {
    var scripts: map<string, CompiledScript> := map[];
    for i := 0 to |raw|
      invariant AllParse(raw[..i], parses)
      invariant scripts == CompiledScriptsOf(raw[..i])
    {
      var script := raw[i];
      if !parses(Params(script.name), script.body) {
        return Failure("SyntaxError");
      }
      CompiledScriptsSnoc(raw, i);
      scripts := scripts[script.name := Compiled(script)];
    }
    assert raw[..|raw|] == raw;
    return Success(scripts);
  }

  /** One more script: its compiled form goes in under its name, and the parse check extends. */
  lemma CompiledScriptsSnoc(raw: seq<ScriptModel>, i: int)
    requires 0 <= i < |raw|
    ensures CompiledScriptsOf(raw[..i + 1]) == CompiledScriptsOf(raw[..i])[raw[i].name := Compiled(raw[i])]
    ensures forall parses: (seq<string>, string) -> bool ::
      AllParse(raw[..i + 1], parses) <==> AllParse(raw[..i], parses) && parses(Params(raw[i].name), raw[i].body)
  {
    var p := raw[..i + 1];
    assert p[..i] == raw[..i];
    assert p[i] == raw[i];
    assert CompileAll(p) == CompileAll(raw[..i]) + [Compiled(raw[i])];
    var c := CompileAll(p);
    assert c[..i] == CompileAll(raw[..i]);
  }

  // ---- compile: the state it ends in ---------------------------------------------

  /** What a user script does when it is invoked: it returns (or resolves), or it throws (or rejects). */
  datatype RunOutcome = Returned | Threw

  /** `compile` returns at once when the setup is done or the simulation runs. */
  predicate CompileSkips(state: SimulationState)
  {
    state == SetupDone || state == Started
  }

  /**
   * The state `compile` ends in AS WRITTEN: `getCompiledScripts` runs before
   * the `try`, so a SyntaxError escapes and the state stays COMPILING.
   */
  function CompileOutcomeAsWritten(state: SimulationState, raw: seq<ScriptModel>,
                                   parses: (seq<string>, string) -> bool, setup: RunOutcome): SimulationState
  {
    if CompileSkips(state) then state
    else if !AllParse(raw, parses) then Compiling
    else if SetupJs in CompiledScriptsOf(raw) && setup == Returned then SetupDone
    else Uncompiled
  }

  /**
   * The state `compile` ends in with the compilation inside the `try`: any
   * failure, a SyntaxError included, ends UNCOMPILED.
   */
  function CompileOutcome(state: SimulationState, raw: seq<ScriptModel>,
                          parses: (seq<string>, string) -> bool, setup: RunOutcome): SimulationState
  {
    if CompileSkips(state) then state
    else if AllParse(raw, parses) && SetupJs in CompiledScriptsOf(raw) && setup == Returned then SetupDone
    else Uncompiled
  }

  /**
   * `compile` changes nothing when skipped; otherwise it ends SETUP_DONE
   * exactly when every script compiles and `setup.js` exists and returns,
   * and UNCOMPILED on every failure: never COMPILING or STOPPED.
   */
  lemma CompileSettles(state: SimulationState, raw: seq<ScriptModel>,
                       parses: (seq<string>, string) -> bool, setup: RunOutcome)
    ensures CompileSkips(state) ==> CompileOutcome(state, raw, parses, setup) == state
    ensures !CompileSkips(state) ==>
      (CompileOutcome(state, raw, parses, setup) == SetupDone <==>
        AllParse(raw, parses) && (exists j :: 0 <= j < |raw| && raw[j].name == SetupJs) && setup == Returned)
    ensures !CompileSkips(state) ==>
      CompileOutcome(state, raw, parses, setup) in {SetupDone, Uncompiled}
    ensures state != Compiling && state != Stopped ==>
      CompileOutcome(state, raw, parses, setup) != Compiling && CompileOutcome(state, raw, parses, setup) != Stopped
  {
    CompiledScriptsHas(raw, SetupJs);
  }

  /** The two agree whenever every script compiles. */
  lemma CompileOutcomeAgrees(state: SimulationState, raw: seq<ScriptModel>,
                             parses: (seq<string>, string) -> bool, setup: RunOutcome)
    requires AllParse(raw, parses)
    ensures CompileOutcomeAsWritten(state, raw, parses, setup) == CompileOutcome(state, raw, parses, setup)
  {
  }

  /** As written, a `setup.js` whose body does not compile leaves the widget COMPILING. */
  lemma CompileStuckAsWritten()
    ensures CompileOutcomeAsWritten(Uncompiled, [ScriptModel(SetupJs, "return (", Some(false))],
                                    (p: seq<string>, b: string) => b != "return (", Returned) == Compiling
    ensures CompileOutcome(Uncompiled, [ScriptModel(SetupJs, "return (", Some(false))],
                           (p: seq<string>, b: string) => b != "return (", Returned) == Uncompiled
  {
    var raw := [ScriptModel(SetupJs, "return (", Some(false))];
    var parses := (p: seq<string>, b: string) => b != "return (";
    assert !parses(Params(raw[0].name), raw[0].body);
  }

  // ---- the component ---------------------------------------------------------------

  /** `this.context` (user data, menu data and services are not modelled). */
  datatype Context = Context(assets: map<string, AssetModel>, entities: seq<EntityInfo>, scripts: map<string, CompiledScript>)

  function AssetName(a: AssetModel): string { a.name }

  /** Does the context hold a script of that name (else invoking it throws a TypeError)? */
  predicate HasScript(context: Option<Context>, name: string)
  {
    context.Some? && name in context.value.scripts
  }

  /** The simulation advances 200 ms per timer tick. */
  const TickSeconds: real := 0.2

  class ThreedSimulationHelper {
    var settings: SimulationSettings
    var state: SimulationState
    var time: real
    var context: Option<Context>
    /** The current simulation scene, by creation number; `None` once destroyed. */
    var scene: Option<nat>
    var scenesCreated: nat
    /** Live `setInterval` timers, the last handle stored, and the handle count. */
    var intervals: set<nat>
    var timeHandler: Option<nat>
    var timersCreated: nat
    /** The scripts invoked, in order. */
    var calls: seq<string>
    /** Every state assigned to `simulationState`, in order, the initial one first. */
    var history: seq<SimulationState>

    /**
     * Between calls the widget is UNCOMPILED, SETUP_DONE or STARTED; STOPPED
     * is never assigned; handles and scene numbers are never reused.
     */
    predicate Valid()
      reads this
    {
      Recorded() && state != Compiling
    }

    /** `Valid` without the state's restriction: what holds inside `compile`. */
    predicate Recorded()
      reads this
    {
      && |history| > 0
      && history[|history| - 1] == state
      && Stopped !in history
      && (scene.Some? ==> scene.value < scenesCreated)
      && (forall h :: h in intervals ==> h < timersCreated)
      && (timeHandler.Some? ==> timeHandler.value < timersCreated)
    }

    constructor(settings: SimulationSettings)
      ensures Valid()
      ensures this.settings == settings && state == Uncompiled && time == 0.0
      ensures context == None && scene == None && intervals == {} && timeHandler == None
      ensures calls == [] && history == [Uncompiled]
    {
      this.settings := settings;
      state := Uncompiled;
      time := 0.0;
      context := None;
      scene := None;
      scenesCreated := 0;
      intervals := {};
      timeHandler := None;
      timersCreated := 0;
      calls := [];
      history := [Uncompiled];
    }

    /** `updateSettings`. */
    method UpdateSettings(settings: SimulationSettings)
      requires Valid()
      modifies this`settings
      ensures Valid()
      ensures this.settings == settings
    {
      this.settings := settings;
    }

    /** `createSimulationScene` (also `ngOnInit`): the old scene is destroyed and a new one made. */
    method CreateSimulationScene()
      modifies this`scene, this`scenesCreated
      ensures scene == Some(old(scenesCreated)) && scenesCreated == old(scenesCreated) + 1
    {
      scene := Some(scenesCreated);
      scenesCreated := scenesCreated + 1;
    }

    /** Assigns `simulationState`, recording it. */
    method SetState(s: SimulationState)
      requires s != Stopped
      requires Recorded()
      modifies this`state, this`history
      ensures Recorded()
      ensures state == s && history == old(history) + [s]
    {
      state := s;
      history := history + [s];
    }

    /**
     * `compile`, with the compilation inside the `try`: skipped when the
     * setup is done or the simulation runs; otherwise it passes through
     * COMPILING, builds the context, makes a new scene and runs `setup.js`,
     * ending SETUP_DONE or UNCOMPILED.
     */
    method Compile(entities: seq<EntityInfo>, parses: (seq<string>, string) -> bool, setup: RunOutcome)
      requires Valid()
      modifies this`state, this`history, this`context, this`scene, this`scenesCreated, this`calls
      ensures Valid()
      ensures state == CompileOutcome(old(state), old(settings).scripts, parses, setup)
      ensures CompileSkips(old(state)) ==> history == old(history) && calls == old(calls)
      ensures !CompileSkips(old(state)) ==> history == old(history) + [Compiling, state]
      ensures !CompileSkips(old(state)) && AllParse(settings.scripts, parses) ==>
        && context == Some(Context(ToDictionary(settings.assets, AssetName), entities, CompiledScriptsOf(settings.scripts)))
        && scene == Some(old(scenesCreated)) && scenesCreated == old(scenesCreated) + 1
        && calls == old(calls) + (if SetupJs in CompiledScriptsOf(settings.scripts) then [SetupJs] else [])
      ensures CompileSkips(old(state)) || !AllParse(settings.scripts, parses) ==>
        context == old(context) && scene == old(scene) && scenesCreated == old(scenesCreated) && calls == old(calls)
    {
      if state == SetupDone || state == Started {
        return;
      }
      CompileAndSetup(settings.assets, settings.scripts, entities, parses, setup);
    }

    /** `compile` past its opening check, on the settings' assets and scripts: COMPILING, then the scripts, then the `try`. */
    method CompileAndSetup(assets: seq<AssetModel>, scripts: seq<ScriptModel>, entities: seq<EntityInfo>,
                           parses: (seq<string>, string) -> bool, setup: RunOutcome)
      requires Valid()
      modifies this`state, this`history, this`context, this`scene, this`scenesCreated, this`calls
      ensures Valid()
      ensures history == old(history) + [Compiling, state]
      ensures AllParse(scripts, parses) ==>
        && state == (if SetupJs in CompiledScriptsOf(scripts) && setup == Returned then SetupDone else Uncompiled)
        && context == Some(Context(ToDictionary(assets, AssetName), entities, CompiledScriptsOf(scripts)))
        && scene == Some(old(scenesCreated)) && scenesCreated == old(scenesCreated) + 1
        && calls == old(calls) + (if SetupJs in CompiledScriptsOf(scripts) then [SetupJs] else [])
      ensures !AllParse(scripts, parses) ==>
        state == Uncompiled && context == old(context) && scene == old(scene) && scenesCreated == old(scenesCreated) && calls == old(calls)
    {
      SetState(Compiling);
      var dictionary := ToDictionary(assets, AssetName);
      var compiled := GetCompiledScripts(scripts, parses);
      if compiled.Failure? {
        SetState(Uncompiled);
      } else {
        RunSetup(Context(dictionary, entities, compiled.value), setup);
      }
    }

    /** The `try` of `compile`: installs the context, makes a new scene and runs `setup.js`. */
    method RunSetup(ctx: Context, setup: RunOutcome)
      requires Recorded()
      modifies this`state, this`history, this`context, this`scene, this`scenesCreated, this`calls
      ensures Valid()
      ensures state == (if SetupJs in ctx.scripts && setup == Returned then SetupDone else Uncompiled)
      ensures history == old(history) + [state]
      ensures context == Some(ctx)
      ensures scene == Some(old(scenesCreated)) && scenesCreated == old(scenesCreated) + 1
      ensures calls == old(calls) + (if SetupJs in ctx.scripts then [SetupJs] else [])
    {
      context := Some(ctx);
      CreateSimulationScene();
      if SetupJs in ctx.scripts {
        calls := calls + [SetupJs];
        if setup == Returned {
          SetState(SetupDone);
        } else {
          SetState(Uncompiled);
        }
      } else {
        SetState(Uncompiled);
      }
    }

    /**
     * `startSimulation`: skipped when STARTED; otherwise compiles, runs
     * `start.js` from the context (even when the setup failed) and ends
     * STARTED if it returns, UNCOMPILED if it throws or is missing. Either
     * way the clock restarts at 0 with a new timer, the old one left running.
     */
    method StartSimulation(entities: seq<EntityInfo>, parses: (seq<string>, string) -> bool,
                           setup: RunOutcome, start: RunOutcome)
      requires Valid()
      modifies this`state, this`history, this`context, this`scene, this`scenesCreated, this`calls,
               this`time, this`intervals, this`timeHandler, this`timersCreated
      ensures Valid()
      ensures old(state) == Started ==>
        && state == Started && history == old(history) && calls == old(calls) && time == old(time)
        && intervals == old(intervals) && timeHandler == old(timeHandler) && context == old(context)
      ensures old(state) != Started ==>
        && state == (if HasScript(context, StartJs) && start == Returned then Started else Uncompiled)
        && history[|history| - 1] == state
        && (HasScript(context, StartJs) ==> |calls| > 0 && calls[|calls| - 1] == StartJs)
        && time == 0.0
        && timeHandler == Some(old(timersCreated)) && intervals == old(intervals) + {old(timersCreated)}
    {
      if state == Started {
        return;
      }
      Compile(entities, parses, setup);
      RunStart(start);
    }

    /** The part of `startSimulation` after `compile`. */
    method RunStart(start: RunOutcome)
      requires Valid()
      modifies this`state, this`history, this`calls, this`time, this`intervals, this`timeHandler, this`timersCreated
      ensures Valid()
      ensures state == (if HasScript(context, StartJs) && start == Returned then Started else Uncompiled)
      ensures history == old(history) + [state]
      ensures calls == old(calls) + (if HasScript(context, StartJs) then [StartJs] else [])
      ensures time == 0.0
      ensures timeHandler == Some(old(timersCreated)) && intervals == old(intervals) + {old(timersCreated)}
      ensures timersCreated == old(timersCreated) + 1
    {
      if HasScript(context, StartJs) {
        calls := calls + [StartJs];
        if start == Returned {
          SetState(Started);
        } else {
          SetState(Uncompiled);
        }
      } else {
        SetState(Uncompiled);
      }
      time := 0.0;
      intervals := intervals + {timersCreated};
      timeHandler := Some(timersCreated);
      timersCreated := timersCreated + 1;
    }

    /** One tick of a live timer: the clock advances by 200 ms. */
    method OnTimer(handle: nat)
      requires Valid()
      modifies this`time
      ensures Valid()
      ensures time == (if handle in intervals then old(time) + TickSeconds else old(time))
    {
      if handle in intervals {
        time := time + TickSeconds;
      }
    }

    /**
     * `stopSimulation`: clears the stored timer, ends UNCOMPILED with the
     * clock at 0, runs `stop.js` when the context has it, and destroys the
     * scene.
     */
    method StopSimulation()
      requires Valid()
      modifies this`state, this`history, this`calls, this`time, this`intervals, this`scene
      ensures Valid()
      ensures state == Uncompiled && history == old(history) + [Uncompiled]
      ensures time == 0.0 && scene == None
      ensures intervals == (if old(timeHandler).Some? then old(intervals) - {old(timeHandler).value} else old(intervals))
      ensures calls == old(calls) + (if HasScript(context, StopJs) then [StopJs] else [])
    {
      if timeHandler.Some? {
        intervals := intervals - {timeHandler.value};
      }
      SetState(Uncompiled);
      time := 0.0;
      if HasScript(context, StopJs) {
        calls := calls + [StopJs];
      }
      scene := None;
    }

    /** `resetSimulation`: runs `reset.js` when the context has it; nothing else changes. */
    method ResetSimulation()
      requires Valid()
      modifies this`calls
      ensures Valid()
      ensures calls == old(calls) + (if HasScript(context, ResetJs) then [ResetJs] else [])
    {
      if HasScript(context, ResetJs) {
        calls := calls + [ResetJs];
      }
    }

    /**
     * `onDataUpdate`: runs `onDataUpdate.js` only while STARTED and only when
     * the context has it; its errors are swallowed, so nothing else changes.
     */
    method OnDataUpdate()
      requires Valid()
      modifies this`calls
      ensures Valid()
      ensures calls == old(calls) +
        (if old(state) == Started && HasScript(context, OnDataUpdateJs) then [OnDataUpdateJs] else [])
    {
      if state != Started {
        return;
      }
      if !HasScript(context, OnDataUpdateJs) {
        return;
      }
      calls := calls + [OnDataUpdateJs];
    }
  }
}
