/**
 * `ThreedSimulationWidgetSettingsComponent`: the settings editor of the
 * simulation widget. It keeps three lists the user edits in place: the 3D
 * models (by name), the links between an entity alias and a model, and the
 * scripts, one of which is open in the code editor (`activeScript`, with its
 * text in the `jsTextFunction` control).
 */
module SimulationWidgetSettings {
  import opened Wrappers
  import opened JsValues
  import VrUi

  /** The messages of the errors thrown below. */
  const UndefinedEntityAlias: string := "TypeError: Cannot read properties of undefined (reading 'entityAlias')"

  // ---- models ------------------------------------------------------------------

  datatype NamedModel = NamedModel(name: string, base64: string)

  /**
   * `findIndex(o => o.name == name)` over a list whose entries carry a name
   * (`nameOf`): the first index with that name, or -1.
   */
  function IndexByName<T>(s: seq<T>, nameOf: T -> string, name: string): (r: int)
    ensures -1 <= r < |s|
    ensures r >= 0 ==> nameOf(s[r]) == name
    ensures forall j :: 0 <= j < |s| && (r < 0 || j < r) ==> nameOf(s[j]) != name
  {
    if |s| == 0 then -1
    else if nameOf(s[0]) == name then 0
    else
      var r := IndexByName(s[1..], nameOf, name);
      assert forall j :: 1 <= j < |s| ==> s[j] == s[1..][j - 1];
      if r < 0 then -1 else r + 1
  }

  /** `models.findIndex(m => m.name == name)`: the first index with that name, or -1. */
  function ModelIndex(models: seq<NamedModel>, name: string): (r: int)
    ensures -1 <= r < |models|
    ensures r >= 0 ==> models[r].name == name
    ensures forall j :: 0 <= j < |models| && (r < 0 || j < r) ==> models[j].name != name
  {
    IndexByName(models, (m: NamedModel) => m.name, name)
  }

  predicate DistinctModelNames(models: seq<NamedModel>)
  {
    forall i, j :: 0 <= i < j < |models| ==> models[i].name != models[j].name
  }

  /**
   * `addModel`, with `model` the model control's data and `name` the name
   * typed beside it: both are needed, and a model goes last only if none
   * has that name yet.
   */
  function ModelAdded(models: seq<NamedModel>, model: Option<string>, name: Option<string>): (r: seq<NamedModel>)
    ensures |models| <= |r| <= |models| + 1 && r[..|models|] == models
    ensures |r| == |models| + 1 <==> TruthyStr(model) && TruthyStr(name) && ModelIndex(models, name.value) < 0
    ensures |r| == |models| + 1 ==> r[|models|] == NamedModel(name.value, model.value)
    ensures DistinctModelNames(models) ==> DistinctModelNames(r)
  {
    if !TruthyStr(model) || !TruthyStr(name) then models
    else if ModelIndex(models, name.value) < 0 then
      assert (models + [NamedModel(name.value, model.value)])[..|models|] == models;
      models + [NamedModel(name.value, model.value)]
    else
      assert models[..|models|] == models;
      models
  }

  /** `deleteModel`: without a name nothing happens; otherwise the first model with that name goes. */
  function ModelDeleted(models: seq<NamedModel>, name: Option<string>): (r: seq<NamedModel>)
    ensures !TruthyStr(name) || ModelIndex(models, name.value) < 0 ==> r == models
    ensures TruthyStr(name) && ModelIndex(models, name.value) >= 0 ==>
              |r| == |models| - 1 && multiset(r) == multiset(models) - multiset{models[ModelIndex(models, name.value)]}
  {
    if !TruthyStr(name) then models
    else
      var i := ModelIndex(models, name.value);
      if i < 0 then models
      else
        assert models == models[..i] + [models[i]] + models[i + 1..];
        var r := models[..i] + models[i + 1..];
        assert forall j :: 0 <= j < |r| ==> r[j] == (if j < i then models[j] else models[j + 1]);
        r
  }

  /** With distinct names, deleting by a name leaves no model of that name, and the names stay distinct. */
  lemma DeleteModelRemovesName(models: seq<NamedModel>, name: string)
    requires DistinctModelNames(models) && name != ""
    ensures DistinctModelNames(ModelDeleted(models, Some(name)))
    ensures forall j :: 0 <= j < |ModelDeleted(models, Some(name))| ==> ModelDeleted(models, Some(name))[j].name != name
  {
    var i := ModelIndex(models, name);
    if i >= 0 {
      var r := models[..i] + models[i + 1..];
      assert ModelDeleted(models, Some(name)) == r;
      forall j | 0 <= j < |r|
        ensures r[j] == models[if j < i then j else j + 1]
      {
      }
      forall a, b | 0 <= a < b < |r|
        ensures r[a].name != r[b].name
      {
        assert r[a] == models[if a < i then a else a + 1];
        assert r[b] == models[if b < i then b else b + 1];
      }
      forall j | 0 <= j < |r|
        ensures r[j].name != name
      {
        assert r[j] == models[if j < i then j else j + 1];
      }
    }
  }

  /** Adding a new model and deleting it by its name gives the list back. */
  lemma AddThenDeleteModel(models: seq<NamedModel>, model: string, name: string)
    requires model != "" && name != "" && ModelIndex(models, name) < 0
    ensures ModelDeleted(ModelAdded(models, Some(model), Some(name)), Some(name)) == models
  {
    var added := models + [NamedModel(name, model)];
    assert ModelAdded(models, Some(model), Some(name)) == added;
    ModelIndexOfAppended(models, NamedModel(name, model));
    DeletedLast(added, name);
    assert added[..|models|] == models;
  }

  /** With distinct names, deleting by the name a row shows removes exactly that row. */
  lemma ShowThenDeleteModel(models: seq<NamedModel>, k: nat)
    requires DistinctModelNames(models) && k < |models| && models[k].name != ""
    ensures ModelDeleted(models, Some(models[k].name)) == models[..k] + models[k + 1..]
  {
    var i := ModelIndex(models, models[k].name);
    assert 0 <= i <= k;
    assert i == k;
  }

  /** Deleting by the name found only at the end drops the last model. */
  lemma DeletedLast(models: seq<NamedModel>, name: string)
    requires name != "" && |models| > 0 && ModelIndex(models, name) == |models| - 1
    ensures ModelDeleted(models, Some(name)) == models[..|models| - 1]
  {
    assert models[|models|..] == [];
    assert models[..|models| - 1] + models[|models|..] == models[..|models| - 1];
  }

  /** A model appended under a name no earlier model has is found at the end. */
  lemma ModelIndexOfAppended(models: seq<NamedModel>, m: NamedModel)
    requires ModelIndex(models, m.name) < 0
    ensures ModelIndex(models + [m], m.name) == |models|
  {
    var ms := models + [m];
    assert ms[|models|].name == m.name;
    assert forall j :: 0 <= j < |models| ==> ms[j] == models[j];
  }

  // ---- links -------------------------------------------------------------------

  /**
   * The value of the alias control: the alias picker's `{ entityAlias }`, a
   * bare string (the default "", or the entity of a shown link), or
   * `undefined` after a deletion.
   */
  datatype AliasValue = AliasObject(entityAlias: Option<string>) | AliasText(text: string) | AliasUndefined

  /** A row of the link table; the entity is `undefined` when the alias control held a string. */
  datatype Link = Link(entity: Option<string>, model: string)

  /** `o.entity == value` with JavaScript's loose equality: an object compares as "[object Object]". */
  predicate LooseEquals(entity: Option<string>, value: AliasValue)
  {
    match value
    case AliasObject(_) => entity == Some("[object Object]")
    case AliasText(t) => entity == Some(t)
    case AliasUndefined => entity.None?
  }

  /** `dataSource.findIndex(o => o.entity == entity && o.model == model)`. */
  function LinkIndex(links: seq<Link>, entity: AliasValue, model: string): (r: int)
    ensures -1 <= r < |links|
    ensures r >= 0 ==> LooseEquals(links[r].entity, entity) && links[r].model == model
    ensures forall j :: 0 <= j < |links| && (r < 0 || j < r) ==> !(LooseEquals(links[j].entity, entity) && links[j].model == model)
  {
    if links == [] then -1
    else if LooseEquals(links[0].entity, entity) && links[0].model == model then 0
    else
      var r := LinkIndex(links[1..], entity, model);
      assert forall j :: 1 <= j < |links| ==> links[j] == links[1..][j - 1];
      if r < 0 then -1 else r + 1
  }

  /**
   * `addLink`: the new row takes the alias control's `entityAlias` (none for
   * a string) and the selected model; reading it off `undefined` throws
   * before anything is added.
   */
  function LinkAdded(links: seq<Link>, alias: AliasValue, selected: string): (r: Result<seq<Link>>)
    ensures r.Failure? <==> alias.AliasUndefined?
    ensures r.Success? ==> |r.value| == |links| + 1 && r.value[..|links|] == links && r.value[|links|].model == selected
    ensures r.Success? ==> r.value[|links|].entity == (if alias.AliasObject? then alias.entityAlias else None)
  {
    match alias
    case AliasUndefined => Failure(UndefinedEntityAlias)
    case AliasObject(a) =>
      assert (links + [Link(a, selected)])[..|links|] == links;
      Success(links + [Link(a, selected)])
    case AliasText(_) =>
      assert (links + [Link(None, selected)])[..|links|] == links;
      Success(links + [Link(None, selected)])
  }

  /** `deleteLink`: the first row matching the alias control and the selected model goes. */
  function LinkDeleted(links: seq<Link>, alias: AliasValue, selected: string): (r: seq<Link>)
    ensures LinkIndex(links, alias, selected) < 0 ==> r == links
    ensures LinkIndex(links, alias, selected) >= 0 ==>
              |r| == |links| - 1 && multiset(r) == multiset(links) - multiset{links[LinkIndex(links, alias, selected)]}
  {
    var i := LinkIndex(links, alias, selected);
    if i < 0 then links
    else
      assert links == links[..i] + [links[i]] + links[i + 1..];
      links[..i] + links[i + 1..]
  }

  /** `visualiseLink(row)`: the alias control takes the row's entity as it is. */
  function ShownAlias(row: Link): (v: AliasValue)
    ensures forall e :: LooseEquals(e, v) <==> e == row.entity
  {
    if row.entity.Some? then AliasText(row.entity.value) else AliasUndefined
  }

  /**
   * Showing a row and then deleting removes one copy of that row: the
   * first row equal to it.
   */
  lemma ShowThenDeleteLink(links: seq<Link>, i: nat)
    requires i < |links|
    ensures var r := LinkDeleted(links, ShownAlias(links[i]), links[i].model);
            |r| == |links| - 1 && multiset(r) == multiset(links) - multiset{links[i]}
  {
    var shown := ShownAlias(links[i]);
    assert LooseEquals(links[i].entity, shown);
    var k := LinkIndex(links, shown, links[i].model);
    assert 0 <= k <= i;
    assert links[k].entity == links[i].entity && links[k].model == links[i].model;
    assert links[k] == links[i];
  }

  /**
   * While the alias control holds the picker's object, deleting removes a
   * row only if its entity is the text "[object Object]": a row must be
   * shown before it can be deleted.
   */
  lemma DeleteWithPickedAliasKeepsLinks(links: seq<Link>, a: Option<string>, selected: string)
    requires forall j :: 0 <= j < |links| ==> links[j].entity != Some("[object Object]")
    ensures LinkDeleted(links, AliasObject(a), selected) == links
  {
  }

  // ---- scripts -----------------------------------------------------------------

  /** A script of the settings; the body is `undefined` once an undefined editor text is written back. */
  datatype Script = Script(name: string, body: Option<string>)

  /** `scripts.findIndex(o => o.name == name)`. */
  function ScriptIndex(scripts: seq<Script>, name: string): (r: int)
    ensures -1 <= r < |scripts|
    ensures r >= 0 ==> scripts[r].name == name
    ensures forall j :: 0 <= j < |scripts| && (r < 0 || j < r) ==> scripts[j].name != name
  {
    IndexByName(scripts, (s: Script) => s.name, name)
  }

  predicate DistinctScriptNames(scripts: seq<Script>)
  {
    forall i, j :: 0 <= i < j < |scripts| ==> scripts[i].name != scripts[j].name
  }

  /** The scripts, the name of the open one (`activeScript`), and the editor text (`jsTextFunction`). */
  datatype ScriptEditor = ScriptEditor(scripts: seq<Script>, active: Option<string>, jsText: Option<string>)

  /**
   * `selectScript(script)`: the editor text is first written back into the
   * first script named like the open one, then `script` is opened.
   */
  function Selected(e: ScriptEditor, script: Script): (r: ScriptEditor)
    ensures r.active == Some(script.name) && r.jsText == script.body && |r.scripts| == |e.scripts|
    ensures forall j :: 0 <= j < |e.scripts| ==> r.scripts[j].name == e.scripts[j].name
    ensures e.active.Some? && ScriptIndex(e.scripts, e.active.value) >= 0 ==>
              r.scripts[ScriptIndex(e.scripts, e.active.value)].body == e.jsText
    ensures forall j :: 0 <= j < |e.scripts| && (e.active.None? || j != ScriptIndex(e.scripts, e.active.value)) ==>
              r.scripts[j] == e.scripts[j]
  {
    var i := if e.active.Some? then ScriptIndex(e.scripts, e.active.value) else -1;
    var scripts := if i >= 0 then e.scripts[i := e.scripts[i].(body := e.jsText)] else e.scripts;
    ScriptEditor(scripts, Some(script.name), script.body)
  }

  /**
   * Switching scripts loses no edit: after opening another script, opening
   * the first again brings back the text it was left with.
   */
  lemma SwitchBackKeepsEdit(e: ScriptEditor, other: Script)
    requires e.active.Some? && ScriptIndex(e.scripts, e.active.value) >= 0
    ensures var i := ScriptIndex(e.scripts, e.active.value);
            var away := Selected(e, other);
            Selected(away, away.scripts[i]).jsText == e.jsText &&
            Selected(away, away.scripts[i]).active == e.active
  {
  }

  predicate NoUpper(s: string)
  {
    forall k :: 0 <= k < |s| ==> !('A' <= s[k] <= 'Z')
  }

  /** JavaScript's `toLowerCase` on ASCII letters; every other character is kept. */
  function LowerAscii(s: string): (r: string)
    ensures |r| == |s| && NoUpper(r)
    ensures forall k :: 0 <= k < |s| ==> r[k] == (if 'A' <= s[k] <= 'Z' then (s[k] as int + 32) as char else s[k])
  {
    seq(|s|, k requires 0 <= k < |s| => if 'A' <= s[k] <= 'Z' then (s[k] as int + 32) as char else s[k])
  }

  /** `trimStart`: the leading whitespace removed. */
  function TrimStart(s: string): (r: string)
    ensures |r| <= |s| && r == s[|s| - |r|..]
    ensures r != [] ==> !VrUi.IsSpace(r[0])
    ensures forall k :: 0 <= k < |s| - |r| ==> VrUi.IsSpace(s[k])
  {
    if s != [] && VrUi.IsSpace(s[0]) then
      var r := TrimStart(s[1..]);
      assert forall k :: 1 <= k < |s| ==> s[k] == s[1..][k - 1];
      r
    else s
  }

  /** `trimEnd`: the trailing whitespace removed. */
  function TrimEnd(s: string): (r: string)
    ensures |r| <= |s| && r == s[..|r|]
    ensures r != [] ==> !VrUi.IsSpace(r[|r| - 1])
    ensures forall k :: |r| <= k < |s| ==> VrUi.IsSpace(s[k])
  {
    if s != [] && VrUi.IsSpace(s[|s| - 1]) then
      var r := TrimEnd(s[..|s| - 1]);
      assert s[..|s| - 1][..|r|] == s[..|r|];
      r
    else s
  }

  /** `trim`. */
  function Trim(s: string): (r: string)
    ensures |r| <= |s|
    ensures r != [] ==> !VrUi.IsSpace(r[0]) && !VrUi.IsSpace(r[|r| - 1])
    ensures (forall k :: 0 <= k < |s| ==> !VrUi.IsSpace(s[k])) ==> r == s
    ensures (forall k :: 0 <= k < |s| ==> VrUi.IsSpace(s[k])) ==> r == []
  {
    TrimEnd(TrimStart(s))
  }

  lemma TrimKeepsNoUpper(s: string)
    requires NoUpper(s)
    ensures NoUpper(Trim(s))
  {
    var start := TrimStart(s);
    NoUpperSlice(s, |s| - |start|, |s|);
    var t := TrimEnd(start);
    NoUpperSlice(start, 0, |t|);
  }

  lemma NoUpperSlice(s: string, a: nat, b: nat)
    requires NoUpper(s) && a <= b <= |s|
    ensures NoUpper(s[a..b])
  {
    forall k | 0 <= k < b - a
      ensures !('A' <= s[a..b][k] <= 'Z')
    {
      assert s[a..b][k] == s[a + k];
    }
  }

  predicate AsciiLetter(c: char)
  {
    'a' <= c <= 'z' || 'A' <= c <= 'Z'
  }

  /** `/^[a-zA-Z\s]+$/.test(name)`. */
  predicate LettersAndSpaces(name: string)
  {
    |name| > 0 && forall k :: 0 <= k < |name| ==> AsciiLetter(name[k]) || VrUi.IsSpace(name[k])
  }

  /**
   * The file name the script dialog's answer yields, without ".js": the
   * answer lowercased and trimmed, refused when missing or empty or when
   * anything but letters and whitespace remains.
   */
  function ScriptFileName(answer: Option<string>): (r: Option<string>)
    ensures r.Some? ==> TruthyStr(answer) && r.value == Trim(LowerAscii(answer.value))
    ensures r.Some? ==> r.value != "" && !VrUi.IsSpace(r.value[0]) && !VrUi.IsSpace(r.value[|r.value| - 1])
    ensures r.Some? ==> LettersAndSpaces(r.value) && NoUpper(r.value)
    ensures TruthyStr(answer) && LettersAndSpaces(Trim(LowerAscii(answer.value))) ==> r.Some?
  {
    if !TruthyStr(answer) then None
    else
      var name := Trim(LowerAscii(answer.value));
      if !LettersAndSpaces(name) then None
      else if |name| == 0 then None
      else
        TrimKeepsNoUpper(LowerAscii(answer.value));
        Some(name)
  }

  /** A name the dialog accepted is accepted again unchanged. */
  lemma ScriptFileNameIdempotent(answer: Option<string>)
    requires ScriptFileName(answer).Some?
    ensures ScriptFileName(ScriptFileName(answer)).Some?
    ensures ScriptFileName(ScriptFileName(answer)) == ScriptFileName(answer)
  {
    var n := ScriptFileName(answer).value;
    assert NoUpper(n);
    assert LettersAndSpaces(n);
    AcceptedNameFixed(n);
  }

  lemma AcceptedNameFixed(n: string)
    requires n != "" && NoUpper(n) && LettersAndSpaces(n)
    requires !VrUi.IsSpace(n[0]) && !VrUi.IsSpace(n[|n| - 1])
    ensures ScriptFileName(Some(n)) == Some(n)
  {
    LowerOfLower(n);
    TrimOfTrimmed(n);
    assert Trim(LowerAscii(n)) == n;
  }

  lemma LowerOfLower(n: string)
    requires NoUpper(n)
    ensures LowerAscii(n) == n
  {
  }

  lemma TrimOfTrimmed(n: string)
    requires n != [] && !VrUi.IsSpace(n[0]) && !VrUi.IsSpace(n[|n| - 1])
    ensures Trim(n) == n
  {
    assert TrimStart(n) == n;
  }

  /** ".js" occurs in `name` at index `k`. */
  predicate JsAt(name: string, k: int)
  {
    0 <= k && k + 3 <= |name| && name[k] == '.' && name[k + 1] == 'j' && name[k + 2] == 's'
  }

  /** The first index of ".js" in `name` from `from` on, or -1. */
  function JsIndex(name: string, from: nat): (r: int)
    requires from <= |name|
    ensures r == -1 || (from <= r && JsAt(name, r))
    ensures forall k :: from <= k && (r < 0 || k < r) ==> !JsAt(name, k)
    decreases |name| - from
  {
    if from + 3 > |name| then -1
    else if JsAt(name, from) then from
    else JsIndex(name, from + 1)
  }

  /** `name.replace(".js", "")`: the first ".js" removed. */
  function StripJs(name: string): (r: string)
    ensures JsIndex(name, 0) < 0 ==> r == name
    ensures JsIndex(name, 0) >= 0 ==> |r| == |name| - 3
  {
    var k := JsIndex(name, 0);
    if k < 0 then name else name[..k] + name[k + 3..]
  }

  /** A file name made by the dialog has no '.', so stripping ".js" off it with ".js" appended gives it back. */
  lemma StripJsOfFileName(base: string)
    requires forall k :: 0 <= k < |base| ==> base[k] != '.'
    ensures StripJs(base + ".js") == base
  {
    var s := base + ".js";
    assert JsAt(s, |base|);
    assert forall k :: 0 <= k < |base| ==> s[k] == base[k];
    assert JsIndex(s, 0) == |base|;
    assert s[..|base|] == base;
  }

  /**
   * `addScript(oldName)` once the dialog closes with `answer`: an accepted
   * name renames the first script called `oldName` + ".js" and opens it
   * when editing, and otherwise adds an empty script of that name unless
   * one exists.
   */
  function ScriptAdded(e: ScriptEditor, oldName: Option<string>, answer: Option<string>): (r: ScriptEditor)
    ensures ScriptFileName(answer).None? ==> r == e
    ensures r.jsText == e.jsText
    ensures oldName.None? ==> r.active == e.active
    ensures oldName.Some? ==> |r.scripts| == |e.scripts|
  {
    var name := ScriptFileName(answer);
    if name.None? then e
    else
      var fileName := name.value + ".js";
      if oldName.Some? then
        var i := ScriptIndex(e.scripts, oldName.value + ".js");
        if i >= 0 then ScriptEditor(e.scripts[i := e.scripts[i].(name := fileName)], Some(fileName), e.jsText)
        else e
      else if ScriptIndex(e.scripts, fileName) < 0 then
        ScriptEditor(e.scripts + [Script(fileName, Some(""))], e.active, e.jsText)
      else
        e
  }

  /** Appending a script under a name no script has keeps the names distinct. */
  lemma AppendUnnamedKeepsDistinct(scripts: seq<Script>, s: Script)
    requires ScriptIndex(scripts, s.name) < 0
    ensures DistinctScriptNames(scripts) ==> DistinctScriptNames(scripts + [s])
  {
    var t := scripts + [s];
    if DistinctScriptNames(scripts) {
      forall i, j | 0 <= i < j < |t|
        ensures t[i].name != t[j].name
      {
        if j == |scripts| {
          assert t[i] == scripts[i];
        } else {
          assert t[i] == scripts[i] && t[j] == scripts[j];
        }
      }
    }
  }

  /**
   * Adding (no old name) keeps the scripts there, appends at most one
   * empty script under the new file name, leaves a script of that name in
   * the list whenever the answer is accepted, and keeps names distinct.
   */
  lemma ScriptAddedAppends(e: ScriptEditor, answer: Option<string>)
    ensures |e.scripts| <= |ScriptAdded(e, None, answer).scripts| <= |e.scripts| + 1
    ensures ScriptAdded(e, None, answer).scripts[..|e.scripts|] == e.scripts
    ensures |ScriptAdded(e, None, answer).scripts| == |e.scripts| + 1 ==>
              ScriptAdded(e, None, answer).scripts[|e.scripts|] == Script(ScriptFileName(answer).value + ".js", Some(""))
    ensures ScriptFileName(answer).Some? ==> ScriptIndex(ScriptAdded(e, None, answer).scripts, ScriptFileName(answer).value + ".js") >= 0
    ensures DistinctScriptNames(e.scripts) ==> DistinctScriptNames(ScriptAdded(e, None, answer).scripts)
  {
    var r := ScriptAdded(e, None, answer);
    if ScriptFileName(answer).None? {
      assert r.scripts[..|e.scripts|] == e.scripts;
      return;
    }
    var fileName := ScriptFileName(answer).value + ".js";
    if ScriptIndex(e.scripts, fileName) < 0 {
      var added := Script(fileName, Some(""));
      assert r.scripts == e.scripts + [added];
      assert r.scripts[..|e.scripts|] == e.scripts;
      assert ScriptIndex(r.scripts, fileName) >= 0 by {
        assert r.scripts[|e.scripts|].name == fileName;
      }
      AppendUnnamedKeepsDistinct(e.scripts, added);
    } else {
      assert r == e;
      assert r.scripts[..|e.scripts|] == e.scripts;
    }
  }

  /** `editScript` with the dialog's answer: refused with no open script or with "main.js" open. */
  function ScriptEdited(e: ScriptEditor, answer: Option<string>): (r: ScriptEditor)
    ensures e.active.None? || e.active == Some("main.js") ==> r == e
    ensures |r.scripts| == |e.scripts|
  {
    if e.active.None? || e.active.value == "main.js" then e
    else ScriptAdded(e, Some(StripJs(e.active.value)), answer)
  }

  lemma MainOnlyFromMain(base: string)
    ensures base + ".js" == "main.js" ==> base == "main"
  {
    if base + ".js" == "main.js" {
      assert base == (base + ".js")[..|base|];
      assert |base| == 4;
    }
  }

  /**
   * Editing the open script of a dialog-made name renames exactly that
   * script (the first with its name) to the accepted name and keeps it
   * open; nothing else changes.
   */
  lemma EditRenamesOpenScript(e: ScriptEditor, base: string, answer: Option<string>)
    requires e.active == Some(base + ".js") && base != "main"
    requires forall k :: 0 <= k < |base| ==> base[k] != '.'
    requires ScriptFileName(answer).Some? && ScriptIndex(e.scripts, base + ".js") >= 0
    ensures var i := ScriptIndex(e.scripts, base + ".js");
            var r := ScriptEdited(e, answer);
            r.active == Some(ScriptFileName(answer).value + ".js") &&
            r.scripts == e.scripts[i := Script(ScriptFileName(answer).value + ".js", e.scripts[i].body)]
  {
    MainOnlyFromMain(base);
    StripJsOfFileName(base);
    assert ScriptEdited(e, answer) == ScriptAdded(e, Some(base), answer);
    var i := ScriptIndex(e.scripts, base + ".js");
    var fileName := ScriptFileName(answer).value + ".js";
    assert ScriptAdded(e, Some(base), answer) == ScriptEditor(e.scripts[i := e.scripts[i].(name := fileName)], Some(fileName), e.jsText);
  }

  /** `i` is the position of the first script called `name`. */
  predicate FirstNamed(scripts: seq<Script>, name: string, i: int)
  {
    0 <= i < |scripts| && scripts[i].name == name && forall j :: 0 <= j < i ==> scripts[j].name != name
  }

  /** `deleteScript`: refused with no open script or with "main.js" open; otherwise the first script with the open name goes. */
  function ScriptDeleted(e: ScriptEditor): (r: ScriptEditor)
    ensures e.active.None? || e.active == Some("main.js") ==> r == e
    ensures e.active.Some? && e.active.value != "main.js" ==>
              if exists s :: s in e.scripts && s.name == e.active.value
              then exists i :: FirstNamed(e.scripts, e.active.value, i) && r.scripts == e.scripts[..i] + e.scripts[i + 1..]
              else r == e
    ensures r.active == e.active && r.jsText == e.jsText
    ensures multiset(r.scripts) <= multiset(e.scripts) && |e.scripts| - 1 <= |r.scripts|
    ensures forall s :: s in e.scripts && s.name == "main.js" ==> s in r.scripts
  {
    if e.active.None? || e.active.value == "main.js" then e
    else
      var i := ScriptIndex(e.scripts, e.active.value);
      if i < 0 then e
      else
        assert e.scripts == e.scripts[..i] + [e.scripts[i]] + e.scripts[i + 1..];
        var r := e.scripts[..i] + e.scripts[i + 1..];
        assert forall s :: s in e.scripts && s != e.scripts[i] ==> s in r;
        assert FirstNamed(e.scripts, e.active.value, i);
        ScriptEditor(r, e.active, e.jsText)
  }

  // ---- onSettingsSet -----------------------------------------------------------

  /** The settings object of the simulation widget. */
  datatype WidgetSettings = WidgetSettings(
    models: seq<NamedModel>,
    scripts: seq<Script>,
    modelUrl: Option<string>,
    entityAlias: AliasValue,
    selectedModelForLink: string,
    jsTextFunction: Option<string>)

  const MainScriptBody: string := "(async function() { await new Promise(resolve => setTimeout(resolve, 1000)); console.log('hello'); })();"

  /** `defaultSettings`: no models, the single script "main.js", empty alias, model and text. */
  function DefaultWidgetSettings(): (s: WidgetSettings)
    ensures s.models == [] && s.scripts == [Script("main.js", Some(MainScriptBody))]
    ensures s.modelUrl.None? && s.entityAlias == AliasText("") && s.selectedModelForLink == "" && s.jsTextFunction == Some("")
  {
    WidgetSettings([], [Script("main.js", Some(MainScriptBody))], None, AliasText(""), "", Some(""))
  }

  /** `onSettingsSet` as written: the first entry of the MODEL list is opened as a script. */
  function OpenedOnSetAsWritten(s: WidgetSettings): ScriptEditor
  {
    var e := ScriptEditor(s.scripts, None, s.jsTextFunction);
    if |s.models| > 0 then Selected(e, Script(s.models[0].name, None)) else e
  }

  /** `onSettingsSet` as intended: the first script is opened. */
  function OpenedOnSet(s: WidgetSettings): (r: ScriptEditor)
    ensures r.scripts == s.scripts
    ensures |s.scripts| > 0 ==> r.active == Some(s.scripts[0].name) && r.jsText == s.scripts[0].body
    ensures |s.scripts| == 0 ==> r.active.None? && r.jsText == s.jsTextFunction
  {
    var e := ScriptEditor(s.scripts, None, s.jsTextFunction);
    if |s.scripts| > 0 then Selected(e, s.scripts[0]) else e
  }

  /**
   * With the default scripts and one model "chair", the settings open as
   * written on "chair", which names no script, with no editor text; with the
   * model list empty, "main.js" is not opened at all. Opening the first
   * script instead opens "main.js" with its text.
   */
  lemma OpenFirstModelAsWritten()
    ensures var s := DefaultWidgetSettings().(models := [NamedModel("chair", "Z2xURg==")]);
            var e := OpenedOnSetAsWritten(s);
            e.active == Some("chair") && e.jsText.None? && ScriptIndex(e.scripts, "chair") < 0
    ensures OpenedOnSetAsWritten(DefaultWidgetSettings()).active.None?
    ensures var s := DefaultWidgetSettings().(models := [NamedModel("chair", "Z2xURg==")]);
            OpenedOnSet(s).active == Some("main.js") && OpenedOnSet(s).jsText == Some(MainScriptBody)
    ensures OpenedOnSet(DefaultWidgetSettings()).active == Some("main.js")
  {
    var s := DefaultWidgetSettings().(models := [NamedModel("chair", "Z2xURg==")]);
    assert s.scripts[0].name == "main.js";
    assert "main.js"[0] != "chair"[0];
  }

  // ---- searches on plain values ------------------------------------------------

  method FindModel(models: seq<NamedModel>, name: string) returns (i: int)
    ensures i == ModelIndex(models, name)
  {
    i := 0;
    while i < |models| && models[i].name != name
      invariant 0 <= i <= |models|
      invariant forall j :: 0 <= j < i ==> models[j].name != name
    {
      i := i + 1;
    }
    if i == |models| {
      i := -1;
    }
  }

  method FindLink(links: seq<Link>, entity: AliasValue, model: string) returns (i: int)
    ensures i == LinkIndex(links, entity, model)
  {
    i := 0;
    while i < |links| && !(LooseEquals(links[i].entity, entity) && links[i].model == model)
      invariant 0 <= i <= |links|
      invariant forall j :: 0 <= j < i ==> !(LooseEquals(links[j].entity, entity) && links[j].model == model)
    {
      i := i + 1;
    }
    if i == |links| {
      i := -1;
    }
  }

  method FindScript(scripts: seq<Script>, name: string) returns (i: int)
    ensures i == ScriptIndex(scripts, name)
  {
    i := 0;
    while i < |scripts| && scripts[i].name != name
      invariant 0 <= i <= |scripts|
      invariant forall j :: 0 <= j < i ==> scripts[j].name != name
    {
      i := i + 1;
    }
    if i == |scripts| {
      i := -1;
    }
  }

  /** The dialog answer's checks in `addScript`, in their order. */
  method CheckScriptName(answer: Option<string>) returns (name: Option<string>)
    ensures name == ScriptFileName(answer)
  {
    if !TruthyStr(answer) {
      return None;
    }
    var fileName := Trim(LowerAscii(answer.value));
    if !LettersAndSpaces(fileName) {
      return None;
    }
    if |fileName| == 0 {
      return None;
    }
    name := Some(fileName);
  }

  // ---- the component -----------------------------------------------------------

  class ThreedSimulationWidgetSettings {
    var models: seq<NamedModel>
    var scripts: seq<Script>
    var modelUrl: Option<string>
    /** `modelInput.name`, the file name shown in the model input. */
    var modelName: Option<string>
    var entityAlias: AliasValue
    var selectedModelForLink: string
    var jsText: Option<string>
    /** `dataSource`, the link table. */
    var links: seq<Link>
    /** The name of `activeScript`. */
    var activeName: Option<string>

    function Editor(): ScriptEditor
      reads this
    {
      ScriptEditor(scripts, activeName, jsText)
    }

    /** `onSettingsSet`, opening the first script. */
    constructor(settings: WidgetSettings)
      ensures models == settings.models && modelUrl == settings.modelUrl && entityAlias == settings.entityAlias
      ensures selectedModelForLink == settings.selectedModelForLink && links == [] && modelName.None?
      ensures Editor() == OpenedOnSet(settings)
    {
      models, scripts, modelUrl, modelName := settings.models, settings.scripts, settings.modelUrl, None;
      entityAlias, selectedModelForLink, jsText := settings.entityAlias, settings.selectedModelForLink, settings.jsTextFunction;
      links, activeName := [], None;
      new;
      if |scripts| > 0 {
        SelectScript(scripts[0]);
      }
    }

    /**
     * `modelInput.clearImage()`: the input forgets its name and propagates
     * null to the form control it is bound to, `modelUrl`.
     */
    method ClearImage()
      modifies this`modelName, this`modelUrl
      ensures modelName.None? && modelUrl.None?
    {
      modelName, modelUrl := None, None;
    }

    /**
     * `addModel`: the model control's data and the input's name are both
     * needed; then the model goes last unless its name is taken, and the
     * input is cleared either way.
     */
    method AddModel()
      modifies this`models, this`modelName, this`modelUrl
      ensures models == ModelAdded(old(models), old(modelUrl), old(modelName))
      ensures TruthyStr(old(modelUrl)) && TruthyStr(old(modelName)) ==> modelName.None? && modelUrl.None?
      ensures !(TruthyStr(old(modelUrl)) && TruthyStr(old(modelName))) ==> modelName == old(modelName) && modelUrl == old(modelUrl)
      ensures Editor() == old(Editor())
    {
      if !TruthyStr(modelUrl) || !TruthyStr(modelName) {
        return;
      }
      var i := FindModel(models, modelName.value);
      if i == -1 {
        models := models + [NamedModel(modelName.value, modelUrl.value)];
      }
      ClearImage();
    }

    /**
     * `deleteModel`: with a name in the input, the first model of that name
     * goes and the input is cleared; without one nothing happens.
     */
    method DeleteModel()
      modifies this`models, this`modelName, this`modelUrl
      ensures models == ModelDeleted(old(models), old(modelName))
      ensures TruthyStr(old(modelName)) ==> modelName.None? && modelUrl.None?
      ensures !TruthyStr(old(modelName)) ==> modelName == old(modelName) && modelUrl == old(modelUrl)
      ensures Editor() == old(Editor())
    {
      if !TruthyStr(modelName) {
        return;
      }
      var i := FindModel(models, modelName.value);
      if i != -1 {
        models := models[..i] + models[i + 1..];
      }
      ClearImage();
    }

    /**
     * `visualiseModel`: the input is cleared, which nulls `modelUrl`, and
     * then shows the model's data and name; `writeValue` does not propagate,
     * so `modelUrl` stays null.
     */
    method VisualiseModel(model: NamedModel)
      modifies this`modelName, this`modelUrl
      ensures modelName == Some(model.name) && modelUrl.None?
      ensures models == old(models) && Editor() == old(Editor())
    {
      ClearImage();
      modelName := Some(model.name);
    }

    /** `addLink`; `ok` is false when reading the alias throws, and then nothing changes. */
    method AddLink() returns (ok: bool)
      modifies this`links, this`selectedModelForLink
      ensures ok <==> LinkAdded(old(links), old(entityAlias), old(selectedModelForLink)).Success?
      ensures ok ==> links == LinkAdded(old(links), old(entityAlias), old(selectedModelForLink)).value && selectedModelForLink == ""
      ensures !ok ==> links == old(links) && selectedModelForLink == old(selectedModelForLink)
      ensures Editor() == old(Editor())
    {
      if entityAlias.AliasUndefined? {
        return false;
      }
      var entity := if entityAlias.AliasObject? then entityAlias.entityAlias else None;
      links := links + [Link(entity, selectedModelForLink)];
      selectedModelForLink := "";
      ok := true;
    }

    method VisualiseLink(row: Link)
      modifies this`entityAlias, this`selectedModelForLink
      ensures entityAlias == ShownAlias(row) && selectedModelForLink == row.model
      ensures Editor() == old(Editor())
    {
      entityAlias := if row.entity.Some? then AliasText(row.entity.value) else AliasUndefined;
      selectedModelForLink := row.model;
    }

    /** `deleteLink`: the matching row goes, and the alias and model controls are cleared. */
    method DeleteLink()
      modifies this`links, this`entityAlias, this`selectedModelForLink
      ensures links == LinkDeleted(old(links), old(entityAlias), old(selectedModelForLink))
      ensures entityAlias == AliasUndefined && selectedModelForLink == ""
      ensures Editor() == old(Editor())
    {
      var i := FindLink(links, entityAlias, selectedModelForLink);
      if i != -1 {
        links := links[..i] + links[i + 1..];
      }
      entityAlias := AliasUndefined;
      selectedModelForLink := "";
    }

    method SelectScript(script: Script)
      modifies this`scripts, this`activeName, this`jsText
      ensures Editor() == Selected(old(Editor()), script)
    {
      if activeName.Some? {
        var i := FindScript(scripts, activeName.value);
        if i != -1 {
          scripts := scripts[i := scripts[i].(body := jsText)];
        }
      }
      activeName := Some(script.name);
      jsText := script.body;
    }

    /** `addScript(oldName)` once the dialog closes with `answer`. */
    method AddScript(oldName: Option<string>, answer: Option<string>)
      modifies this`scripts, this`activeName
      ensures Editor() == ScriptAdded(old(Editor()), oldName, answer)
    {
      var name := CheckScriptName(answer);
      if name.None? {
        return;
      }
      var fileName := name.value;
      if oldName.Some? {
        var i := FindScript(scripts, oldName.value + ".js");
        if i != -1 {
          scripts := scripts[i := scripts[i].(name := fileName + ".js")];
          activeName := Some(scripts[i].name);
        }
      } else {
        var i := FindScript(scripts, fileName + ".js");
        if i == -1 {
          scripts := scripts + [Script(fileName + ".js", Some(""))];
        }
      }
    }

    /** `editScript` once the dialog closes with `answer`. */
    method EditScript(answer: Option<string>)
      modifies this`scripts, this`activeName
      ensures Editor() == ScriptEdited(old(Editor()), answer)
    {
      if activeName.None? || activeName.value == "main.js" {
        return;
      }
      var oldName := StripJs(activeName.value);
      AddScript(Some(oldName), answer);
    }

    method DeleteScript()
      modifies this`scripts
      ensures Editor() == ScriptDeleted(old(Editor()))
    {
      if activeName.None? || activeName.value == "main.js" {
        return;
      }
      var i := FindScript(scripts, activeName.value);
      if i != -1 {
        scripts := scripts[..i] + scripts[i + 1..];
      }
    }
  }
}
