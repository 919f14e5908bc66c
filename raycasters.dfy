/**
 * The raycaster components: a ray cast from the mouse (or a fixed origin)
 * picks an object, and a select/deselect protocol highlights it by swapping
 * the materials of its meshes (saved in `userData.currentMaterial`) and,
 * for the tooltip variant, shows its label layer on the camera.
 *
 * The abstract raycaster's hooks are given by its two concrete variants:
 * the highlight raycaster and the highlight-tooltip raycaster, which is the
 * highlight raycaster plus the tooltip layer rule (`withTooltip`). The
 * intersections a ray produces come from the rendering library and are an
 * input here.
 */
module Raycasters {
  import opened Wrappers
  import opened JsValues
  import opened SceneGraph
  import opened BaseComponents
  import CssManager

  /** The messages of the errors thrown below. */
  const UndefinedRootUserData: string := "Cannot read properties of undefined (reading 'userData')"

  const CurrentMaterialKey: string := "currentMaterial"
  const LayerKey: string := "layer"
  const DefaultHoveringColor: string := "rgba(0,0,255,0.5)"

  datatype Vector2 = Vector2(x: real, y: real)

  /** `'click' | 'hover'`: what triggers a raycast. */
  datatype UpdateMode = OnClick | OnHover

  /**
   * One hit of a ray: the object, its custom `tag` property and whether it
   * is visible (`ThreedUtils.isVisible`, whose definition is not part of
   * this model).
   */
  datatype Intersection = Intersection(node: Node, tag: Option<string>, visible: bool)

  datatype SelectionEvent = ObjectSelected(uuid: string) | ObjectDeselected(uuid: string)

  /** `getIntersectedObjectFilter`: helpers, lines, "Helper"-tagged and invisible objects are not hits. */
  predicate KeepHit(h: Intersection)
  {
    h.node.kind != "TransformControlsPlane" && h.node.kind != "BoxHelper" &&
    h.node.kind != "GridHelper" && h.node.kind != "Line" &&
    h.tag != Some("Helper") && h.visible
  }

  /** The hits kept by `KeepHit`, in ray order. */
  function FilterHits(hits: seq<Intersection>): (r: seq<Intersection>)
    ensures |r| <= |hits|
    ensures forall h :: h in r <==> h in hits && KeepHit(h)
    ensures |r| > 0 ==> exists i :: 0 <= i < |hits| && r[0] == hits[i] && forall j :: 0 <= j < i ==> !KeepHit(hits[j])
  {
    if hits == [] then []
    else
      var rest := FilterHits(hits[1..]);
      if KeepHit(hits[0]) then [hits[0]] + rest
      else
        assert |rest| > 0 ==> exists i :: 0 <= i < |hits[1..]| && rest[0] == hits[1..][i] && forall j :: 0 <= j < i ==> !KeepHit(hits[1..][j]);
        assert |rest| > 0 ==> exists i :: 0 <= i < |hits| && rest[0] == hits[i] && forall j :: 0 <= j < i ==> !KeepHit(hits[j]);
        rest
  }

  /**
   * The object a raycast selects: in root mode the nearest ancestor-or-self
   * of the first hit that is tagged as a model root (none: deselect), in
   * single mode the first hit itself.
   */
  function Target(scene: Node, kept: seq<Intersection>, resolveRoot: bool): (r: Option<string>)
    ensures |kept| == 0 ==> r.None?
    ensures |kept| > 0 && !resolveRoot ==> r == Some(kept[0].node.uuid)
    ensures |kept| > 0 && resolveRoot ==>
              (r.Some? <==> FindParentByChild(scene, kept[0].node.uuid, RootTag, Bool(true)).Some?)
    ensures |kept| > 0 && resolveRoot && r.Some? ==>
              r.value == FindParentByChild(scene, kept[0].node.uuid, RootTag, Bool(true)).value.uuid
  {
    if |kept| == 0 then None
    else if !resolveRoot then Some(kept[0].node.uuid)
    else
      var root := FindParentByChild(scene, kept[0].node.uuid, RootTag, Bool(true));
      if root.Some? then Some(root.value.uuid) else None
  }

  /** `toggleHightlightGLTF` on one node: meshes swap materials; other nodes are untouched. */
  function ToggleNode(n: Node, enable: bool, hover: JsValue): (r: Node)
    ensures r.uuid == n.uuid && r.kind == n.kind && r.children == n.children && r.visible == n.visible
    ensures !IsMesh(n) ==> r == n
    ensures IsMesh(n) && enable ==> r.material == hover && Get(r.userData, CurrentMaterialKey) == n.material
    ensures IsMesh(n) && !enable ==> r.material == Get(n.userData, CurrentMaterialKey) && r.userData == n.userData
  {
    if !IsMesh(n) then n
    else if enable then n.(userData := n.userData[CurrentMaterialKey := n.material], material := hover)
    else n.(material := Get(n.userData, CurrentMaterialKey))
  }

  /** `root.traverse(...)`: `ToggleNode` on every node of the subtree. */
  function Toggle(n: Node, enable: bool, hover: JsValue): (r: Node)
    decreases n
    ensures r.uuid == n.uuid && r.kind == n.kind && |r.children| == |n.children|
  {
    ToggleNode(n, enable, hover).(children := seq(|n.children|, i requires 0 <= i < |n.children| => Toggle(n.children[i], enable, hover)))
  }

  /** `Toggle` applied to the subtree of the object with this uuid, inside the scene. */
  function ToggleAt(scene: Node, uuid: string, enable: bool, hover: JsValue): (r: Node)
    decreases scene
    ensures r.uuid == scene.uuid && r.kind == scene.kind
  {
    if scene.uuid == uuid then Toggle(scene, enable, hover)
    else scene.(children := seq(|scene.children|, i requires 0 <= i < |scene.children| => ToggleAt(scene.children[i], uuid, enable, hover)))
  }

  /** What a highlight followed by an unhighlight leaves on one node: only the saved material in `userData`. */
  function SaveNode(n: Node): (r: Node)
    ensures r.material == n.material && r.kind == n.kind && r.uuid == n.uuid && r.children == n.children
    ensures !IsMesh(n) ==> r == n
  {
    if IsMesh(n) then n.(userData := n.userData[CurrentMaterialKey := n.material]) else n
  }

  function Save(n: Node): Node
    decreases n
  {
    SaveNode(n).(children := seq(|n.children|, i requires 0 <= i < |n.children| => Save(n.children[i])))
  }

  function SaveAt(scene: Node, uuid: string): Node
    decreases scene
  {
    if scene.uuid == uuid then Save(scene)
    else scene.(children := seq(|scene.children|, i requires 0 <= i < |scene.children| => SaveAt(scene.children[i], uuid)))
  }

  /** Highlight then unhighlight restores every material of the subtree, whatever the hovering material. */
  lemma {:induction false} ToggleRoundTrip(n: Node, hover: JsValue)
    decreases n
    ensures Toggle(Toggle(n, true, hover), false, hover) == Save(n)
  {
    var h := Toggle(n, true, hover);
    var r := Toggle(h, false, hover);
    forall i | 0 <= i < |n.children|
      ensures r.children[i] == Save(n).children[i]
    {
      assert h.children[i] == Toggle(n.children[i], true, hover);
      ToggleRoundTrip(n.children[i], hover);
    }
  }

  lemma {:induction false} ToggleAtRoundTrip(scene: Node, uuid: string, hover: JsValue)
    decreases scene
    ensures ToggleAt(ToggleAt(scene, uuid, true, hover), uuid, false, hover) == SaveAt(scene, uuid)
  {
    if scene.uuid == uuid {
      ToggleRoundTrip(scene, hover);
    } else {
      var h := ToggleAt(scene, uuid, true, hover);
      var r := ToggleAt(h, uuid, false, hover);
      forall i | 0 <= i < |scene.children|
        ensures r.children[i] == SaveAt(scene, uuid).children[i]
      {
        assert h.children[i] == ToggleAt(scene.children[i], uuid, true, hover);
        ToggleAtRoundTrip(scene.children[i], uuid, hover);
      }
    }
  }

  /**
   * Records the label layer in the `userData.layer` of the node with this
   * uuid (every outermost node carrying it; uuids are unique in a scene).
   */
  function SetLayer(scene: Node, uuid: string, layer: int): (r: Node)
    decreases scene
    ensures r.uuid == scene.uuid && r.kind == scene.kind && r.material == scene.material
  {
    if scene.uuid == uuid then Mark(scene, layer)
    else scene.(children := seq(|scene.children|, i requires 0 <= i < |scene.children| => SetLayer(scene.children[i], uuid, layer)))
  }

  /** One node with the layer recorded. */
  function Mark(n: Node, layer: int): (r: Node)
    ensures Get(r.userData, LayerKey) == Num(layer as real)
  {
    n.(userData := n.userData[LayerKey := Num(layer as real)])
  }

  /**
   * The label layer the tooltip shows for this object: the layer of the
   * label registered under its model root's custom id, if there is one.
   */
  function LabelLayer(scene: Node, uuid: string, labelLayers: map<string, int>): (r: Option<int>)
    ensures r.Some? ==> FindParentByChild(scene, uuid, RootTag, Bool(true)).Some? && r.value in labelLayers.Values
  {
    var root := FindParentByChild(scene, uuid, RootTag, Bool(true));
    if root.None? then None
    else
      var customId := Get(root.value.userData, ObjectIdTag);
      if Truthy(customId) && customId.Str? && customId.s in labelLayers then Some(labelLayers[customId.s]) else None
  }

  /** The number recorded in `userData.layer` of the first node with this uuid, if any. */
  function RecordedLayer(scene: Node, uuid: string): Option<real>
  {
    var node := Find(scene, uuid);
    if node.Some? && Get(node.value.userData, LayerKey).Num? then Some(Get(node.value.userData, LayerKey).n) else None
  }

  /**
   * `enableTooltip`: the object's model root must exist (it is dereferenced
   * unguarded); when the root has a custom id with a label, the label's
   * layer is shown on the camera and recorded on the object.
   */
  function EnableTooltip(scene: Node, uuid: string, cameraLayers: set<int>, labelLayers: map<string, int>)
    : (r: Result<(Node, set<int>)>)
    ensures FindParentByChild(scene, uuid, RootTag, Bool(true)).None? <==> r.Failure?
    ensures r.Success? && LabelLayer(scene, uuid, labelLayers).None? ==> r.value == (scene, cameraLayers)
    ensures r.Success? && LabelLayer(scene, uuid, labelLayers).Some? ==>
              var layer := LabelLayer(scene, uuid, labelLayers).value;
              r.value.1 == cameraLayers + {layer} && RecordedLayer(r.value.0, uuid) == Some(layer as real)
  {
    var root := FindParentByChild(scene, uuid, RootTag, Bool(true));
    if root.None? then Failure(UndefinedRootUserData)
    else
      var layer := LabelLayer(scene, uuid, labelLayers);
      if layer.None? then Success((scene, cameraLayers))
      else
        SetLayerRecords(scene, uuid, layer.value);
        Success((SetLayer(scene, uuid, layer.value), cameraLayers + {layer.value}))
  }

  /**
   * `disableTooltip`: hides the layer recorded on the object when it is a
   * label layer (at least 5); an unset or smaller value hides nothing.
   */
  function DisableTooltip(scene: Node, uuid: string, cameraLayers: set<int>): (r: set<int>)
    ensures r <= cameraLayers
    ensures var l := RecordedLayer(scene, uuid);
            if l.Some? && l.value >= CssManager.InitialLabelLayerIndex as real then r == cameraLayers - {l.value.Floor}
            else r == cameraLayers
  {
    var l := RecordedLayer(scene, uuid);
    if l.Some? && l.value >= CssManager.InitialLabelLayerIndex as real then cameraLayers - {l.value.Floor} else cameraLayers
  }

  /** Recording a layer on a node that is in the scene makes it the node's recorded layer. */
  lemma SetLayerRecords(scene: Node, uuid: string, layer: int)
    requires PathTo(scene, uuid).Some?
    ensures RecordedLayer(SetLayer(scene, uuid, layer), uuid) == Some(layer as real)
  {
    FindUnfold(scene, uuid);
    SetLayerFind(scene, uuid, layer);
  }

  /** The first node with this uuid among the subtrees of a node list. */
  function FindAll(ns: seq<Node>, uuid: string): Option<Node>
  {
    var p := PathToAll(ns, uuid);
    if p.None? then None else Some(p.value[|p.value| - 1])
  }

  lemma FindUnfold(n: Node, uuid: string)
    ensures Find(n, uuid).Some? <==> PathTo(n, uuid).Some?
    ensures Find(n, uuid) == if n.uuid == uuid then Some(n) else FindAll(n.children, uuid)
  {
  }

  lemma FindAllUnfold(ns: seq<Node>, uuid: string)
    ensures FindAll(ns, uuid) == if ns == [] then None else if Find(ns[0], uuid).Some? then Find(ns[0], uuid) else FindAll(ns[1..], uuid)
  {
  }

  lemma {:induction false} SetLayerFind(n: Node, uuid: string, layer: int)
    decreases n, 1
    ensures Find(SetLayer(n, uuid, layer), uuid).Some? <==> Find(n, uuid).Some?
    ensures Find(n, uuid).Some? ==> Find(SetLayer(n, uuid, layer), uuid) == Some(Mark(Find(n, uuid).value, layer))
  {
    var m := SetLayer(n, uuid, layer);
    FindUnfold(n, uuid);
    FindUnfold(m, uuid);
    if n.uuid != uuid {
      SetLayerFindAll(n.children, m.children, uuid, layer);
    }
  }

  lemma {:induction false} SetLayerFindAll(ns: seq<Node>, ms: seq<Node>, uuid: string, layer: int)
    requires |ms| == |ns| && forall i :: 0 <= i < |ns| ==> ms[i] == SetLayer(ns[i], uuid, layer)
    decreases ns, 0
    ensures FindAll(ms, uuid).Some? <==> FindAll(ns, uuid).Some?
    ensures FindAll(ns, uuid).Some? ==> FindAll(ms, uuid) == Some(Mark(FindAll(ns, uuid).value, layer))
  {
    FindAllUnfold(ns, uuid);
    FindAllUnfold(ms, uuid);
    if ns != [] {
      SetLayerFind(ns[0], uuid, layer);
      SetLayerFindAll(ns[1..], ms[1..], uuid, layer);
    }
  }

  /** What the hooks of a concrete raycaster need. */
  datatype HookConfig = HookConfig(hover: JsValue, withTooltip: bool, labelLayers: map<string, int>, canSelect: string -> bool)

  /** The state the selection protocol changes. */
  datatype SelectionState = SelectionState(selected: Option<string>, events: seq<SelectionEvent>, scene: Node, cameraLayers: set<int>)

  /** A protocol step: the new state and the error thrown on the way, if any. */
  datatype Outcome = Outcome(st: SelectionState, error: Option<string>)

  /** `onDeselectObject`: unhighlight, then (tooltip variant) hide the label layer. */
  function OnDeselectHook(s: SelectionState, uuid: string, cfg: HookConfig): (r: SelectionState)
    ensures r.selected == s.selected && r.events == s.events
    ensures !cfg.withTooltip ==> r.cameraLayers == s.cameraLayers
  {
    var s1 := s.(scene := ToggleAt(s.scene, uuid, false, cfg.hover));
    if cfg.withTooltip then s1.(cameraLayers := DisableTooltip(s1.scene, uuid, s1.cameraLayers)) else s1
  }

  /** `onSelectObject`: highlight, then (tooltip variant) show the label layer, which may throw. */
  function OnSelectHook(s: SelectionState, uuid: string, cfg: HookConfig): (r: Outcome)
    ensures r.st.selected == s.selected && r.st.events == s.events
    ensures r.error.Some? ==> cfg.withTooltip
    ensures !cfg.withTooltip ==> r.st == s.(scene := ToggleAt(s.scene, uuid, true, cfg.hover))
  {
    var s1 := s.(scene := ToggleAt(s.scene, uuid, true, cfg.hover));
    if !cfg.withTooltip then Outcome(s1, None)
    else
      match EnableTooltip(s1.scene, uuid, s1.cameraLayers, cfg.labelLayers)
      case Failure(e) => Outcome(s1, Some(e))
      case Success(p) => Outcome(s1.(scene := p.0, cameraLayers := p.1), None)
  }

  /** `deselectObject`: the hook and the event only when something is selected; the selection ends empty. */
  function Deselect(s: SelectionState, cfg: HookConfig): (r: SelectionState)
    ensures r.selected.None?
    ensures s.selected.None? ==> r == s
    ensures s.selected.Some? ==> r.events == s.events + [ObjectDeselected(s.selected.value)]
  {
    if s.selected.None? then s
    else
      var uuid := s.selected.value;
      var h := OnDeselectHook(s, uuid, cfg);
      h.(selected := None, events := h.events + [ObjectDeselected(uuid)])
  }

  /**
   * `selectObject`: nothing deselects; the current object is kept as is;
   * another object deselects the current one and is then selected only if
   * `canSelectObject` allows it, with its hook and then its event.
   */
  function Select(s: SelectionState, target: Option<string>, cfg: HookConfig): (r: Outcome)
    ensures r.error.Some? ==> cfg.withTooltip && target.Some? && r.st.selected == target
    ensures target.None? ==> r == Outcome(Deselect(s, cfg), None)
    ensures target.Some? && s.selected == target ==> r == Outcome(s, None)
    ensures target.Some? && s.selected != target && !cfg.canSelect(target.value) ==> r == Outcome(Deselect(s, cfg), None)
    ensures target.Some? && s.selected != target && cfg.canSelect(target.value) && r.error.None? ==>
              r.st.selected == target && r.st.events == Deselect(s, cfg).events + [ObjectSelected(target.value)]
  {
    if target.None? then Outcome(Deselect(s, cfg), None)
    else if s.selected == target then Outcome(s, None)
    else
      var d := Deselect(s, cfg);
      if !cfg.canSelect(target.value) then Outcome(d, None)
      else
        var o := OnSelectHook(d.(selected := target), target.value, cfg);
        if o.error.Some? then o
        else Outcome(o.st.(events := o.st.events + [ObjectSelected(target.value)]), None)
  }

  /** One raycast: the hits are filtered, resolved to a target, and the target is selected. */
  function Cast(s: SelectionState, hits: seq<Intersection>, resolveRoot: bool, cfg: HookConfig): (r: Outcome)
    ensures FilterHits(hits) == [] ==> r == Outcome(Deselect(s, cfg), None)
    ensures r.error.Some? ==> cfg.withTooltip && r.st.selected.Some?
  {
    Select(s, Target(s.scene, FilterHits(hits), resolveRoot), cfg)
  }

  /** `updateRaycaster`'s result once past its guard: true, unless a hook threw. */
  function ErrorOf(o: Outcome): (r: Result<bool>)
    ensures r.Failure? <==> o.error.Some?
  {
    if o.error.Some? then Failure(o.error.value) else Success(true)
  }

  /** A raycast that picks the same target twice in a row changes nothing the second time. */
  lemma SelectIsIdempotent(s: SelectionState, target: Option<string>, cfg: HookConfig)
    requires Select(s, target, cfg).error.None?
    ensures Select(Select(s, target, cfg).st, target, cfg) == Outcome(Select(s, target, cfg).st, None)
  {
    var s' := Select(s, target, cfg).st;
    if target.Some? && s.selected != target && cfg.canSelect(target.value) {
      assert s'.selected == target;
    }
  }

  /** Selecting an object and deselecting it again restores every material and logs both events. */
  lemma HighlightRoundTrip(s: SelectionState, uuid: string, cfg: HookConfig)
    requires s.selected.None? && !cfg.withTooltip && cfg.canSelect(uuid)
    ensures var r := Deselect(Select(s, Some(uuid), cfg).st, cfg);
            r.scene == SaveAt(s.scene, uuid) && r.selected.None? && r.cameraLayers == s.cameraLayers &&
            r.events == s.events + [ObjectSelected(uuid), ObjectDeselected(uuid)]
  {
    ToggleAtRoundTrip(s.scene, uuid, cfg.hover);
  }

  /**
   * A node with its material and saved material forgotten: the part of a
   * scene that highlighting does not touch.
   */
  function Proj(n: Node): Node
    decreases n
  {
    n.(userData := n.userData - {CurrentMaterialKey}, material := Undefined,
       children := seq(|n.children|, i requires 0 <= i < |n.children| => Proj(n.children[i])))
  }

  function ProjAll(s: seq<Node>): (r: seq<Node>)
    ensures |r| == |s| && forall i :: 0 <= i < |s| ==> r[i] == Proj(s[i])
  {
    seq(|s|, i requires 0 <= i < |s| => Proj(s[i]))
  }

  lemma {:induction false} ToggleProj(n: Node, enable: bool, hover: JsValue)
    decreases n
    ensures Proj(Toggle(n, enable, hover)) == Proj(n)
  {
    var t := Toggle(n, enable, hover);
    forall i | 0 <= i < |n.children|
      ensures Proj(t.children[i]) == Proj(n.children[i])
    {
      ToggleProj(n.children[i], enable, hover);
    }
    assert ToggleNode(n, enable, hover).userData - {CurrentMaterialKey} == n.userData - {CurrentMaterialKey};
  }

  /** Highlighting or unhighlighting changes only materials and saved materials. */
  lemma {:induction false} ToggleAtProj(scene: Node, uuid: string, enable: bool, hover: JsValue)
    decreases scene
    ensures Proj(ToggleAt(scene, uuid, enable, hover)) == Proj(scene)
  {
    if scene.uuid == uuid {
      ToggleProj(scene, enable, hover);
    } else {
      var t := ToggleAt(scene, uuid, enable, hover);
      forall i | 0 <= i < |scene.children|
        ensures Proj(t.children[i]) == Proj(scene.children[i])
      {
        ToggleAtProj(scene.children[i], uuid, enable, hover);
      }
    }
  }

  function ProjPath(p: Option<seq<Node>>): Option<seq<Node>>
  {
    if p.None? then None else Some(ProjAll(p.value))
  }

  lemma {:induction false} ProjPathTo(n: Node, uuid: string)
    decreases n, 1
    ensures PathTo(Proj(n), uuid) == ProjPath(PathTo(n, uuid))
  {
    if n.uuid != uuid {
      ProjPathToAll(n.children, uuid);
      assert Proj(n).children == ProjAll(n.children);
      var p := PathToAll(n.children, uuid);
      if p.Some? {
        ProjAllCons(n, p.value);
      }
    } else {
      ProjAllSingle(n);
    }
  }

  lemma ProjAllSingle(n: Node)
    ensures ProjAll([n]) == [Proj(n)]
  {
  }

  lemma ProjAllCons(n: Node, p: seq<Node>)
    ensures ProjAll([n] + p) == [Proj(n)] + ProjAll(p)
  {
  }

  lemma {:induction false} ProjPathToAll(ns: seq<Node>, uuid: string)
    decreases ns, 0
    ensures PathToAll(ProjAll(ns), uuid) == ProjPath(PathToAll(ns, uuid))
  {
    if ns != [] {
      ProjPathTo(ns[0], uuid);
      assert ProjAll(ns)[1..] == ProjAll(ns[1..]);
      ProjPathToAll(ns[1..], uuid);
    }
  }

  lemma {:induction false} ProjNearest(chain: seq<Node>, tag: string, value: JsValue)
    requires tag != CurrentMaterialKey
    decreases |chain|
    ensures var r := NearestTagged(chain, tag, value);
            NearestTagged(ProjAll(chain), tag, value) == if r.None? then None else Some(Proj(r.value))
  {
    if chain != [] {
      var last := chain[|chain| - 1];
      assert Get(Proj(last).userData, tag) == Get(last.userData, tag);
      assert ProjAll(chain)[..|chain| - 1] == ProjAll(chain[..|chain| - 1]);
      ProjNearest(chain[..|chain| - 1], tag, value);
    }
  }

  function ProjOpt(r: Option<Node>): Option<Node>
  {
    if r.None? then None else Some(Proj(r.value))
  }

  /** The root lookup reads nothing that `Proj` forgets. */
  lemma ProjKeepsRoot(a: Node, uuid: string)
    ensures FindParentByChild(Proj(a), uuid, RootTag, Bool(true)) == ProjOpt(FindParentByChild(a, uuid, RootTag, Bool(true)))
  {
    ProjPathTo(a, uuid);
    var p := PathTo(a, uuid);
    if p.Some? {
      ProjNearest(p.value, RootTag, Bool(true));
    }
  }

  lemma ProjKeepsLabelLayer(a: Node, uuid: string, labelLayers: map<string, int>)
    ensures LabelLayer(Proj(a), uuid, labelLayers) == LabelLayer(a, uuid, labelLayers)
  {
    ProjKeepsRoot(a, uuid);
    var r := FindParentByChild(a, uuid, RootTag, Bool(true));
    if r.Some? {
      assert Get(Proj(r.value).userData, ObjectIdTag) == Get(r.value.userData, ObjectIdTag);
    }
  }

  lemma ProjKeepsRecordedLayer(a: Node, uuid: string)
    ensures RecordedLayer(Proj(a), uuid) == RecordedLayer(a, uuid)
  {
    ProjFind(a, uuid);
    var f := Find(a, uuid);
    if f.Some? {
      assert Proj(f.value).userData == f.value.userData - {CurrentMaterialKey};
      assert Get(Proj(f.value).userData, LayerKey) == Get(f.value.userData, LayerKey);
    }
  }

  /** The node found in a scene without materials is the found node without materials. */
  lemma ProjFind(a: Node, uuid: string)
    ensures Find(Proj(a), uuid) == if Find(a, uuid).None? then None else Some(Proj(Find(a, uuid).value))
  {
    ProjPathTo(a, uuid);
    var p := PathTo(a, uuid);
    if p.Some? {
      var n := |p.value| - 1;
      var q := ProjAll(p.value);
      assert PathTo(Proj(a), uuid) == Some(q);
      assert |q| - 1 == n;
      assert q[n] == Proj(p.value[n]);
    }
  }

  /** Two scenes that agree outside materials agree on the root lookup, the label layer and the recorded layer. */
  lemma ProjLookups(a: Node, b: Node, uuid: string, labelLayers: map<string, int>)
    requires Proj(a) == Proj(b)
    ensures FindParentByChild(a, uuid, RootTag, Bool(true)).Some? <==> FindParentByChild(b, uuid, RootTag, Bool(true)).Some?
    ensures LabelLayer(a, uuid, labelLayers) == LabelLayer(b, uuid, labelLayers)
    ensures RecordedLayer(a, uuid) == RecordedLayer(b, uuid)
  {
    ProjKeepsRoot(a, uuid);
    ProjKeepsRoot(b, uuid);
    ProjKeepsLabelLayer(a, uuid, labelLayers);
    ProjKeepsLabelLayer(b, uuid, labelLayers);
    ProjKeepsRecordedLayer(a, uuid);
    ProjKeepsRecordedLayer(b, uuid);
  }

  /** Unhighlighting and recording a layer touch different parts of a node, so their order does not matter. */
  lemma {:induction false} UnhighlightSetLayer(scene: Node, uuid: string, layer: int, hover: JsValue)
    decreases scene
    ensures ToggleAt(SetLayer(scene, uuid, layer), uuid, false, hover) == SetLayer(ToggleAt(scene, uuid, false, hover), uuid, layer)
  {
    if scene.uuid != uuid {
      var l, r := ToggleAt(SetLayer(scene, uuid, layer), uuid, false, hover), SetLayer(ToggleAt(scene, uuid, false, hover), uuid, layer);
      forall i | 0 <= i < |scene.children|
        ensures l.children[i] == r.children[i]
      {
        UnhighlightSetLayer(scene.children[i], uuid, layer, hover);
      }
    }
  }

  /**
   * With tooltips, selecting an object and deselecting it again restores
   * every material, logs both events and leaves the layer its label had
   * hidden again and recorded on the object; without a label nothing is
   * shown and deselecting hides whatever layer an earlier selection had
   * recorded. Label layers start at 5, as the CSS manager hands them out.
   */
  lemma TooltipRoundTrip(s: SelectionState, uuid: string, cfg: HookConfig)
    requires s.selected.None? && cfg.withTooltip && cfg.canSelect(uuid)
    requires FindParentByChild(s.scene, uuid, RootTag, Bool(true)).Some?
    requires forall id :: id in cfg.labelLayers ==> cfg.labelLayers[id] >= CssManager.InitialLabelLayerIndex
    ensures Select(s, Some(uuid), cfg).error.None?
    ensures var r := Deselect(Select(s, Some(uuid), cfg).st, cfg);
            var layer := LabelLayer(s.scene, uuid, cfg.labelLayers);
            r.selected.None? && r.events == s.events + [ObjectSelected(uuid), ObjectDeselected(uuid)] &&
            (layer.Some? ==> r.scene == SetLayer(SaveAt(s.scene, uuid), uuid, layer.value) &&
                             r.cameraLayers == s.cameraLayers - {layer.value}) &&
            (layer.None? ==> r.scene == SaveAt(s.scene, uuid) &&
                             r.cameraLayers == DisableTooltip(s.scene, uuid, s.cameraLayers))
  {
    TooltipSelectThenDeselect(s, uuid, cfg);
    var x := ToggleAt(s.scene, uuid, true, cfg.hover);
    ToggleAtProj(s.scene, uuid, true, cfg.hover);
    ProjLookups(x, s.scene, uuid, cfg.labelLayers);
    ToggleAtRoundTrip(s.scene, uuid, cfg.hover);
    if LabelLayer(s.scene, uuid, cfg.labelLayers).Some? {
      HideShownLayer(x, uuid, LabelLayer(s.scene, uuid, cfg.labelLayers).value, s.cameraLayers, cfg.hover);
    } else {
      var y := SaveAt(s.scene, uuid);
      ToggleAtProj(x, uuid, false, cfg.hover);
      ProjLookups(y, s.scene, uuid, cfg.labelLayers);
    }
  }

  /**
   * With tooltips and a root ancestor, selecting from no selection and then
   * deselecting is: highlight, enable the tooltip, log; then unhighlight,
   * disable the tooltip, log.
   */
  lemma TooltipSelectThenDeselect(s: SelectionState, uuid: string, cfg: HookConfig)
    requires s.selected.None? && cfg.withTooltip && cfg.canSelect(uuid)
    requires FindParentByChild(s.scene, uuid, RootTag, Bool(true)).Some?
    ensures var x := ToggleAt(s.scene, uuid, true, cfg.hover);
            EnableTooltip(x, uuid, s.cameraLayers, cfg.labelLayers).Success? &&
            Select(s, Some(uuid), cfg).error.None? &&
            var p := EnableTooltip(x, uuid, s.cameraLayers, cfg.labelLayers).value;
            var y := ToggleAt(p.0, uuid, false, cfg.hover);
            Deselect(Select(s, Some(uuid), cfg).st, cfg) ==
              SelectionState(None, s.events + [ObjectSelected(uuid), ObjectDeselected(uuid)], y, DisableTooltip(y, uuid, p.1))
  {
    var x := ToggleAt(s.scene, uuid, true, cfg.hover);
    ToggleAtProj(s.scene, uuid, true, cfg.hover);
    ProjLookups(x, s.scene, uuid, cfg.labelLayers);
    var e := EnableTooltip(x, uuid, s.cameraLayers, cfg.labelLayers);
    assert e.Success?;
    var p := e.value;
    SelectWithTooltip(s, uuid, cfg);
    var m := SelectionState(Some(uuid), s.events + [ObjectSelected(uuid)], p.0, p.1);
    assert Select(s, Some(uuid), cfg) == Outcome(m, None);
    DeselectWithTooltip(m, cfg);
    var y := ToggleAt(p.0, uuid, false, cfg.hover);
    assert Deselect(m, cfg) == SelectionState(None, m.events + [ObjectDeselected(uuid)], y, DisableTooltip(y, uuid, p.1));
    assert m.events + [ObjectDeselected(uuid)] == s.events + [ObjectSelected(uuid), ObjectDeselected(uuid)];
  }

  /** Selecting with tooltips from no selection, when the root exists: highlight, show the label, log. */
  lemma SelectWithTooltip(s: SelectionState, uuid: string, cfg: HookConfig)
    requires s.selected.None? && cfg.withTooltip && cfg.canSelect(uuid)
    requires EnableTooltip(ToggleAt(s.scene, uuid, true, cfg.hover), uuid, s.cameraLayers, cfg.labelLayers).Success?
    ensures var p := EnableTooltip(ToggleAt(s.scene, uuid, true, cfg.hover), uuid, s.cameraLayers, cfg.labelLayers).value;
            Select(s, Some(uuid), cfg) == Outcome(SelectionState(Some(uuid), s.events + [ObjectSelected(uuid)], p.0, p.1), None)
  {
  }

  /** Deselecting with tooltips: unhighlight, hide the recorded layer, log. */
  lemma DeselectWithTooltip(m: SelectionState, cfg: HookConfig)
    requires m.selected.Some? && cfg.withTooltip
    ensures var y := ToggleAt(m.scene, m.selected.value, false, cfg.hover);
            Deselect(m, cfg) == SelectionState(None, m.events + [ObjectDeselected(m.selected.value)], y,
                                               DisableTooltip(y, m.selected.value, m.cameraLayers))
  {
  }

  /** Unhighlighting a scene whose object records a shown label layer hides that layer again. */
  lemma HideShownLayer(x: Node, uuid: string, layer: int, cameraLayers: set<int>, hover: JsValue)
    requires PathTo(x, uuid).Some? && layer >= CssManager.InitialLabelLayerIndex
    ensures var y := ToggleAt(SetLayer(x, uuid, layer), uuid, false, hover);
            y == SetLayer(ToggleAt(x, uuid, false, hover), uuid, layer) &&
            DisableTooltip(y, uuid, cameraLayers + {layer}) == cameraLayers - {layer}
  {
    var z := SetLayer(x, uuid, layer);
    SetLayerRecords(x, uuid, layer);
    UnhighlightSetLayer(x, uuid, layer, hover);
    var y := ToggleAt(z, uuid, false, hover);
    ToggleAtProj(z, uuid, false, hover);
    ProjKeepsRecordedLayer(y, uuid);
    ProjKeepsRecordedLayer(z, uuid);
    assert (cameraLayers + {layer}) - {(layer as real).Floor} == cameraLayers - {layer};
  }

  /** The camera, the label layers of the CSS manager and the mouse, as the raycaster sees them. */
  class SceneView {
    var scene: Node
    var cameraLayers: set<int>
    var labelLayers: map<string, int>
    var mouse: Vector2

    constructor(scene: Node, labelLayers: map<string, int>)
      ensures this.scene == scene && this.labelLayers == labelLayers && cameraLayers == {} && mouse == Vector2(0.0, 0.0)
    {
      this.scene := scene;
      this.labelLayers := labelLayers;
      cameraLayers := {};
      mouse := Vector2(0.0, 0.0);
    }
  }

  /**
   * `ThreedHightlightRaycasterComponent` (and, with `withTooltip`,
   * `ThreedHightlightTooltipRaycasterComponent`) over the protocol of
   * `ThreedAbstractRaycasterComponent`.
   */
  class HighlightRaycaster {
    const base: ThreedBaseComponent
    const view: SceneView
    const raycastUpdate: UpdateMode
    const resolveRoot: bool
    const raycastOrigin: Option<Vector2>
    const withTooltip: bool
    /** `canSelectObject`, the abstract hook. */
    const canSelect: string -> bool
    var raycastEnabled: bool
    var hoverIndex: nat
    var selected: Option<string>
    var events: seq<SelectionEvent>
    var intersected: seq<Intersection>
    var hoveringColor: Option<string>
    var hoveringMaterial: JsValue
    /** The origin of the last ray cast. */
    var rayOrigin: Option<Vector2>

    constructor(base: ThreedBaseComponent, view: SceneView, raycastUpdate: UpdateMode, resolveRoot: bool,
                raycastOrigin: Option<Vector2>, withTooltip: bool, canSelect: string -> bool)
      ensures this.base == base && this.view == view && this.raycastUpdate == raycastUpdate
      ensures this.resolveRoot == resolveRoot && this.raycastOrigin == raycastOrigin
      ensures this.withTooltip == withTooltip && this.canSelect == canSelect
      ensures raycastEnabled && hoverIndex == 0 && selected.None? && events == [] && intersected == []
      ensures hoveringColor.None? && hoveringMaterial == Undefined && rayOrigin.None?
    {
      this.base := base;
      this.view := view;
      this.raycastUpdate := raycastUpdate;
      this.resolveRoot := resolveRoot;
      this.raycastOrigin := raycastOrigin;
      this.withTooltip := withTooltip;
      this.canSelect := canSelect;
      raycastEnabled := true;
      hoverIndex := 0;
      selected := None;
      events := [];
      intersected := [];
      hoveringColor := None;
      hoveringMaterial := Undefined;
      rayOrigin := None;
    }

    function State(): SelectionState
      reads this, view
    {
      SelectionState(selected, events, view.scene, view.cameraLayers)
    }

    function Config(): HookConfig
      reads this, view
    {
      HookConfig(hoveringMaterial, withTooltip, view.labelLayers, canSelect)
    }

    /** `getRaycasterOriginCoords`: the fixed origin if there is one, else the mouse. */
    function OriginCoords(): (r: Vector2)
      reads this, view
      ensures raycastOrigin.Some? ==> r == raycastOrigin.value
      ensures raycastOrigin.None? ==> r == view.mouse
    {
      if raycastOrigin.Some? then raycastOrigin.value else view.mouse
    }

    /** Whether `updateRaycaster` gets past its guard. */
    predicate CanCast()
      reads this, base
    {
      base.initialized && raycastEnabled
    }

    /**
     * `setHoveringColor`: `None` stands for an omitted argument and takes
     * the default colour; an empty string is ignored; otherwise a new
     * hovering material (`material`, a fresh handle) is made from the colour.
     */
    method SetHoveringColor(color: Option<string>, material: nat)
      modifies this
      ensures var c := if color.Some? then color.value else DefaultHoveringColor;
              if c == "" then hoveringColor == old(hoveringColor) && hoveringMaterial == old(hoveringMaterial)
              else hoveringColor == Some(c) && hoveringMaterial == Handle(material)
      ensures selected == old(selected) && events == old(events) && hoverIndex == old(hoverIndex)
      ensures raycastEnabled == old(raycastEnabled) && intersected == old(intersected) && rayOrigin == old(rayOrigin)
    {
      var c := if color.Some? then color.value else DefaultHoveringColor;
      if c == "" {
        return;
      }
      hoveringColor := Some(c);
      hoveringMaterial := Handle(material);
    }

    /**
     * `initialize`: the base binds the first manager only, but every call
     * makes a new hovering material from the default colour.
     */
    method Initialize(manager: nat, material: nat)
      modifies this, base
      ensures base.initialized
      ensures old(base.initialized) ==> base.sceneManager == old(base.sceneManager)
      ensures !old(base.initialized) ==> base.sceneManager == Some(manager)
      ensures hoveringColor == Some(DefaultHoveringColor) && hoveringMaterial == Handle(material)
      ensures selected == old(selected) && events == old(events) && hoverIndex == old(hoverIndex)
    {
      base.Initialize(manager);
      SetHoveringColor(None, material);
    }

    /**
     * `updateRaycaster`: false and no change unless initialised and
     * enabled; otherwise the kept hits are recorded and the target they
     * resolve to goes through the selection protocol.
     */
    method UpdateRaycaster(hits: seq<Intersection>) returns (r: Result<bool>)
      modifies this`rayOrigin, this`intersected, this`selected, this`events, view`scene, view`cameraLayers
      ensures !old(CanCast()) ==> r == Success(false) && State() == old(State()) && intersected == old(intersected)
      ensures old(CanCast()) ==> intersected == FilterHits(hits) && rayOrigin == Some(old(OriginCoords()))
      ensures old(CanCast()) ==> State() == Cast(old(State()), hits, resolveRoot, old(Config())).st
      ensures old(CanCast()) ==> r == ErrorOf(Cast(old(State()), hits, resolveRoot, old(Config())))
    {
      if !base.initialized || !raycastEnabled {
        return Success(false);
      }
      var origin, kept, o := OriginCoords(), FilterHits(hits), Cast(State(), hits, resolveRoot, Config());
      rayOrigin, intersected := Some(origin), kept;
      selected, events := o.st.selected, o.st.events;
      view.scene, view.cameraLayers := o.st.scene, o.st.cameraLayers;
      r := ErrorOf(o);
    }

    /** `onMouseMove`: in hover mode every other move (the 1st, 3rd, ...) casts a ray; in click mode none does. */
    method OnMouseMove(hits: seq<Intersection>) returns (r: Result<()>)
      modifies this, view
      ensures hoverIndex == if raycastUpdate == OnHover then old(hoverIndex) + 1 else old(hoverIndex)
      ensures raycastUpdate == OnHover && old(hoverIndex) % 2 == 0 && old(CanCast()) ==>
                State() == Cast(old(State()), hits, resolveRoot, old(Config())).st &&
                (r.Failure? <==> Cast(old(State()), hits, resolveRoot, old(Config())).error.Some?)
      ensures !(raycastUpdate == OnHover && old(hoverIndex) % 2 == 0 && old(CanCast())) ==> State() == old(State()) && r.Success?
    {
      r := Success(());
      if raycastUpdate == OnHover {
        var index := hoverIndex;
        hoverIndex := hoverIndex + 1;
        if index % 2 == 0 {
          var u := UpdateRaycaster(hits);
          if u.Failure? {
            r := Failure(u.error);
          }
        }
      }
    }

    /** `onMouseClick`: only click mode casts, on every click. */
    method OnMouseClick(hits: seq<Intersection>) returns (r: Result<()>)
      modifies this, view
      ensures hoverIndex == old(hoverIndex)
      ensures raycastUpdate == OnClick && old(CanCast()) ==>
                State() == Cast(old(State()), hits, resolveRoot, old(Config())).st &&
                (r.Failure? <==> Cast(old(State()), hits, resolveRoot, old(Config())).error.Some?)
      ensures !(raycastUpdate == OnClick && old(CanCast())) ==> State() == old(State()) && r.Success?
    {
      r := Success(());
      if raycastUpdate == OnClick {
        var u := UpdateRaycaster(hits);
        if u.Failure? {
          r := Failure(u.error);
        }
      }
    }

    /** The public `deselectObject`. */
    method DeselectObject()
      modifies this, view
      ensures State() == Deselect(old(State()), old(Config()))
      ensures hoverIndex == old(hoverIndex) && hoveringMaterial == old(hoveringMaterial)
    {
      var d := Deselect(State(), Config());
      selected, events := d.selected, d.events;
      view.scene, view.cameraLayers := d.scene, d.cameraLayers;
    }
  }

  /** Every object may be selected: the plain raycaster has no `canSelectObject`. */
  predicate AnySelectable(uuid: string)
  {
    true
  }

  /** `filter` of the plain raycaster: like `KeepHit` but lines and invisible objects are hits. */
  predicate KeepPlainHit(h: Intersection)
  {
    h.node.kind != "TransformControlsPlane" && h.node.kind != "BoxHelper" &&
    h.node.kind != "GridHelper" && h.tag != Some("Helper")
  }

  function FilterPlainHits(hits: seq<Intersection>): (r: seq<Intersection>)
    ensures forall h :: h in r <==> h in hits && KeepPlainHit(h)
  {
    if hits == [] then []
    else (if KeepPlainHit(hits[0]) then [hits[0]] else []) + FilterPlainHits(hits[1..])
  }

  /**
   * `ThreedRaycasterComponent`: the same protocol with no throttling, no
   * enable flag, no `canSelectObject`, no events and always root
   * resolution, highlighting by material swap.
   */
  class PlainRaycaster {
    const base: ThreedBaseComponent
    const view: SceneView
    const highlightObjectType: UpdateMode
    var selected: Option<string>
    var hoveringColor: Option<string>
    var hoveringMaterial: JsValue

    constructor(base: ThreedBaseComponent, view: SceneView, highlightObjectType: UpdateMode)
      ensures this.base == base && this.view == view && this.highlightObjectType == highlightObjectType
      ensures selected.None? && hoveringColor.None? && hoveringMaterial == Undefined
    {
      this.base := base;
      this.view := view;
      this.highlightObjectType := highlightObjectType;
      selected := None;
      hoveringColor := None;
      hoveringMaterial := Undefined;
    }

    function Config(): HookConfig
      reads this
    {
      HookConfig(hoveringMaterial, false, map[], AnySelectable)
    }

    function State(): SelectionState
      reads this, view
    {
      SelectionState(selected, [], view.scene, view.cameraLayers)
    }

    /** `initialize`: binds the first manager; every call makes a new default hovering material. */
    method Initialize(manager: nat, material: nat)
      modifies this, base
      ensures base.initialized
      ensures old(base.initialized) ==> base.sceneManager == old(base.sceneManager)
      ensures !old(base.initialized) ==> base.sceneManager == Some(manager)
      ensures hoveringColor == Some(DefaultHoveringColor) && hoveringMaterial == Handle(material)
      ensures selected == old(selected)
    {
      base.Initialize(manager);
      hoveringColor := Some(DefaultHoveringColor);
      hoveringMaterial := Handle(material);
    }

    /** `updateRaycaster`: nothing before initialisation; otherwise the first hit's model root is selected. */
    method UpdateRaycaster(hits: seq<Intersection>)
      modifies this`selected, view`scene
      ensures !old(base.initialized) ==> State() == old(State())
      ensures old(base.initialized) ==>
                var o := Select(old(State()), Target(old(view.scene), FilterPlainHits(hits), true), old(Config()));
                selected == o.st.selected && view.scene == o.st.scene
    {
      if !base.initialized {
        return;
      }
      var o := Select(State(), Target(view.scene, FilterPlainHits(hits), true), Config());
      selected := o.st.selected;
      view.scene := o.st.scene;
    }

    /** `onMouseMove` / `onMouseClick`: every event of the configured kind casts a ray. */
    method OnPointerEvent(kind: UpdateMode, hits: seq<Intersection>)
      modifies this, view
      ensures kind != highlightObjectType ==> State() == old(State())
      ensures kind == highlightObjectType && old(base.initialized) ==>
                var o := Select(old(State()), Target(old(view.scene), FilterPlainHits(hits), true), old(Config()));
                selected == o.st.selected && view.scene == o.st.scene
    {
      if kind == highlightObjectType {
        UpdateRaycaster(hits);
      }
    }
  }
}
