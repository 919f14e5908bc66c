/**
 * `ThreedCssManager`: HTML labels and images attached to scene models.
 * Entries are keyed by model id (a JavaScript `Map`, so keys keep their
 * insertion order); each key owns a camera layer and the list of its CSS
 * objects.
 */
module CssManager {
  import opened Wrappers

  const MarkersLayerIndex: int := 4
  const InitialLabelLayerIndex: int := 5
  /** Image size used when the requested one is falsy. */
  const DefaultImageSize: real := 34.0

  datatype CssType = Label | Image

  /** The HTML element behind a CSS object: its class, inner HTML (labels), and source and size (images). */
  datatype HtmlElement = HtmlElement(className: string, innerHtml: string, src: string, width: real, height: real)

  /** The VR copy of a label: its content, the layer it is drawn on, and its visibility flags. */
  datatype VrPanel = VrPanel(content: string, layer: int, visible: bool, lastVisibility: bool)

  /** One CSS object: the global id, its element, the layer the 2-D object is drawn on, the owning model id and offset. */
  datatype CssData = CssData(id: nat, cssType: CssType, element: HtmlElement, layer: int, ownerId: string,
                             offsetY: real, cssVisible: bool, vr: Option<VrPanel>)

  /** The entry of one model id: its layer and its CSS objects in creation order. */
  datatype CssObject = CssObject(layer: int, data: seq<CssData>)

  /** What `createObject` is asked for. */
  datatype CssObjectProperties = CssObjectProperties(cssType: CssType, className: Option<string>, offsetY: real,
                                                     alwaysVisible: Option<bool>)

  /** `THREE.MathUtils.clamp(v, 0, 1)`. */
  function Clamp01(v: real): (r: real)
    ensures 0.0 <= r <= 1.0
    ensures 0.0 <= v <= 1.0 ==> r == v
    ensures v < 0.0 ==> r == 0.0
    ensures v > 1.0 ==> r == 1.0
  {
    if v < 0.0 then 0.0 else if v > 1.0 then 1.0 else v
  }

  /** The element `createLabel` / `createImage` build: class `className || 'label'` (or `|| ''`). */
  function NewElement(props: CssObjectProperties): (e: HtmlElement)
    ensures props.cssType == Label && (props.className.None? || props.className.value == "") ==> e.className == "label"
    ensures props.cssType == Label ==> e.innerHtml == "initial content"
    ensures props.className.Some? && props.className.value != "" ==> e.className == props.className.value
    ensures props.cssType == Image && (props.className.None? || props.className.value == "") ==> e.className == ""
  {
    var given := if props.className.Some? then props.className.value else "";
    match props.cssType
    case Label => HtmlElement(if given != "" then given else "label", "initial content", "", 0.0, 0.0)
    case Image => HtmlElement(given, "", "", 0.0, 0.0)
  }

  /** Index of the first element of the given type in `data`, if any. */
  function FirstOfType(data: seq<CssData>, t: CssType): (r: Option<nat>)
    ensures r.Some? ==> r.value < |data| && data[r.value].cssType == t &&
                        forall j :: 0 <= j < r.value ==> data[j].cssType != t
    ensures r.None? ==> forall j :: 0 <= j < |data| ==> data[j].cssType != t
  {
    if data == [] then None
    else if data[0].cssType == t then Some(0)
    else
      var rest := FirstOfType(data[1..], t);
      if rest.Some? then Some(rest.value + 1) else None
  }

  /** `toggleMarkersLayer` as written: `enabled || !markersLayerEnabled`. */
  function NextMarkersFlagAsWritten(enabled: Option<bool>, current: bool): bool
  {
    (enabled.Some? && enabled.value) || !current
  }

  /** `toggleMarkersLayer` as evidently intended: an explicit flag is taken as is; no flag toggles. */
  function NextMarkersFlag(enabled: Option<bool>, current: bool): (r: bool)
    ensures enabled.Some? ==> r == enabled.value
    ensures enabled.None? ==> r == !current
  {
    if enabled.Some? then enabled.value else !current
  }

  /** Asking to disable the markers layer while it is disabled turns it back on. */
  lemma ToggleMarkersDisableEnables()
    ensures NextMarkersFlagAsWritten(Some(false), false) == true
    ensures NextMarkersFlag(Some(false), false) == false
  {
  }

  /** The two definitions agree except on an explicit `false`, where the written one toggles. */
  lemma ToggleMarkersAgreement(enabled: Option<bool>, current: bool)
    ensures enabled != Some(false) ==> NextMarkersFlagAsWritten(enabled, current) == NextMarkersFlag(enabled, current)
    ensures NextMarkersFlagAsWritten(Some(false), current) == !current
  {
  }

  /** A CSS object after `updateObjectVisibility`: the 2-D object shows only outside VR; the VR panel only inside VR, and then as last recorded. */
  function WithVisibility(d: CssData, vrActive: bool): (r: CssData)
    ensures r.cssVisible == !vrActive
    ensures r.vr.Some? <==> d.vr.Some?
    ensures r.vr.Some? ==> r.vr.value.visible == (vrActive && d.vr.value.lastVisibility)
    ensures r.vr.Some? ==> r.vr.value == d.vr.value.(visible := r.vr.value.visible)
    ensures r == d.(cssVisible := r.cssVisible, vr := r.vr)
  {
    var vr := if d.vr.Some? then Some(d.vr.value.(visible := if vrActive then d.vr.value.lastVisibility else false)) else None;
    d.(cssVisible := !vrActive, vr := vr)
  }

  /**
   * Invariant of a manager: `order` lists exactly the keys of `objs`; keys
   * own the label layers 5, 6, ... in insertion order (so no key is listed
   * twice) and `lastLayer` is the next free one; within a key the ids
   * strictly increase and all ids are below the global counter.
   */
  ghost predicate CssInv(order: seq<string>, objs: map<string, CssObject>, lastLayer: int, nextId: nat)
  {
    lastLayer == InitialLabelLayerIndex + |order| &&
    (forall k :: k in objs <==> k in order) &&
    (forall i :: 0 <= i < |order| ==> order[i] in objs && objs[order[i]].layer == InitialLabelLayerIndex + i) &&
    (forall k :: k in objs ==> IdsBelow(objs[k].data, nextId))
  }

  /** Ids of `data` strictly increase and stay below `bound`. */
  ghost predicate IdsBelow(data: seq<CssData>, bound: nat)
  {
    (forall i, j :: 0 <= i < j < |data| ==> data[i].id < data[j].id) &&
    (forall i :: 0 <= i < |data| ==> data[i].id < bound)
  }

  /** The global CSS object id counter, shared by every manager (a static field). */
  class CssIdCounter {
    var last: nat

    constructor()
      ensures last == 1
    {
      last := 1;
    }

    /** `CssObjectId++`: the current id, and the counter moves past it. */
    method Take() returns (id: nat)
      modifies this`last
      ensures id == old(last) && last == id + 1
    {
      id := last;
      last := last + 1;
    }
  }

  class ThreedCssManager {
    var order: seq<string>
    var cssObjects: map<string, CssObject>
    var lastLayerIndex: int
    var markersLayerEnabled: bool
    /** Whether the scene manager has a camera, and the layers enabled on it. */
    var hasCamera: bool
    var cameraLayers: set<int>
    const counter: CssIdCounter

    ghost predicate Valid()
      reads this, counter
    {
      CssInv(order, cssObjects, lastLayerIndex, counter.last)
    }

    constructor(counter: CssIdCounter, hasCamera: bool, cameraLayers: set<int>)
      ensures Valid()
      ensures order == [] && cssObjects == map[] && lastLayerIndex == InitialLabelLayerIndex
      ensures markersLayerEnabled && this.counter == counter
      ensures this.hasCamera == hasCamera && this.cameraLayers == cameraLayers
    {
      order, cssObjects, lastLayerIndex := [], map[], InitialLabelLayerIndex;
      markersLayerEnabled := true;
      this.hasCamera, this.cameraLayers := hasCamera, cameraLayers;
      this.counter := counter;
    }

    /** `updateMarkersLayer`: with a camera, layer 4 is enabled exactly when markers are enabled. */
    method UpdateMarkersLayer()
      modifies this`cameraLayers
      ensures !hasCamera ==> cameraLayers == old(cameraLayers)
      ensures hasCamera ==> cameraLayers - {MarkersLayerIndex} == old(cameraLayers) - {MarkersLayerIndex}
      ensures hasCamera ==> (MarkersLayerIndex in cameraLayers <==> markersLayerEnabled)
    {
      if !hasCamera {
        return;
      }
      if markersLayerEnabled {
        cameraLayers := cameraLayers + {MarkersLayerIndex};
      } else {
        cameraLayers := cameraLayers - {MarkersLayerIndex};
      }
    }

    /** `toggleMarkersLayer` as written (see `NextMarkersFlagAsWritten`). */
    method ToggleMarkersLayerAsWritten(enabled: Option<bool>)
      modifies this`markersLayerEnabled, this`cameraLayers
      requires Valid()
      ensures Valid()
      ensures markersLayerEnabled == NextMarkersFlagAsWritten(enabled, old(markersLayerEnabled))
      ensures hasCamera ==> (MarkersLayerIndex in cameraLayers <==> markersLayerEnabled)
    {
      markersLayerEnabled := NextMarkersFlagAsWritten(enabled, markersLayerEnabled);
      UpdateMarkersLayer();
    }

    /** `toggleMarkersLayer` as intended: an explicit flag is applied, none toggles; the camera follows. */
    method ToggleMarkersLayer(enabled: Option<bool>)
      modifies this`markersLayerEnabled, this`cameraLayers
      requires Valid()
      ensures Valid()
      ensures markersLayerEnabled == NextMarkersFlag(enabled, old(markersLayerEnabled))
      ensures hasCamera ==> (MarkersLayerIndex in cameraLayers <==> markersLayerEnabled)
      ensures !hasCamera ==> cameraLayers == old(cameraLayers)
    {
      markersLayerEnabled := NextMarkersFlag(enabled, markersLayerEnabled);
      UpdateMarkersLayer();
    }

    /**
     * `createObject`: the first object of an id allocates the next label
     * layer; the object is drawn on the markers layer when always visible,
     * else on its id's layer; it takes the next global id and is appended to
     * the id's list.
     */
    method CreateObject(id: string, props: CssObjectProperties) returns (d: CssData)
      modifies this`order, this`cssObjects, this`lastLayerIndex, counter
      requires Valid()
      ensures Valid()
      ensures var isNew := id !in old(cssObjects);
              cssObjects == old(cssObjects)[id := CssObject(
                                if isNew then old(lastLayerIndex) else old(cssObjects)[id].layer,
                                (if isNew then [] else old(cssObjects)[id].data) + [d])] &&
              lastLayerIndex == (if isNew then old(lastLayerIndex) + 1 else old(lastLayerIndex)) &&
              order == (if isNew then old(order) + [id] else old(order))
      ensures d.id == old(counter.last) && counter.last == old(counter.last) + 1
      ensures d.layer == (if props.alwaysVisible == Some(true) then MarkersLayerIndex else cssObjects[id].layer)
      ensures d.cssType == props.cssType && d.element == NewElement(props) && d.ownerId == id
      ensures d.offsetY == Clamp01(props.offsetY) && d.cssVisible && d.vr.None?
    {
      var objectId := counter.Take();
      if id !in cssObjects {
        var layer := if props.alwaysVisible == Some(true) then MarkersLayerIndex else lastLayerIndex;
        d := CssData(objectId, props.cssType, NewElement(props), layer, id, Clamp01(props.offsetY), true, None);
        var objs := cssObjects[id := CssObject(lastLayerIndex, [d])];
        assert [] + [d] == [d];
        NewKeyKeepsInv(order, cssObjects, lastLayerIndex, objectId, id, d);
        order, cssObjects, lastLayerIndex := order + [id], objs, lastLayerIndex + 1;
      } else {
        var entry := cssObjects[id];
        var layer := if props.alwaysVisible == Some(true) then MarkersLayerIndex else entry.layer;
        d := CssData(objectId, props.cssType, NewElement(props), layer, id, Clamp01(props.offsetY), true, None);
        CreateKeepsInv(order, cssObjects, lastLayerIndex, objectId, id, d);
        cssObjects := cssObjects[id := entry.(data := entry.data + [d])];
      }
    }

    /**
     * `findFirst`: scanning `ids` in order, the first id with an entry that
     * holds an element of type `t`, with the index of the first such element.
     */
    method FindFirst(ids: seq<string>, t: CssType) returns (r: Option<(nat, nat)>)
      ensures r.Some? ==>
                r.value.0 < |ids| && ids[r.value.0] in cssObjects &&
                FirstOfType(cssObjects[ids[r.value.0]].data, t) == Some(r.value.1)
      ensures r.Some? ==> forall i :: 0 <= i < r.value.0 && ids[i] in cssObjects ==> FirstOfType(cssObjects[ids[i]].data, t).None?
      ensures r.None? ==> forall i :: 0 <= i < |ids| && ids[i] in cssObjects ==> FirstOfType(cssObjects[ids[i]].data, t).None?
    {
      var i := 0;
      while i < |ids|
        invariant 0 <= i <= |ids|
        invariant forall i' :: 0 <= i' < i && ids[i'] in cssObjects ==> FirstOfType(cssObjects[ids[i']].data, t).None?
      {
        if ids[i] in cssObjects {
          var data := cssObjects[ids[i]].data;
          var j := 0;
          while j < |data|
            invariant 0 <= j <= |data|
            invariant forall j' :: 0 <= j' < j ==> data[j'].cssType != t
          {
            if data[j].cssType == t {
              FirstOfTypeIsFirst(data, t, j);
              return Some((i, j));
            }
            j := j + 1;
          }
        }
        i := i + 1;
      }
      return None;
    }

    /** `findFirstElement`: the element `FindFirst` points at, with its id's layer and the id. */
    method FindFirstElement(ids: seq<string>, t: CssType) returns (r: Option<(CssData, int, string)>)
      ensures r.Some? ==> exists i :: 0 <= i < |ids| && r.value.2 == ids[i] && FirstMatchAt(ids, t, i)
      ensures r.Some? ==> r.value.2 in cssObjects && r.value.1 == cssObjects[r.value.2].layer
      ensures r.Some? ==> FirstOfType(cssObjects[r.value.2].data, t).Some? &&
                          r.value.0 == cssObjects[r.value.2].data[FirstOfType(cssObjects[r.value.2].data, t).value]
      ensures r.Some? ==> r.value.0.cssType == t
      ensures r.None? ==> forall i :: 0 <= i < |ids| && ids[i] in cssObjects ==> FirstOfType(cssObjects[ids[i]].data, t).None?
    {
      var found := FindFirst(ids, t);
      if found.None? {
        return None;
      }
      var (i, j) := found.value;
      var entry := cssObjects[ids[i]];
      r := Some((entry.data[j], entry.layer, ids[i]));
    }

    /** Id `ids[i]` is the first of `ids` whose entry holds an element of type `t`. */
    ghost predicate FirstMatchAt(ids: seq<string>, t: CssType, i: int)
      reads this
    {
      0 <= i < |ids| && ids[i] in cssObjects && FirstOfType(cssObjects[ids[i]].data, t).Some? &&
      forall i' :: 0 <= i' < i && ids[i'] in cssObjects ==> FirstOfType(cssObjects[ids[i']].data, t).None?
    }

    /** `findCssObject`: the entry of the first listed id that has one. */
    method FindCssObject(ids: seq<string>) returns (r: Option<CssObject>)
      ensures r.Some? ==> exists i :: 0 <= i < |ids| && ids[i] in cssObjects && r.value == cssObjects[ids[i]] &&
                                      forall i' :: 0 <= i' < i ==> ids[i'] !in cssObjects
      ensures r.None? <==> forall i :: 0 <= i < |ids| ==> ids[i] !in cssObjects
    {
      var i := 0;
      while i < |ids|
        invariant 0 <= i <= |ids|
        invariant forall i' :: 0 <= i' < i ==> ids[i'] !in cssObjects
      {
        if ids[i] in cssObjects {
          return Some(cssObjects[ids[i]]);
        }
        i := i + 1;
      }
      return None;
    }

    /**
     * `updateLabel`: the first label of the first listed id gets `content` as
     * inner HTML and a fresh hidden VR panel on its id's layer; no label
     * means nothing changes and the result is undefined.
     */
    method UpdateLabel(ids: seq<string>, content: string) returns (r: Option<CssData>)
      modifies this`cssObjects
      requires Valid()
      ensures Valid()
      ensures cssObjects.Keys == old(cssObjects.Keys)
      ensures r.None? ==> cssObjects == old(cssObjects)
      ensures r.None? <==> forall i :: 0 <= i < |ids| && ids[i] in old(cssObjects) ==> FirstOfType(old(cssObjects)[ids[i]].data, Label).None?
      ensures r.Some? ==> r.value.cssType == Label && r.value.element.innerHtml == content
      ensures r.Some? ==> exists i :: old(FirstMatchAt(ids, Label, i)) &&
                            var k := ids[i];
                            var j := FirstOfType(old(cssObjects)[k].data, Label).value;
                            cssObjects == old(cssObjects)[k := old(cssObjects)[k].(data := old(cssObjects)[k].data[j := r.value])] &&
                            r.value.vr == Some(VrPanel(content, old(cssObjects)[k].layer, false, false)) &&
                            r.value == old(cssObjects)[k].data[j].(element := r.value.element, vr := r.value.vr)
    {
      var found := FindFirst(ids, Label);
      if found.None? {
        r := None;
      } else {
        var (i, j) := found.value;
        var k := ids[i];
        var entry := cssObjects[k];
        var old_d := entry.data[j];
        var d := old_d.(element := old_d.element.(innerHtml := content),
                        vr := Some(VrPanel(content, entry.layer, false, false)));
        assert FirstOfType(entry.data, Label) == Some(j);
        assert FirstMatchAt(ids, Label, i);
        ReplaceData(k, j, d);
        r := Some(d);
      }
    }

    /** `updateImage`: the first image of the first listed id gets the url and the size, 34 when the size is falsy. */
    method UpdateImage(ids: seq<string>, url: string, size: real) returns (r: Option<CssData>)
      modifies this`cssObjects
      requires Valid()
      ensures Valid()
      ensures cssObjects.Keys == old(cssObjects.Keys)
      ensures r.None? ==> cssObjects == old(cssObjects)
      ensures r.None? <==> forall i :: 0 <= i < |ids| && ids[i] in old(cssObjects) ==> FirstOfType(old(cssObjects)[ids[i]].data, Image).None?
      ensures r.Some? ==> r.value.cssType == Image && r.value.element.src == url
      ensures r.Some? ==> r.value.element.width == r.value.element.height == (if size != 0.0 then size else DefaultImageSize)
      ensures r.Some? ==> exists i :: old(FirstMatchAt(ids, Image, i)) &&
                            var k := ids[i];
                            var j := FirstOfType(old(cssObjects)[k].data, Image).value;
                            cssObjects == old(cssObjects)[k := old(cssObjects)[k].(data := old(cssObjects)[k].data[j := r.value])] &&
                            r.value == old(cssObjects)[k].data[j].(element := r.value.element)
    {
      var found := FindFirst(ids, Image);
      if found.None? {
        r := None;
      } else {
        var (i, j) := found.value;
        var k := ids[i];
        var entry := cssObjects[k];
        var old_d := entry.data[j];
        var s := if size != 0.0 then size else DefaultImageSize;
        var d := old_d.(element := old_d.element.(src := url, width := s, height := s));
        assert FirstOfType(entry.data, Image) == Some(j);
        assert FirstMatchAt(ids, Image, i);
        ReplaceData(k, j, d);
        r := Some(d);
      }
    }

    /** One data entry of key `k` replaced by an updated copy of itself, keeping its id. */
    method ReplaceData(k: string, j: nat, d: CssData)
      modifies this`cssObjects
      requires Valid() && k in cssObjects && j < |cssObjects[k].data| && d.id == cssObjects[k].data[j].id
      ensures Valid()
      ensures cssObjects == old(cssObjects)[k := old(cssObjects)[k].(data := old(cssObjects)[k].data[j := d])]
    {
      ReplaceKeepsInv(order, cssObjects, lastLayerIndex, counter.last, k, j, d);
      cssObjects := cssObjects[k := cssObjects[k].(data := cssObjects[k].data[j := d])];
    }

    /** `updateObjectVisibility`: every CSS object of every key takes `WithVisibility`; keys and layers stay. */
    method UpdateObjectVisibility(vrActive: bool)
      modifies this`cssObjects
      requires Valid()
      ensures Valid()
      ensures cssObjects.Keys == old(cssObjects.Keys)
      ensures forall k :: k in cssObjects ==> cssObjects[k] == ObjectWithVisibility(old(cssObjects)[k], vrActive)
    {
      var objs := MapVisibility(order, cssObjects, vrActive);
      VisibilityKeepsInv(order, cssObjects, lastLayerIndex, counter.last, vrActive, objs);
      cssObjects := objs;
    }
  }

  /** The loop of `updateObjectVisibility`: each listed key's entry passes through `ObjectWithVisibility`. */
  method MapVisibility(order: seq<string>, objs: map<string, CssObject>, vrActive: bool) returns (r: map<string, CssObject>)
    requires forall k :: k in objs <==> k in order
    ensures r.Keys == objs.Keys
    ensures forall k :: k in r ==> r[k] == ObjectWithVisibility(objs[k], vrActive)
  {
    r := objs;
    var i := 0;
    while i < |order|
      invariant 0 <= i <= |order|
      invariant r.Keys == objs.Keys
      invariant forall k :: k in r ==> r[k] == if k in order[..i] then ObjectWithVisibility(objs[k], vrActive) else objs[k]
    {
      var k := order[i];
      var entry := objs[k];
      var data := DataWithVisibility(entry.data, vrActive);
      r := r[k := entry.(data := data)];
      assert order[..i + 1] == order[..i] + [k];
      i := i + 1;
    }
    assert order[..|order|] == order;
  }

  /** The inner loop of `updateObjectVisibility`: every CSS object of one entry passes through `WithVisibility`. */
  method DataWithVisibility(data: seq<CssData>, vrActive: bool) returns (r: seq<CssData>)
    ensures |r| == |data|
    ensures forall j :: 0 <= j < |r| ==> r[j] == WithVisibility(data[j], vrActive)
  {
    r := data;
    var j := 0;
    while j < |r|
      invariant 0 <= j <= |r| && |r| == |data|
      invariant forall j' :: 0 <= j' < |r| ==> r[j'] == if j' < j then WithVisibility(data[j'], vrActive) else data[j']
    {
      r := r[j := WithVisibility(r[j], vrActive)];
      j := j + 1;
    }
  }

  /** An entry after `updateObjectVisibility`: same layer, every CSS object passed through `WithVisibility`. */
  function ObjectWithVisibility(o: CssObject, vrActive: bool): (r: CssObject)
    ensures r.layer == o.layer && |r.data| == |o.data|
    ensures forall j :: 0 <= j < |r.data| ==> r.data[j] == WithVisibility(o.data[j], vrActive)
  {
    o.(data := seq(|o.data|, j requires 0 <= j < |o.data| => WithVisibility(o.data[j], vrActive)))
  }

  lemma FirstOfTypeIsFirst(data: seq<CssData>, t: CssType, j: nat)
    requires j < |data| && data[j].cssType == t
    requires forall j' :: 0 <= j' < j ==> data[j'].cssType != t
    ensures FirstOfType(data, t) == Some(j)
  {
    if j > 0 {
      FirstOfTypeIsFirst(data[1..], t, j - 1);
    }
  }

  lemma AllocKeepsInv(order: seq<string>, objs: map<string, CssObject>, lastLayer: int, nextId: nat, id: string)
    requires CssInv(order, objs, lastLayer, nextId)
    requires id !in objs
    ensures CssInv(order + [id], objs[id := CssObject(lastLayer, [])], lastLayer + 1, nextId)
  {
    var order' := order + [id];
    var objs' := objs[id := CssObject(lastLayer, [])];
    assert id !in order;
    forall i | 0 <= i < |order'|
      ensures order'[i] in objs' && objs'[order'[i]].layer == InitialLabelLayerIndex + i
    {
      if i < |order| {
        assert order'[i] == order[i] != id;
      }
    }
    forall k | k in objs'
      ensures IdsBelow(objs'[k].data, nextId)
    {
      if k != id {
        assert IdsBelow(objs[k].data, nextId);
      }
    }
  }

  /** Adding `d` under a new key `id`, which takes the next layer, keeps the invariant. */
  lemma NewKeyKeepsInv(order: seq<string>, objs: map<string, CssObject>, lastLayer: int, objectId: nat, id: string, d: CssData)
    requires CssInv(order, objs, lastLayer, objectId)
    requires id !in objs && d.id == objectId
    ensures CssInv(order + [id], objs[id := CssObject(lastLayer, [d])], lastLayer + 1, objectId + 1)
  {
    AllocKeepsInv(order, objs, lastLayer, objectId, id);
    var objs' := objs[id := CssObject(lastLayer, [])];
    CreateKeepsInv(order + [id], objs', lastLayer + 1, objectId, id, d);
    assert objs'[id].(data := objs'[id].data + [d]) == CssObject(lastLayer, [d]);
    assert objs'[id := CssObject(lastLayer, [d])] == objs[id := CssObject(lastLayer, [d])];
  }

  lemma CreateKeepsInv(order: seq<string>, objs: map<string, CssObject>, lastLayer: int, objectId: nat, id: string, d: CssData)
    requires CssInv(order, objs, lastLayer, objectId)
    requires id in objs && d.id == objectId
    ensures CssInv(order, objs[id := objs[id].(data := objs[id].data + [d])], lastLayer, objectId + 1)
  {
    var objs' := objs[id := objs[id].(data := objs[id].data + [d])];
    forall k | k in objs'
      ensures IdsBelow(objs'[k].data, objectId + 1)
    {
      var s := objs[k].data;
      assert IdsBelow(s, objectId);
      if k == id {
        var s' := s + [d];
        forall a, b | 0 <= a < b < |s'|
          ensures s'[a].id < s'[b].id
        {
          if b == |s| {
            assert s'[a] == s[a];
          }
        }
      }
    }
  }

  lemma ReplaceKeepsInv(order: seq<string>, objs: map<string, CssObject>, lastLayer: int, nextId: nat, k: string, j: nat, d: CssData)
    requires CssInv(order, objs, lastLayer, nextId)
    requires k in objs && j < |objs[k].data| && d.id == objs[k].data[j].id
    ensures CssInv(order, objs[k := objs[k].(data := objs[k].data[j := d])], lastLayer, nextId)
  {
    var objs' := objs[k := objs[k].(data := objs[k].data[j := d])];
    assert IdsBelow(objs[k].data, nextId);
    forall k' | k' in objs'
      ensures IdsBelow(objs'[k'].data, nextId)
    {
      assert IdsBelow(objs[k'].data, nextId);
    }
  }

  lemma VisibilityKeepsInv(order: seq<string>, objs: map<string, CssObject>, lastLayer: int, nextId: nat,
                            vrActive: bool, objs': map<string, CssObject>)
    requires CssInv(order, objs, lastLayer, nextId)
    requires objs'.Keys == objs.Keys
    requires forall k :: k in objs' ==> objs'[k] == ObjectWithVisibility(objs[k], vrActive)
    ensures CssInv(order, objs', lastLayer, nextId)
  {
    forall k | k in objs'
      ensures IdsBelow(objs'[k].data, nextId)
    {
      assert IdsBelow(objs[k].data, nextId);
    }
  }

  /** Distinct ids of a manager own distinct layers, and no id owns the markers layer. */
  lemma LayersDistinct(order: seq<string>, objs: map<string, CssObject>, lastLayer: int, nextId: nat, a: string, b: string)
    requires CssInv(order, objs, lastLayer, nextId)
    requires a in objs && b in objs
    ensures a != b ==> objs[a].layer != objs[b].layer
    ensures InitialLabelLayerIndex <= objs[a].layer < lastLayer
  {
    var i :| 0 <= i < |order| && order[i] == a;
    var j :| 0 <= j < |order| && order[j] == b;
    assert objs[a].layer == InitialLabelLayerIndex + i;
    assert objs[b].layer == InitialLabelLayerIndex + j;
  }
}
