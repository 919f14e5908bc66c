/**
 * `ThreedGenericSceneManager`: owns the components of one 3-D scene, merges
 * the widget values it is given and passes them on, and forwards window
 * events to listener components while the pointer is over its container.
 * Components are identified by an id and carry the capabilities the source
 * checks at run time (updatable, listener) as flags.
 */
module GenericSceneManager {
  import opened Wrappers
  import opened JsValues

  /** The messages of the errors thrown below. */
  const ContainerDefined: string := "Render container already defined!"
  const UndefinedWidth: string := "Cannot read properties of undefined (reading 'width')"
  const UndefinedHeight: string := "Cannot read properties of undefined (reading 'height')"

  datatype Component = Component(id: nat, typeName: string, isUpdatable: bool, isListener: bool)

  /** What a component was handed, in order. */
  datatype Delivery =
    | OnInitialize(component: nat)
    | OnUpdateValues(component: nat, values: map<string, JsValue>)
    /** `onMouseMove` / `onMouseClick` / `onKeyDown` / `onKeyUp`, according to the event. */
    | OnEvent(component: nat, event: WindowEvent)

  /** The kinds of window events a manager listens to. */
  datatype WindowEvent = MouseMoveEvent(clientX: real, clientY: real) | ClickEvent(clientX: real, clientY: real)
                       | KeyDownEvent(key: string) | KeyUpEvent(key: string)

  /** A bounding client rectangle. */
  datatype Rect = Rect(left: real, top: real, width: real, height: real)

  /** The components of `cs` that pass `test`, in order. */
  function Filter(cs: seq<Component>, test: Component -> bool): (r: seq<Component>)
    ensures |r| <= |cs|
    ensures forall c :: c in r <==> c in cs && test(c)
  {
    if cs == [] then [] else (if test(cs[0]) then [cs[0]] else []) + Filter(cs[1..], test)
  }

  /** `getComponent`: the first component of the given type. */
  function GetComponent(cs: seq<Component>, typeName: string): (r: Option<Component>)
    ensures r.Some? ==> exists i :: 0 <= i < |cs| && cs[i] == r.value && r.value.typeName == typeName &&
                                    forall j :: 0 <= j < i ==> cs[j].typeName != typeName
    ensures r.None? <==> forall i :: 0 <= i < |cs| ==> cs[i].typeName != typeName
  {
    if cs == [] then None
    else if cs[0].typeName == typeName then Some(cs[0])
    else
      GetComponent(cs[1..], typeName)
  }

  /** `{ ...current, ...values }`: keys of `values` win, the other current keys survive. */
  function Merge(current: Option<map<string, JsValue>>, values: Option<map<string, JsValue>>): (r: map<string, JsValue>)
    ensures values.Some? ==> forall k :: k in values.value ==> k in r && r[k] == values.value[k]
    ensures current.Some? ==> forall k :: k in current.value && (values.None? || k !in values.value) ==> k in r && r[k] == current.value[k]
    ensures forall k :: k in r ==> (current.Some? && k in current.value) || (values.Some? && k in values.value)
  {
    (if current.Some? then current.value else map[]) + (if values.Some? then values.value else map[])
  }

  /**
   * One normalised pointer coordinate, `(client - start) / size * 2 - 1`
   * (negated for y); `None` is a non-finite result, which a zero size gives.
   */
  function NormalisedCoord(client: real, start: real, size: real, flip: bool): (r: Option<real>)
    ensures size == 0.0 <==> r.None?
    ensures r.Some? && !flip ==> r.value == (client - start) / size * 2.0 - 1.0
    ensures r.Some? && flip ==> r.value == -((client - start) / size) * 2.0 + 1.0
  {
    if size == 0.0 then None
    else if flip then Some(-((client - start) / size) * 2.0 + 1.0)
    else Some((client - start) / size * 2.0 - 1.0)
  }

  /** A normalised coordinate strictly inside (-1, 1); a non-finite one never is. */
  predicate InsideUnit(v: Option<real>)
  {
    v.Some? && -1.0 < v.value < 1.0
  }

  /** The pointer lies inside the rectangle's interior exactly when both coordinates are strictly inside (-1, 1). */
  lemma InsideUnitMeansInsideRect(x: real, rect: Rect)
    requires rect.width > 0.0
    ensures InsideUnit(NormalisedCoord(x, rect.left, rect.width, false)) <==> rect.left < x < rect.left + rect.width
  {
    DivBounds(x - rect.left, rect.width);
  }

  /** The manager-wide scene id counter and activity map (static fields). */
  class SceneRegistry {
    var lastSceneId: nat
    var active: map<nat, bool>

    /** Every registered scene id was handed out already. */
    ghost predicate Valid()
      reads this
    {
      forall id :: id in active ==> id < lastSceneId
    }

    constructor()
      ensures Valid()
      ensures lastSceneId == 1 && active == map[]
    {
      lastSceneId := 1;
      active := map[];
    }
  }

  class ThreedGenericSceneManager {
    const registry: SceneRegistry
    const sceneId: nat
    const vr: bool
    var components: seq<Component>
    var rendererContainer: Option<Rect>
    var screenWidth: real
    var screenHeight: real
    var currentValues: Option<map<string, JsValue>>
    var mouseX: Option<real>
    var mouseY: Option<real>
    var delivered: seq<Delivery>

    ghost predicate Valid()
      reads this, registry
    {
      registry.Valid() && sceneId in registry.active
    }

    /** The constructor takes the next scene id and registers the manager as inactive. */
    constructor(registry: SceneRegistry, vr: bool, screenWidth: real, screenHeight: real)
      modifies registry
      requires registry.Valid()
      ensures Valid()
      ensures sceneId !in old(registry.active)
      ensures sceneId == old(registry.lastSceneId) && registry.lastSceneId == old(registry.lastSceneId) + 1
      ensures registry.active == old(registry.active)[sceneId := false]
      ensures !IsActive()
      ensures this.registry == registry && this.vr == vr
      ensures components == [] && rendererContainer.None? && currentValues.None? && delivered == []
      ensures this.screenWidth == screenWidth && this.screenHeight == screenHeight
    {
      this.registry := registry;
      this.vr := vr;
      sceneId := registry.lastSceneId;
      components := [];
      rendererContainer := None;
      this.screenWidth, this.screenHeight := screenWidth, screenHeight;
      currentValues := None;
      mouseX, mouseY := Some(0.0), Some(0.0);
      delivered := [];
      new;
      registry.lastSceneId := registry.lastSceneId + 1;
      registry.active := registry.active[sceneId := false];
    }

    /** `isActive`: the registry records this scene as active. */
    predicate IsActive()
      reads this, registry
    {
      sceneId in registry.active && registry.active[sceneId]
    }

    /** `add`: append a component. */
    method Add(c: Component)
      modifies this
      ensures components == old(components) + [c]
      ensures delivered == old(delivered) && currentValues == old(currentValues) && rendererContainer == old(rendererContainer)
    {
      components := components + [c];
    }

    /** `initialize` (component part): every component is initialised with this manager, in order. */
    method Initialize()
      modifies this
      ensures components == old(components) && currentValues == old(currentValues)
      ensures rendererContainer == old(rendererContainer)
      ensures |delivered| == |old(delivered)| + |components|
      ensures delivered[..|old(delivered)|] == old(delivered)
      ensures forall i :: 0 <= i < |components| ==> delivered[|old(delivered)| + i] == OnInitialize(components[i].id)
    {
      var i := 0;
      while i < |components|
        invariant 0 <= i <= |components|
        invariant components == old(components) && currentValues == old(currentValues)
        invariant rendererContainer == old(rendererContainer)
        invariant |delivered| == |old(delivered)| + i && delivered[..|old(delivered)|] == old(delivered)
        invariant forall j :: 0 <= j < i ==> delivered[|old(delivered)| + j] == OnInitialize(components[j].id)
      {
        delivered := delivered + [OnInitialize(components[i].id)];
        i := i + 1;
      }
    }

    /** `findComponentsByTester`: the components passing `test`, in insertion order. */
    method FindComponentsByTester(test: Component -> bool) returns (r: seq<Component>)
      ensures r == Filter(components, test)
    {
      r := [];
      var cs := components;
      var index := 0;
      while index < |cs|
        invariant 0 <= index <= |cs|
        invariant r == Filter(cs[..index], test)
      {
        assert cs[..index + 1] == cs[..index] + [cs[index]];
        FilterAppend(cs[..index], [cs[index]], test);
        assert Filter([cs[index]], test) == if test(cs[index]) then [cs[index]] else [];
        if test(cs[index]) {
          r := r + [cs[index]];
        }
        index := index + 1;
      }
      assert cs[..index] == cs;
    }

    /** `attachToElement`: refuses a second container; otherwise records it and sizes the scene to it. */
    method AttachToElement(container: Rect) returns (r: Result<()>)
      modifies this
      ensures old(rendererContainer).Some? ==>
                r.Failure? && rendererContainer == old(rendererContainer) &&
                screenWidth == old(screenWidth) && screenHeight == old(screenHeight)
      ensures old(rendererContainer).None? ==>
                r.Success? && rendererContainer == Some(container) &&
                screenWidth == container.width && screenHeight == container.height
      ensures components == old(components) && currentValues == old(currentValues) && delivered == old(delivered)
    {
      if rendererContainer.Some? {
        return Failure(ContainerDefined);
      }
      rendererContainer := Some(container);
      r := Resize(None, None);
    }

    /**
     * `resize`: a truthy width or height is taken as given, a falsy one
     * comes from the container's rectangle; reading the rectangle without a
     * container throws, after the width has been set if it was given.
     */
    method Resize(width: Option<real>, height: Option<real>) returns (r: Result<()>)
      modifies this
      ensures rendererContainer == old(rendererContainer) && components == old(components)
      ensures currentValues == old(currentValues) && delivered == old(delivered)
      ensures r.Success? <==> rendererContainer.Some? || (TruthyNum(width) && TruthyNum(height))
      ensures TruthyNum(width) ==> screenWidth == width.value
      ensures !TruthyNum(width) && rendererContainer.Some? ==> screenWidth == rendererContainer.value.width
      ensures !TruthyNum(width) && rendererContainer.None? ==> screenWidth == old(screenWidth)
      ensures r.Success? ==> screenHeight == if TruthyNum(height) then height.value else rendererContainer.value.height
      ensures r.Failure? ==> screenHeight == old(screenHeight)
    {
      if TruthyNum(width) {
        screenWidth := width.value;
      } else if rendererContainer.Some? {
        screenWidth := rendererContainer.value.width;
      } else {
        return Failure(UndefinedWidth);
      }
      if TruthyNum(height) {
        screenHeight := height.value;
      } else if rendererContainer.Some? {
        screenHeight := rendererContainer.value.height;
      } else {
        return Failure(UndefinedHeight);
      }
      return Success(());
    }

    /** `setValues`: merge the new values over the current ones, then pass them on. */
    method SetValues(values: Option<map<string, JsValue>>)
      modifies this
      ensures currentValues == Some(Merge(old(currentValues), values))
      ensures delivered == old(delivered) + UpdateDeliveries(Filter(components, IsUpdatable), currentValues.value)
      ensures components == old(components) && rendererContainer == old(rendererContainer)
    {
      currentValues := Some(Merge(currentValues, values));
      UpdateValues();
    }

    /** `updateValues`: nothing while no values were ever set; otherwise every updatable component gets them. */
    method UpdateValues()
      modifies this`delivered
      ensures currentValues.None? ==> delivered == old(delivered)
      ensures currentValues.Some? ==> delivered == old(delivered) + UpdateDeliveries(Filter(components, IsUpdatable), currentValues.value)
    {
      if currentValues.None? {
        return;
      }
      var updatables := FindComponentsByTester(IsUpdatable);
      var calls := UpdateCalls(updatables, currentValues.value);
      delivered := delivered + calls;
    }

    /**
     * `calculateMousePosition`: without a container nothing happens;
     * otherwise the pointer is normalised to the container and the scene is
     * active exactly when it lies strictly inside.
     */
    method CalculateMousePosition(clientX: real, clientY: real)
      modifies this, registry
      requires Valid()
      ensures Valid()
      ensures registry.lastSceneId == old(registry.lastSceneId)
      ensures components == old(components) && delivered == old(delivered) && currentValues == old(currentValues)
      ensures rendererContainer == old(rendererContainer)
      ensures rendererContainer.None? ==> registry.active == old(registry.active) && mouseX == old(mouseX) && mouseY == old(mouseY)
      ensures rendererContainer.Some? ==>
                mouseX == NormalisedCoord(clientX, rendererContainer.value.left, rendererContainer.value.width, false) &&
                mouseY == NormalisedCoord(clientY, rendererContainer.value.top, rendererContainer.value.height, true) &&
                registry.active == old(registry.active)[sceneId := InsideUnit(mouseX) && InsideUnit(mouseY)]
      ensures rendererContainer.Some? ==> (IsActive() <==> InsideUnit(mouseX) && InsideUnit(mouseY))
    {
      if rendererContainer.None? {
        return;
      }
      var rect := rendererContainer.value;
      mouseX := NormalisedCoord(clientX, rect.left, rect.width, false);
      mouseY := NormalisedCoord(clientY, rect.top, rect.height, true);
      registry.active := registry.active[sceneId := InsideUnit(mouseX) && InsideUnit(mouseY)];
    }

    /**
     * The window listeners: pointer events first update the position; any
     * event then reaches the listener components, in order, only while the
     * scene is active.
     */
    method HandleEvent(e: WindowEvent)
      modifies this, registry
      requires Valid()
      ensures Valid()
      ensures components == old(components) && currentValues == old(currentValues)
      ensures rendererContainer == old(rendererContainer)
      ensures (e.KeyDownEvent? || e.KeyUpEvent?) ==> registry.active == old(registry.active)
      ensures !IsActive() ==> delivered == old(delivered)
      ensures IsActive() ==> delivered == old(delivered) + EventDeliveries(Filter(components, IsListener), e)
    {
      if e.MouseMoveEvent? || e.ClickEvent? {
        CalculateMousePosition(e.clientX, e.clientY);
      }
      if !IsActive() {
        return;
      }
      DeliverToListeners(e);
    }

    /** Every listener component receives the event, in insertion order. */
    method DeliverToListeners(e: WindowEvent)
      modifies this
      ensures delivered == old(delivered) + EventDeliveries(Filter(components, IsListener), e)
      ensures components == old(components)
      ensures currentValues == old(currentValues)
      ensures rendererContainer == old(rendererContainer)
    {
      var listeners := FindComponentsByTester(IsListener);
      var calls := ListenerCalls(listeners, e);
      delivered := delivered + calls;
    }
  }

  /** The loop of `updateValues`: one call per updatable component, in order. */
  method UpdateCalls(updatables: seq<Component>, values: map<string, JsValue>) returns (out: seq<Delivery>)
    ensures out == UpdateDeliveries(updatables, values)
  {
    out := [];
    var i := 0;
    while i < |updatables|
      invariant 0 <= i <= |updatables|
      invariant out == UpdateDeliveries(updatables[..i], values)
    {
      UpdateDeliveriesStep(updatables, i, values);
      out := out + [OnUpdateValues(updatables[i].id, values)];
      i := i + 1;
    }
    assert updatables[..|updatables|] == updatables;
  }

  /** The loop of the event handlers: one call per listener, in order. */
  method ListenerCalls(listeners: seq<Component>, e: WindowEvent) returns (out: seq<Delivery>)
    ensures out == EventDeliveries(listeners, e)
  {
    out := [];
    var i := 0;
    while i < |listeners|
      invariant 0 <= i <= |listeners|
      invariant out == EventDeliveries(listeners[..i], e)
    {
      EventDeliveriesAppend(listeners[..i], listeners[i], e);
      assert listeners[..i + 1] == listeners[..i] + [listeners[i]];
      out := out + [OnEvent(listeners[i].id, e)];
      i := i + 1;
    }
    assert listeners[..|listeners|] == listeners;
  }

  /** A number option that is JavaScript-truthy (present and non-zero). */
  predicate TruthyNum(v: Option<real>)
  {
    v.Some? && v.value != 0.0
  }

  function IsUpdatable(c: Component): bool { c.isUpdatable }

  function IsListener(c: Component): bool { c.isListener }

  /** One `onUpdateValues(values)` call per component, in order. */
  function UpdateDeliveries(cs: seq<Component>, values: map<string, JsValue>): (r: seq<Delivery>)
    ensures |r| == |cs|
    ensures forall i :: 0 <= i < |cs| ==> r[i] == OnUpdateValues(cs[i].id, values)
  {
    if cs == [] then [] else [OnUpdateValues(cs[0].id, values)] + UpdateDeliveries(cs[1..], values)
  }

  /** One more component of `cs` handed the values adds its delivery at the end. */
  lemma UpdateDeliveriesStep(cs: seq<Component>, i: nat, values: map<string, JsValue>)
    requires i < |cs|
    ensures UpdateDeliveries(cs[..i + 1], values) == UpdateDeliveries(cs[..i], values) + [OnUpdateValues(cs[i].id, values)]
  {
    assert cs[..i + 1] == cs[..i] + [cs[i]];
  }

  function EventDeliveries(cs: seq<Component>, e: WindowEvent): (r: seq<Delivery>)
    ensures |r| == |cs|
    ensures forall i :: 0 <= i < |cs| ==> r[i] == OnEvent(cs[i].id, e)
  {
    seq(|cs|, i requires 0 <= i < |cs| => OnEvent(cs[i].id, e))
  }

  lemma EventDeliveriesAppend(cs: seq<Component>, c: Component, e: WindowEvent)
    ensures EventDeliveries(cs + [c], e) == EventDeliveries(cs, e) + [OnEvent(c.id, e)]
  {
    assert forall i :: 0 <= i < |cs| ==> (cs + [c])[i] == cs[i];
  }

  /** Filtering distributes over concatenation, so it keeps the relative order of what it keeps. */
  lemma {:induction false} FilterAppend(cs1: seq<Component>, cs2: seq<Component>, test: Component -> bool)
    ensures Filter(cs1 + cs2, test) == Filter(cs1, test) + Filter(cs2, test)
  {
    if cs1 != [] {
      assert (cs1 + cs2)[1..] == cs1[1..] + cs2;
      FilterAppend(cs1[1..], cs2, test);
    } else {
      assert cs1 + cs2 == cs2;
    }
  }

  lemma DivBounds(a: real, w: real)
    requires w > 0.0
    ensures 0.0 < a / w <==> 0.0 < a
    ensures a / w < 1.0 <==> a < w
  {
    var q := a / w;
    assert q * w == a;
    MulSign(q, w);
    MulSign(q - 1.0, w);
    assert (q - 1.0) * w == a - w;
  }

  lemma MulSign(x: real, y: real)
    requires y > 0.0
    ensures x > 0.0 <==> x * y > 0.0
    ensures x < 0.0 <==> x * y < 0.0
  {
  }
}
