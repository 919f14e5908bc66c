/**
 * `ThreedTransformControllerComponent`: attaches three.js transform controls
 * to a model, disables the orbit controller while the user drags, and when
 * a drag ends reports which of position, rotation (in degrees) and scale
 * changed since they were last recorded.
 */
module TransformController {
  import opened Wrappers
  import opened JsValues
  import opened ThreedModels
  import opened SceneGraph
  import opened VectorUtils
  import opened BaseComponents

  /** The messages of the errors thrown below. */
  const UndefinedControls: string := "Cannot read properties of undefined (reading 'detach')"
  const UndefinedModelUserData: string := "Cannot read properties of undefined (reading 'userData')"

  const Rad2Deg: real := 180.0 / 3.141592653589793

  /** `THREE.MathUtils.radToDeg` applied to each Euler angle: the inverse of `DegToRad`, keeping signs. */
  function RadToDeg(v: Vector3): (r: Vector3)
    ensures DegToRad(r) == v
    ensures (r.x > 0.0 <==> v.x > 0.0) && (r.y > 0.0 <==> v.y > 0.0) && (r.z > 0.0 <==> v.z > 0.0)
  {
    Vector3(v.x * Rad2Deg, v.y * Rad2Deg, v.z * Rad2Deg)
  }

  datatype TransformMode = Translate | Rotate | Scale

  /** Translation, rotation (radians) and scale snaps set while Shift is held. */
  datatype Snaps = Snaps(translation: real, rotation: real, scale: real)

  const ShiftSnaps := Snaps(100.0, 15.0 * (3.141592653589793 / 180.0), 0.25)

  datatype TransformEvent =
    | AttachChanged(model: Option<string>)
    | DraggingChanged(dragging: bool)
    | PositionChanged(id: JsValue, vector: Vector3)
    | RotationChanged(id: JsValue, vector: Vector3)
    | ScaleChanged(id: JsValue, vector: Vector3)

  /** The change events of a drag end: one per vector that differs from its last recorded value, in this order. */
  function ChangeEvents(id: JsValue, position: Vector3, rotation: Vector3, scale: Vector3,
                        lastPosition: Vector3, lastRotation: Vector3, lastScale: Vector3): (r: seq<TransformEvent>)
    ensures |r| <= 3
    ensures PositionChanged(id, position) in r <==> position != lastPosition
    ensures RotationChanged(id, rotation) in r <==> rotation != lastRotation
    ensures ScaleChanged(id, scale) in r <==> scale != lastScale
    ensures forall e :: e in r ==> e.PositionChanged? || e.RotationChanged? || e.ScaleChanged?
  {
    (if position != lastPosition then [PositionChanged(id, position)] else []) +
    (if rotation != lastRotation then [RotationChanged(id, rotation)] else []) +
    (if scale != lastScale then [ScaleChanged(id, scale)] else [])
  }

  /** `switch (event.code)` of `onKeyDown`: the mode a key selects. */
  function ModeKey(code: string): (r: Option<TransformMode>)
    ensures r == Some(Translate) <==> code == "KeyT"
    ensures r == Some(Rotate) <==> code == "KeyR"
    ensures r == Some(Scale) <==> code == "KeyS"
  {
    if code == "KeyT" then Some(Translate)
    else if code == "KeyR" then Some(Rotate)
    else if code == "KeyS" then Some(Scale)
    else None
  }

  predicate IsShift(code: string)
  {
    code == "ShiftLeft" || code == "ShiftRight"
  }

  class ThreedTransformControllerComponent {
    const base: ThreedBaseComponent
    const visualizeBoxHelper: bool
    /** The orbit controller component, by identity, and whether its controls are enabled. */
    var orbitController: Option<nat>
    var orbitEnabled: bool
    /** Whether the transform controls exist (they are made by `initialize`), and how many were added to the scene. */
    var controlReady: bool
    var controlsInScene: nat
    var controlVisible: bool
    /** The model the controls are attached to, as it was when attached. */
    var attached: Option<Node>
    var mode: TransformMode
    var snaps: Option<Snaps>
    var resets: nat
    var boxHelperReady: bool
    var boxVisible: bool
    var lastPosition: MutableVector3
    var lastRotation: MutableVector3
    var lastScale: MutableVector3
    var events: seq<TransformEvent>

    /** The last position, rotation and scale are three separate vectors. */
    ghost predicate Distinct()
      reads this
    {
      lastPosition != lastRotation && lastPosition != lastScale && lastRotation != lastScale
    }

    ghost predicate Valid()
      reads this
    {
      Distinct() && (controlReady && visualizeBoxHelper ==> boxHelperReady)
    }

    constructor(base: ThreedBaseComponent, visualizeBoxHelper: bool, orbitController: Option<nat>)
      ensures Valid() && fresh(lastPosition) && fresh(lastRotation) && fresh(lastScale)
      ensures this.base == base && this.visualizeBoxHelper == visualizeBoxHelper && this.orbitController == orbitController
      ensures orbitEnabled && !controlReady && controlsInScene == 0 && !controlVisible && attached.None?
      ensures mode == Translate && snaps.None? && resets == 0 && !boxHelperReady && !boxVisible && events == []
      ensures lastPosition.Value() == VectorZero() && lastRotation.Value() == VectorZero() && lastScale.Value() == VectorZero()
    {
      this.base := base;
      this.visualizeBoxHelper := visualizeBoxHelper;
      this.orbitController := orbitController;
      orbitEnabled := true;
      controlReady, controlsInScene, controlVisible, attached := false, 0, false, None;
      mode, snaps, resets := Translate, None, 0;
      boxHelperReady, boxVisible := false, false;
      lastPosition := new MutableVector3(VectorZero());
      lastRotation := new MutableVector3(VectorZero());
      lastScale := new MutableVector3(VectorZero());
      events := [];
    }

    /**
     * `initialize`: without an explicit orbit controller the first one found
     * is adopted; every call adds new (hidden, detached) transform controls,
     * creates the box helper once, and subscribes to model removal. That
     * subscription is discarded rather than recorded, so the component's
     * own list (unsubscribed on destroy) does not grow.
     */
    method Initialize(manager: nat, orbits: seq<nat>)
      modifies this`orbitController, this`controlReady, this`controlsInScene, this`controlVisible, this`attached, this`boxHelperReady, this`boxVisible, base`sceneManager, base`initialized
      requires Valid()
      ensures Valid()
      ensures base.initialized
      ensures old(orbitController).Some? ==> orbitController == old(orbitController)
      ensures old(orbitController).None? ==> orbitController == (if |orbits| > 0 then Some(orbits[0]) else None)
      ensures controlReady && controlsInScene == old(controlsInScene) + 1 && !controlVisible && attached.None?
      ensures boxHelperReady == (old(boxHelperReady) || visualizeBoxHelper)
      ensures !old(boxHelperReady) && visualizeBoxHelper ==> !boxVisible
      ensures old(boxHelperReady) || !visualizeBoxHelper ==> boxVisible == old(boxVisible)
      ensures base.subscriptions == old(base.subscriptions)
    {
      base.Initialize(manager);
      if orbitController.None? {
        orbitController := if |orbits| > 0 then Some(orbits[0]) else None;
      }
      InitializeController();
      InitializeBoxHelper();
    }

    /** `initializeController`: new transform controls, hidden and detached, are added to the scene. */
    method InitializeController()
      modifies this`controlReady, this`controlsInScene, this`controlVisible, this`attached
      ensures controlReady && controlsInScene == old(controlsInScene) + 1 && !controlVisible && attached.None?
    {
      controlReady := true;
      controlsInScene := controlsInScene + 1;
      controlVisible := false;
      attached := None;
    }

    /** `initializeBoxHelper`: the box helper is created, hidden, only once and only when it is to be shown. */
    method InitializeBoxHelper()
      modifies this`boxHelperReady, this`boxVisible
      requires Distinct()
      ensures Valid()
      ensures boxHelperReady == (old(boxHelperReady) || visualizeBoxHelper)
      ensures !old(boxHelperReady) && visualizeBoxHelper ==> !boxVisible
      ensures old(boxHelperReady) || !visualizeBoxHelper ==> boxVisible == old(boxVisible)
    {
      if !boxHelperReady && visualizeBoxHelper {
        boxHelperReady := true;
        boxVisible := false;
      }
    }

    /**
     * The `onBeforeRemoveModel` subscription: removing any model detaches
     * the controls, and detaching also hides them.
     */
    method OnBeforeRemoveModel()
      modifies this`attached, this`controlVisible
      requires Valid() && controlReady
      ensures Valid() && attached.None? && !controlVisible
    {
      attached := None;
      controlVisible := false;
    }

    /**
     * `attachTransformController`: the change is announced, the controls
     * are detached and shown iff there is a model; a model is attached and
     * its position, rotation (in degrees) and scale become the last values.
     * Before `initialize` there are no controls to detach and it throws.
     */
    method AttachTransformController(model: Option<Node>) returns (r: Result<()>)
      modifies this`events, this`attached, this`controlVisible, this`boxVisible, this`lastRotation, lastPosition, lastScale
      requires Valid()
      ensures Valid()
      ensures events == old(events) + [AttachChanged(if model.Some? then Some(model.value.uuid) else None)]
      ensures !controlReady ==> r.Failure? && attached == old(attached) && controlVisible == old(controlVisible)
      ensures controlReady ==> r.Success? && attached == model && controlVisible == model.Some?
      ensures controlReady && visualizeBoxHelper ==> boxVisible == model.Some?
      ensures controlReady && !visualizeBoxHelper ==> boxVisible == old(boxVisible)
      ensures controlReady && model.Some? ==>
                lastPosition.Value() == model.value.position && lastRotation.Value() == RadToDeg(model.value.rotation) &&
                lastScale.Value() == model.value.scale
      ensures !(controlReady && model.Some?) ==>
                lastPosition.Value() == old(lastPosition.Value()) && lastRotation.Value() == old(lastRotation.Value()) &&
                lastScale.Value() == old(lastScale.Value())
      ensures controlReady && model.Some? ==> fresh(lastRotation)
      ensures !(controlReady && model.Some?) ==> lastRotation == old(lastRotation)
    {
      events := events + [AttachChanged(if model.Some? then Some(model.value.uuid) else None)];
      if !controlReady {
        return Failure(UndefinedControls);
      }
      attached := None;
      controlVisible := model.Some?;
      if visualizeBoxHelper {
        boxVisible := model.Some?;
      }
      if model.Some? {
        attached := model;
        lastPosition.Copy(model.value.position);
        lastRotation := new MutableVector3(RadToDeg(model.value.rotation));
        lastScale.Copy(model.value.scale);
      }
      return Success(());
    }

    /**
     * The `dragging-changed` listener: the orbit controller is enabled
     * exactly when not dragging; when a drag ends, the attached model's
     * current transform (moved in place by the controls) is compared with
     * the last values, and a change event fires for each one that differs.
     */
    method OnDraggingChanged(dragging: bool, position: Vector3, rotation: Vector3, scale: Vector3) returns (r: Result<()>)
      modifies this`events, this`orbitEnabled, lastPosition, lastRotation, lastScale
      requires Valid()
      ensures Valid()
      ensures orbitController.Some? ==> orbitEnabled == !dragging
      ensures orbitController.None? ==> orbitEnabled == old(orbitEnabled)
      ensures dragging ==> r.Success? && events == old(events) + [DraggingChanged(true)] &&
                           lastPosition.Value() == old(lastPosition.Value()) && lastRotation.Value() == old(lastRotation.Value()) &&
                           lastScale.Value() == old(lastScale.Value())
      ensures !dragging && attached.None? ==> r.Failure? && events == old(events) + [DraggingChanged(false)]
      ensures !dragging && attached.Some? ==>
                r.Success? &&
                events == old(events) + [DraggingChanged(false)] +
                          ChangeEvents(Get(attached.value.userData, ObjectIdTag), position, RadToDeg(rotation), scale,
                                       old(lastPosition.Value()), old(lastRotation.Value()), old(lastScale.Value())) &&
                lastPosition.Value() == position && lastRotation.Value() == RadToDeg(rotation) && lastScale.Value() == scale
    {
      events := events + [DraggingChanged(dragging)];
      if orbitController.Some? {
        orbitEnabled := !dragging;
      }
      if dragging {
        return Success(());
      }
      if attached.None? {
        return Failure(UndefinedModelUserData);
      }
      var id := Get(attached.value.userData, ObjectIdTag);
      var changes := CompareAndUpdateAll(id, position, RadToDeg(rotation), scale, lastPosition, lastRotation, lastScale);
      events := events + changes;
      return Success(());
    }

    /** `onKeyDown`: Shift sets the snaps; T, R and S pick the mode; the backquote resets the controls. */
    method OnKeyDown(code: string)
      modifies this`snaps, this`mode, this`resets
      requires Valid()
      ensures Valid()
      ensures IsShift(code) && controlReady ==> snaps == Some(ShiftSnaps)
      ensures !(IsShift(code) && controlReady) ==> snaps == old(snaps)
      ensures ModeKey(code).Some? && controlReady ==> mode == ModeKey(code).value
      ensures !(ModeKey(code).Some? && controlReady) ==> mode == old(mode)
      ensures resets == if code == "Backquote" && controlReady then old(resets) + 1 else old(resets)
    {
      if !controlReady {
        return;
      }
      if IsShift(code) {
        snaps := Some(ShiftSnaps);
      } else if ModeKey(code).Some? {
        ChangeTransformControllerMode(ModeKey(code).value);
      } else if code == "Backquote" {
        resets := resets + 1;
      }
    }

    /** `onKeyUp`: releasing Shift clears the snaps. */
    method OnKeyUp(code: string)
      modifies this`snaps
      requires Valid()
      ensures Valid()
      ensures IsShift(code) && controlReady ==> snaps.None?
      ensures !(IsShift(code) && controlReady) ==> snaps == old(snaps)
    {
      if controlReady && IsShift(code) {
        snaps := None;
      }
    }

    /** `changeTransformControllerMode`: a no-op while there are no controls. */
    method ChangeTransformControllerMode(m: TransformMode)
      modifies this`mode
      requires Valid()
      ensures Valid()
      ensures mode == if controlReady then m else old(mode)
    {
      if controlReady {
        mode := m;
      }
    }
  }

  /**
   * The three `compareVector3AndUpdate` calls of a drag end, in order, with
   * the change event each difference fires.
   */
  method CompareAndUpdateAll(id: JsValue, position: Vector3, rotation: Vector3, scale: Vector3,
                             lastPosition: MutableVector3, lastRotation: MutableVector3, lastScale: MutableVector3)
    returns (changes: seq<TransformEvent>)
    modifies lastPosition, lastRotation, lastScale
    requires lastPosition != lastRotation && lastPosition != lastScale && lastRotation != lastScale
    ensures changes == ChangeEvents(id, position, rotation, scale,
                                    old(lastPosition.Value()), old(lastRotation.Value()), old(lastScale.Value()))
    ensures lastPosition.Value() == position && lastRotation.Value() == rotation && lastScale.Value() == scale
  {
    changes := [];
    var samePosition := CompareVector3AndUpdate(position, lastPosition);
    if !samePosition {
      changes := changes + [PositionChanged(id, position)];
    }
    var sameRotation := CompareVector3AndUpdate(rotation, lastRotation);
    if !sameRotation {
      changes := changes + [RotationChanged(id, rotation)];
    }
    var sameScale := CompareVector3AndUpdate(scale, lastScale);
    if !sameScale {
      changes := changes + [ScaleChanged(id, scale)];
    }
  }

  /** After attaching a model, a drag that leaves it where it was reports no change. */
  method UnmovedDragReportsNothing(c: ThreedTransformControllerComponent, model: Node) returns (r: Result<()>)
    modifies c, c.lastPosition, c.lastRotation, c.lastScale
    requires c.Valid() && c.controlReady
    ensures r.Success?
    ensures c.events == old(c.events) + [AttachChanged(Some(model.uuid)), DraggingChanged(true), DraggingChanged(false)]
  {
    var a := c.AttachTransformController(Some(model));
    var d := c.OnDraggingChanged(true, model.position, model.rotation, model.scale);
    r := c.OnDraggingChanged(false, model.position, model.rotation, model.scale);
  }
}
