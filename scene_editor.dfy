/**
 * `ThreedSceneEditor`: the scene used by the 3D settings form. A click
 * raycasts into the scene and attaches transform controls (plus a box
 * helper) to the root model under the pointer; dragging the controls
 * disables orbiting and raycasting, and releasing them reports the
 * position, rotation (degrees) and scale that changed. With the
 * first-person controller type a second perspective camera previews the
 * scene from the camera rig.
 */
module SceneEditor {
  import opened Wrappers
  import opened JsValues
  import opened ThreedModels
  import opened SceneGraph
  import opened UpdateDevices
  import opened TransformController
  import opened AbstractScene

  /** The messages of the errors thrown below. */
  const UndefinedAttachedUserData: string := "Cannot read properties of undefined (reading 'userData')"
  const UndefinedCameraSettings: string := "Cannot read properties of undefined (reading 'threedCameraSettings')"

  datatype ControllerType = FirstPersonController | OrbitController | VrController

  /** The two raycast flags: raycasting allowed at all, and not swallowed for this click. */
  datatype RaycastGate = RaycastGate(enabled: bool, lastFrame: bool)

  /** The `dragging-changed` listener's effect on the gate: a drag start also swallows the next click. */
  function AfterDragging(g: RaycastGate, dragging: bool): (r: RaycastGate)
    ensures r.enabled == !dragging
    ensures r.lastFrame == (g.lastFrame && !dragging)
  {
    RaycastGate(!dragging, if dragging then false else g.lastFrame)
  }

  /** `focusOnObject` swallows the next click. */
  function AfterFocus(g: RaycastGate): (r: RaycastGate)
    ensures r.enabled == g.enabled && !r.lastFrame
  {
    g.(lastFrame := false)
  }

  /** The gate of `updateRaycaster`: whether this click raycasts, and the gate afterwards. */
  function Click(g: RaycastGate): (r: (RaycastGate, bool))
    ensures r.1 <==> g.enabled && g.lastFrame
    ensures r.0.enabled == g.enabled
    ensures r.0.lastFrame == (g.lastFrame || g.enabled)
  {
    if !g.enabled then (g, false)
    else if !g.lastFrame then (g.(lastFrame := true), false)
    else (g, true)
  }

  /**
   * After a drag (start then release) or a focus, exactly one click is
   * swallowed: the first raycasts nothing and the second raycasts.
   */
  lemma OneClickSwallowed(g: RaycastGate)
    ensures var released := AfterDragging(AfterDragging(g, true), false);
            !Click(released).1 && Click(Click(released).0).1
    ensures g.enabled ==> !Click(AfterFocus(g)).1 && Click(Click(AfterFocus(g)).0).1
    ensures !Click(AfterDragging(g, true)).1
  {
  }

  /** A raycast hit: the object hit, its ancestors (scene first, parent last) and its `tag`. */
  datatype Intersection = Intersection(hit: Node, ancestors: seq<Node>, tag: JsValue)

  /** The helper objects a click never selects. */
  predicate IsHelperHit(i: Intersection)
  {
    i.hit.kind == "TransformControlsPlane" || i.hit.kind == "BoxHelper" || i.hit.kind == "GridHelper" ||
    i.tag == Str("Helper")
  }

  function WithoutHelpers(hits: seq<Intersection>): (r: seq<Intersection>)
    ensures forall i :: i in r <==> i in hits && !IsHelperHit(i)
    ensures |r| <= |hits|
  {
    if hits == [] then [] else (if IsHelperHit(hits[0]) then [] else [hits[0]]) + WithoutHelpers(hits[1..])
  }

  /** What a click decides: attach to a root, detach, or (a hit outside every model) leave the controls as they are. */
  datatype Selection = Attach(root: Node) | Detach | Keep

  /**
   * `updateRaycaster` past its gate: the nearest hit that is not a helper
   * selects its closest ancestor-or-self marked as a root object; no such
   * hit detaches.
   */
  function Select(hits: seq<Intersection>): Selection
  {
    var visible := WithoutHelpers(hits);
    if |visible| == 0 then Detach
    else
      match GetParentByChild(visible[0].ancestors + [visible[0].hit], RootTag, Bool(true))
      case Some(root) => Attach(root)
      case None => Keep
  }

  /**
   * A click with no hit other than helpers detaches; otherwise the first
   * non-helper hit decides, attaching to the nearest object up its chain
   * whose root tag is `true` and keeping the controls when there is none.
   */
  lemma SelectIsNearestRoot(hits: seq<Intersection>)
    ensures Select(hits).Detach? <==> forall i :: i in hits ==> IsHelperHit(i)
    ensures Select(hits).Attach? ==>
              var first := WithoutHelpers(hits)[0];
              var chain := first.ancestors + [first.hit];
              first in hits && !IsHelperHit(first) &&
              exists k :: 0 <= k < |chain| && chain[k] == Select(hits).root &&
                          LooseEquals(Get(chain[k].userData, RootTag), Bool(true)) &&
                          forall j :: k < j < |chain| ==> !LooseEquals(Get(chain[j].userData, RootTag), Bool(true))
    ensures Select(hits).Keep? ==>
              var first := WithoutHelpers(hits)[0];
              var chain := first.ancestors + [first.hit];
              forall k :: 0 <= k < |chain| ==> !LooseEquals(Get(chain[k].userData, RootTag), Bool(true))
  {
    var visible := WithoutHelpers(hits);
    if |visible| > 0 {
      assert visible[0] in visible;
      GetParentByChildIsNearest(visible[0].ancestors + [visible[0].hit], RootTag, Bool(true));
    }
  }

  /** `model.userData[OBJECT_ID_TAG] == CAMERA_ID`. */
  predicate IsCameraRig(model: Node)
  {
    LooseEquals(Get(model.userData, ObjectIdTag), Str(CameraId))
  }

  class ThreedSceneEditor {
    const scene: ThreedAbstractScene<SceneSettings>
    const controllerType: ControllerType
    /** The debug perspective camera and the camera rig model it sits in, once loaded. */
    var perspectiveCamera: Option<CameraState>
    var cameraMesh: Option<Node>
    var showDebugCameraPreview: bool
    var focusOnCameraDone: bool
    var orbitEnabled: bool
    var orbitTarget: Vector3
    var gate: RaycastGate
    /** The model the transform controls are attached to, as the controls currently hold it. */
    var attached: Option<Node>
    var controlVisible: bool
    var boxVisible: bool
    var mode: TransformMode
    var snaps: Option<Snaps>
    var resets: nat
    var lastPosition: Vector3
    var lastRotation: Vector3
    var lastScale: Vector3
    var events: seq<TransformEvent>

    /** The debug camera exists exactly for the first-person controller type, and always as a perspective camera. */
    predicate Valid()
      reads this
    {
      (perspectiveCamera.Some? <==> controllerType == FirstPersonController) &&
      (perspectiveCamera.Some? ==> perspectiveCamera.value.perspective)
    }

    /** `initialize`: the base scene, then the debug camera (first person only), the hidden controls and the hidden box helper. */
    constructor(scene: ThreedAbstractScene<SceneSettings>, controllerType: ControllerType, debugCamera: CameraState)
      requires debugCamera.perspective
      ensures Valid()
      ensures this.scene == scene && this.controllerType == controllerType
      ensures perspectiveCamera == (if controllerType == FirstPersonController then Some(debugCamera) else None)
      ensures cameraMesh.None? && !showDebugCameraPreview && !focusOnCameraDone
      ensures orbitEnabled && gate == RaycastGate(true, true)
      ensures attached.None? && !controlVisible && !boxVisible && mode == Translate && snaps.None? && resets == 0
      ensures events == []
    {
      this.scene := scene;
      this.controllerType := controllerType;
      perspectiveCamera := if controllerType == FirstPersonController then Some(debugCamera) else None;
      cameraMesh := None;
      showDebugCameraPreview, focusOnCameraDone := false, false;
      orbitEnabled := true;
      orbitTarget := Vector3(0.0, 0.0, 0.0);
      gate := RaycastGate(true, true);
      attached, controlVisible, boxVisible := None, false, false;
      mode, snaps, resets := Translate, None, 0;
      lastPosition := Vector3(0.0, 0.0, 0.0);
      lastRotation := Vector3(0.0, 0.0, 0.0);
      lastScale := Vector3(0.0, 0.0, 0.0);
      events := [];
    }

    /**
     * `changeTransformControl`: detach, then show the controls and the box
     * exactly when there is a model; a model is attached, the camera
     * preview follows whether it is the camera rig, and its position,
     * rotation (degrees) and scale become the last values.
     */
    method ChangeTransformControl(model: Option<Node>)
      modifies this`attached, this`controlVisible, this`boxVisible, this`showDebugCameraPreview, this`lastPosition, this`lastRotation, this`lastScale
      requires Valid()
      ensures Valid()
      ensures attached == model && controlVisible == model.Some? && boxVisible == model.Some?
      ensures model.Some? ==> showDebugCameraPreview == IsCameraRig(model.value) &&
                              lastPosition == model.value.position && lastRotation == RadToDeg(model.value.rotation) &&
                              lastScale == model.value.scale
      ensures model.None? ==> showDebugCameraPreview == old(showDebugCameraPreview) &&
                              lastPosition == old(lastPosition) && lastRotation == old(lastRotation) && lastScale == old(lastScale)
    {
      attached := None;
      controlVisible := model.Some?;
      boxVisible := model.Some?;
      if model.Some? {
        attached := model;
        showDebugCameraPreview := IsCameraRig(model.value);
        lastPosition := model.value.position;
        lastRotation := RadToDeg(model.value.rotation);
        lastScale := model.value.scale;
      }
    }

    /** `updateRaycaster` on a click, with the scene's raycast hits nearest first. */
    method UpdateRaycaster(hits: seq<Intersection>)
      modifies this`gate, this`attached, this`controlVisible, this`boxVisible, this`showDebugCameraPreview, this`lastPosition, this`lastRotation, this`lastScale
      requires Valid()
      ensures Valid()
      ensures gate == Click(old(gate)).0
      ensures !Click(old(gate)).1 || Select(hits).Keep? ==>
                attached == old(attached) && controlVisible == old(controlVisible) && boxVisible == old(boxVisible) &&
                lastPosition == old(lastPosition) && lastRotation == old(lastRotation) && lastScale == old(lastScale) &&
                showDebugCameraPreview == old(showDebugCameraPreview)
      ensures Click(old(gate)).1 && Select(hits).Detach? ==> attached.None? && !controlVisible && !boxVisible
      ensures Click(old(gate)).1 && Select(hits).Attach? ==>
                attached == Some(Select(hits).root) && controlVisible && boxVisible &&
                showDebugCameraPreview == IsCameraRig(Select(hits).root) &&
                lastPosition == Select(hits).root.position && lastRotation == RadToDeg(Select(hits).root.rotation) &&
                lastScale == Select(hits).root.scale
    {
      if !gate.enabled {
        return;
      }
      if !gate.lastFrame {
        gate := gate.(lastFrame := true);
        return;
      }
      var intersection := WithoutHelpers(hits);
      if |intersection| > 0 {
        var chain := intersection[0].ancestors + [intersection[0].hit];
        var root := GetParentByChild(chain, RootTag, Bool(true));
        if root.Some? {
          ChangeTransformControl(root);
        }
      } else {
        ChangeTransformControl(None);
      }
    }

    /**
     * The release half of the `dragging-changed` listener: the attached
     * model, moved in place by the controls to `position`, `rotation`,
     * `scale`, is compared with the last values, and each one that changed
     * fires its event; with nothing attached reading its `userData` throws.
     */
    method Release(position: Vector3, rotation: Vector3, scale: Vector3) returns (r: Result<()>)
      modifies this`attached, this`events, this`lastPosition, this`lastRotation, this`lastScale
      ensures old(attached).None? ==> r.Failure? && events == old(events) && attached.None? &&
                                      lastPosition == old(lastPosition) && lastRotation == old(lastRotation) && lastScale == old(lastScale)
      ensures old(attached).Some? ==>
                r.Success? &&
                events == old(events) + ChangeEvents(Get(old(attached).value.userData, ObjectIdTag), position, RadToDeg(rotation), scale,
                                                     old(lastPosition), old(lastRotation), old(lastScale)) &&
                lastPosition == position && lastRotation == RadToDeg(rotation) && lastScale == scale &&
                attached == Some(old(attached).value.(position := position, rotation := rotation, scale := scale))
    {
      if attached.None? {
        r := Failure(UndefinedAttachedUserData);
      } else {
        var model := attached.value.(position := position, rotation := rotation, scale := scale);
        attached := Some(model);
        var id := Get(model.userData, ObjectIdTag);
        var newRotation := RadToDeg(rotation);
        events := events + ChangeEvents(id, position, newRotation, scale, lastPosition, lastRotation, lastScale);
        lastPosition, lastRotation, lastScale := position, newRotation, scale;
        r := Success(());
      }
    }

    /**
     * The `dragging-changed` listener: orbiting and raycasting are enabled
     * exactly when not dragging, a drag start swallows the next click, and
     * a release reports the changes as `Release` says.
     */
    method OnDraggingChanged(dragging: bool, position: Vector3, rotation: Vector3, scale: Vector3) returns (r: Result<()>)
      modifies this`orbitEnabled, this`gate, this`attached, this`events, this`lastPosition, this`lastRotation, this`lastScale
      requires Valid()
      ensures Valid()
      ensures orbitEnabled == !dragging && gate == AfterDragging(old(gate), dragging)
      ensures dragging ==> r.Success? && events == old(events) && attached == old(attached) &&
                           lastPosition == old(lastPosition) && lastRotation == old(lastRotation) && lastScale == old(lastScale)
      ensures !dragging && old(attached).None? ==> r.Failure? && events == old(events) && attached.None?
      ensures !dragging && old(attached).Some? ==>
                r.Success? &&
                events == old(events) + ChangeEvents(Get(old(attached).value.userData, ObjectIdTag), position, RadToDeg(rotation), scale,
                                                     old(lastPosition), old(lastRotation), old(lastScale)) &&
                lastPosition == position && lastRotation == RadToDeg(rotation) && lastScale == scale &&
                attached == Some(old(attached).value.(position := position, rotation := rotation, scale := scale))
    {
      orbitEnabled := !dragging;
      gate := AfterDragging(gate, dragging);
      if dragging {
        return Success(());
      }
      r := Release(position, rotation, scale);
    }

    /** `focusOnObject`: swallow the next click and aim the orbit at the object, else at the attached one, else at the origin. */
    method FocusOnObject(target: Option<Node>)
      modifies this`gate, this`orbitTarget
      requires Valid()
      ensures Valid()
      ensures gate == AfterFocus(old(gate))
      ensures target.Some? ==> orbitTarget == target.value.position
      ensures target.None? && attached.Some? ==> orbitTarget == attached.value.position
      ensures target.None? && attached.None? ==> orbitTarget == Vector3(0.0, 0.0, 0.0)
    {
      gate := gate.(lastFrame := false);
      var focused := if target.Some? then target else attached;
      orbitTarget := if focused.Some? then focused.value.position else Vector3(0.0, 0.0, 0.0);
    }

    /**
     * `setCameraValues`: the base behaviour on the camera rig model, then
     * the debug camera's lens; the first time there is a debug camera the
     * orbit focuses on the camera rig.
     */
    method SetCameraValues(settings: Option<CameraSettings>)
      modifies this, scene
      requires Valid()
      ensures Valid()
      ensures scene.State() == (if settings.None? then old(scene.State()) else Transform(old(scene.State()), CameraId, CameraTransforms(settings.value)))
      ensures settings.Some? && old(cameraMesh).Some? ==>
                cameraMesh == Some(old(cameraMesh).value.(position := settings.value.initialPosition,
                                                           rotation := DegToRad(settings.value.initialRotation)))
      ensures settings.None? || old(cameraMesh).None? ==> cameraMesh == old(cameraMesh)
      ensures settings.Some? && old(perspectiveCamera).Some? ==> perspectiveCamera == Some(LensAfter(settings.value, old(perspectiveCamera).value))
      ensures settings.None? || old(perspectiveCamera).None? ==> perspectiveCamera == old(perspectiveCamera)
      ensures focusOnCameraDone == (old(focusOnCameraDone) || (settings.Some? && perspectiveCamera.Some?))
      ensures settings.Some? && perspectiveCamera.Some? && !old(focusOnCameraDone) ==>
                gate == AfterFocus(old(gate)) &&
                orbitTarget == (if cameraMesh.Some? then cameraMesh.value.position
                                else if attached.Some? then attached.value.position else Vector3(0.0, 0.0, 0.0))
      ensures !(settings.Some? && perspectiveCamera.Some? && !old(focusOnCameraDone)) ==> gate == old(gate) && orbitTarget == old(orbitTarget)
      ensures attached == old(attached) && events == old(events) && scene.settingsValue == old(scene.settingsValue)
    {
      var mesh := if cameraMesh.Some? then Some(CameraState(cameraMesh.value.position, cameraMesh.value.rotation, 0.0, 0.0, 0.0, false)) else None;
      var placed := scene.SetCameraValues(settings, mesh);
      if settings.None? {
        return;
      }
      if cameraMesh.Some? {
        cameraMesh := Some(cameraMesh.value.(position := placed.value.position, rotation := placed.value.rotation));
      }
      if perspectiveCamera.Some? {
        perspectiveCamera := Some(LensAfter(settings.value, perspectiveCamera.value));
        if !focusOnCameraDone {
          FocusOnObject(cameraMesh);
          focusOnCameraDone := true;
        }
      }
    }

    /**
     * The camera model loader's callback (first person only): the rig is
     * marked as the root object with the camera id and takes the camera
     * settings; before any settings arrived reading them throws.
     */
    method OnCameraModelLoaded(mesh: Node) returns (r: Result<()>)
      modifies this, scene
      requires Valid()
      ensures Valid()
      ensures old(scene.settingsValue).None? ==> r.Failure? && scene.State() == old(scene.State())
      ensures old(scene.settingsValue).Some? ==> r.Success?
      ensures cameraMesh.Some? && cameraMesh.value.uuid == mesh.uuid
      ensures Get(cameraMesh.value.userData, RootTag) == Bool(true) && Get(cameraMesh.value.userData, ObjectIdTag) == Str(CameraId)
      ensures cameraMesh.value.children == mesh.children
    {
      cameraMesh := Some(mesh.(userData := mesh.userData[RootTag := Bool(true)][ObjectIdTag := Str(CameraId)]));
      if scene.settingsValue.None? {
        return Failure(UndefinedCameraSettings);
      }
      SetCameraValues(scene.settingsValue.value.camera);
      r := Success(());
    }

    /**
     * `updateValue` with the editor's `onSettingValues`: once there are
     * models, the environment, the camera and the devices are applied in
     * this order.
     */
    method UpdateValue(value: SceneSettings)
      modifies this, scene
      requires Valid()
      ensures Valid()
      ensures scene.settingsValue == Some(value)
      ensures |old(scene.models)| == 0 ==> scene.State() == old(scene.State()).(hasSettings := true)
      ensures |old(scene.models)| > 0 ==>
                scene.State() == SceneSettingsApplied(SettingsApplied(old(scene.State()).(hasSettings := true)), value)
      ensures attached == old(attached) && events == old(events)
    {
      scene.UpdateValue(value);
      if |scene.models| == 0 {
        return;
      }
      scene.SetEnvironmentValues(value.environment);
      SetCameraValues(value.camera);
      scene.SetDevicesValues(value.devices);
    }

    /**
     * `removeModel` with the editor's `onRemoveModel`: the controls are
     * detached, and so hidden, whenever a registered model is removed,
     * even when the removal then throws.
     */
    method RemoveModel(id: string, calculateSceneObjects: bool) returns (error: Option<string>)
      modifies this, scene
      requires Valid()
      ensures Valid()
      ensures RemoveOutcome(scene.State(), error) == Removed(old(scene.State()), id, calculateSceneObjects)
      ensures id in old(scene.models) ==> attached.None? && !controlVisible
      ensures id !in old(scene.models) ==> attached == old(attached) && controlVisible == old(controlVisible)
      ensures events == old(events) && gate == old(gate)
    {
      if id in scene.models {
        attached, controlVisible := None, false;
      }
      error := scene.RemoveModel(id, calculateSceneObjects);
    }

    /** `onKeyDown`: Shift sets the snaps; T, R and S pick the mode; the backquote resets the controls. */
    method OnKeyDown(code: string)
      modifies this`snaps, this`mode, this`resets
      requires Valid()
      ensures Valid()
      ensures IsShift(code) ==> snaps == Some(ShiftSnaps)
      ensures !IsShift(code) ==> snaps == old(snaps)
      ensures ModeKey(code).Some? ==> mode == ModeKey(code).value
      ensures ModeKey(code).None? ==> mode == old(mode)
      ensures resets == if code == "Backquote" then old(resets) + 1 else old(resets)
    {
      if IsShift(code) {
        snaps := Some(ShiftSnaps);
      } else if ModeKey(code).Some? {
        mode := ModeKey(code).value;
      } else if code == "Backquote" {
        resets := resets + 1;
      }
    }

    /** `onKeyUp`: releasing Shift clears the snaps. */
    method OnKeyUp(code: string)
      modifies this`snaps
      requires Valid()
      ensures Valid()
      ensures IsShift(code) ==> snaps.None?
      ensures !IsShift(code) ==> snaps == old(snaps)
    {
      if IsShift(code) {
        snaps := None;
      }
    }
  }
}
