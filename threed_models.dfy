/**
 * Settings records of the 3D widgets and their default values
 * (`threed/threed-models.ts`). The older copy of these records
 * (`threed-view-widget/threed-models.ts`) differs only in its tooltip and
 * device-group defaults; those are in module LegacyModels, on the same types:
 * the tooltip's `showTooltipAction` exists only there, the device group's
 * marker only here, so both are optional fields.
 */
module ThreedModels {
  import opened Wrappers

  datatype Vector3 = Vector3(x: real, y: real, z: real)

  /** Entity reference as the alias controller returns it. */
  datatype EntityInfo = EntityInfo(id: string, name: string, entityType: string)

  datatype ModelSettings = ModelSettings(
    modelUrl: Option<string>, modelEntityAlias: Option<string>, modelUrlAttribute: Option<string>)

  datatype MarkerSettings = MarkerSettings(
    showMarker: bool,
    useMarkerImageFunction: bool,
    markerImage: Option<string>,
    markerImageSize: Option<real>,
    markerImageFunction: Option<string>,
    markerImages: seq<string>)

  datatype ObjectSettings = ObjectSettings(
    entity: EntityInfo,
    modelUrl: string,
    position: Vector3,
    rotation: Vector3,
    scale: Vector3)

  datatype TooltipSettings = TooltipSettings(
    showTooltip: bool,
    showTooltipAction: Option<string>,
    tooltipPattern: string,
    tooltipOffsetX: real,
    tooltipOffsetY: real)

  datatype CameraSettings = CameraSettings(
    near: real, far: real, fov: real, initialPosition: Vector3, initialRotation: Vector3)

  /** `{ entityAlias }` and `{ entityAttribute }`; the form writes `null` into either. */
  datatype AliasSettings = AliasSettings(entityAlias: Option<string>)
  datatype KeySettings = KeySettings(entityAttribute: Option<string>)

  datatype EnvironmentSettings = EnvironmentSettings(
    aliasSettings: AliasSettings,
    keySettings: KeySettings,
    useAlias: bool,
    objectSettings: Option<ObjectSettings>)

  datatype DeviceGroupSettings = DeviceGroupSettings(
    aliasSettings: AliasSettings,
    useAttribute: bool,
    keySettings: KeySettings,
    objects: Option<seq<ObjectSettings>>,
    tooltip: TooltipSettings,
    marker: Option<MarkerSettings>)

  datatype DevicesSettings = DevicesSettings(groups: Option<seq<DeviceGroupSettings>>)

  datatype SceneSettings = SceneSettings(
    environment: Option<EnvironmentSettings>,
    camera: Option<CameraSettings>,
    devices: Option<DevicesSettings>)

  /** The navigation widget's settings: the hover colour and the scene. */
  datatype ViewWidgetSettings = ViewWidgetSettings(hoverColor: Option<string>, sceneSettings: SceneSettings)

  datatype ScriptModel = ScriptModel(name: string, body: string, deletable: Option<bool>)
  datatype AssetModel = AssetModel(name: string, fileName: string, assetType: Option<string>, base64: string)

  datatype SimulationSettings = SimulationSettings(
    assets: seq<AssetModel>,
    scripts: seq<ScriptModel>,
    menuHtml: string,
    menuCss: string,
    menuJs: string,
    assetUrl: Option<string>,
    jsTextFunction: string)

  /** Lifecycle of a simulation widget. */
  datatype SimulationState = Uncompiled | Compiling | SetupDone | Started | Stopped

  function DefaultModelSettings(): (s: ModelSettings)
    ensures s.modelUrl == Some("https://modelviewer.dev/shared-assets/models/Astronaut.glb")
    ensures s.modelEntityAlias == Some("") && s.modelUrlAttribute == Some("")
  {
    ModelSettings(Some("https://modelviewer.dev/shared-assets/models/Astronaut.glb"), Some(""), Some(""))
  }

  function VectorZero(): (v: Vector3)
    ensures v.x == 0.0 && v.y == 0.0 && v.z == 0.0
  {
    Vector3(0.0, 0.0, 0.0)
  }

  function VectorOne(): (v: Vector3)
    ensures v.x == 1.0 && v.y == 1.0 && v.z == 1.0
  {
    Vector3(1.0, 1.0, 1.0)
  }

  function DefaultMarkerSettings(): (m: MarkerSettings)
    ensures !m.showMarker && !m.useMarkerImageFunction
    ensures m.markerImage.None? && m.markerImageFunction.None?
    ensures m.markerImageSize == Some(34.0) && m.markerImages == []
  {
    MarkerSettings(false, false, None, Some(34.0), None, [])
  }

  function DefaultTooltipSettings(): (t: TooltipSettings)
    ensures t.showTooltip && t.showTooltipAction.None?
    ensures t.tooltipPattern == "<b>${entityName}</b>"
    ensures t.tooltipOffsetX == 0.0 && t.tooltipOffsetY == 0.0
  {
    TooltipSettings(true, None, "<b>${entityName}</b>", 0.0, 0.0)
  }

  function DefaultCameraSettings(): (c: CameraSettings)
    ensures 0.0 < c.near < c.far
    ensures c.near == 0.1 && c.far == 1000.0 && c.fov == 60.0
    ensures c.initialPosition == VectorZero() && c.initialRotation == VectorZero()
  {
    CameraSettings(0.1, 1000.0, 60.0, VectorZero(), VectorZero())
  }

  function DefaultEnvironmentSettings(): (e: EnvironmentSettings)
    ensures e.aliasSettings.entityAlias == Some("") && e.keySettings.entityAttribute == Some("")
    ensures !e.useAlias && e.objectSettings.None?
  {
    EnvironmentSettings(AliasSettings(Some("")), KeySettings(Some("")), false, None)
  }

  function DefaultDeviceGroupSettings(): (g: DeviceGroupSettings)
    ensures g.aliasSettings.entityAlias == Some("") && !g.useAttribute
    ensures g.keySettings.entityAttribute == Some("") && g.objects == Some([])
    ensures g.tooltip == DefaultTooltipSettings() && g.tooltip.showTooltip
    ensures g.marker == Some(DefaultMarkerSettings())
    ensures !g.marker.value.showMarker && g.marker.value.markerImageSize == Some(34.0)
  {
    DeviceGroupSettings(AliasSettings(Some("")), false, KeySettings(Some("")), Some([]),
      DefaultTooltipSettings(), Some(DefaultMarkerSettings()))
  }

  function DefaultDevicesSettings(): (d: DevicesSettings)
    ensures d.groups == Some([])
  {
    DevicesSettings(Some([]))
  }

  function DefaultSceneSettings(): (s: SceneSettings)
    ensures s.environment == Some(DefaultEnvironmentSettings())
    ensures s.camera == Some(DefaultCameraSettings())
    ensures s.devices == Some(DefaultDevicesSettings())
  {
    SceneSettings(Some(DefaultEnvironmentSettings()), Some(DefaultCameraSettings()), Some(DefaultDevicesSettings()))
  }

  /** The names of the five scripts every simulation starts with, in order. */
  function DefaultScriptNames(): seq<string>
  {
    ["setup.js", "start.js", "reset.js", "stop.js", "onDataUpdate.js"]
  }

  const SetupScriptBody: string := "/* This is the first function executed. You must create the simulation scene here (the setup)!\nYou can use async function, the important thing is to return the Promise at the end! */\nreturn (async function() { await new Promise(resolve => setTimeout(resolve, 1000)); console.log('hello'); })();"
  const StartScriptBody: string := "/* This code is executed when the user clicks the play button on the simulation. The simulation should start */"
  const ResetScriptBody: string := "/* This code is executed when the user clicks the reset button on the simulation. The simulation should reset */"
  const StopScriptBody: string := "/* This code is executed when the user clicks the stop button on the simulation. You should delete/destory objects that could continue to live */"
  const DataUpdateScriptBody: string := "/* This code is executed each time there is an update of the data/telemetries of an Entity */"
  const DefaultMenuHtml: string := "<div class='card'>HTML code here</div>"
  const DefaultMenuCss: string := ".card {\n font-weight: bold; \n}"

  /** The default script names are pairwise different. */
  lemma DefaultScriptNamesDistinct()
    ensures |DefaultScriptNames()| == 5
    ensures forall i, j :: 0 <= i < j < 5 ==> DefaultScriptNames()[i] != DefaultScriptNames()[j]
  {
    var names := DefaultScriptNames();
    assert names[0][1] == 'e' && names[1][1] == 't' && names[2][1] == 'e' && names[3][1] == 't' && names[4][1] == 'n';
    assert names[0][0] == 's' && names[1][0] == 's' && names[2][0] == 'r' && names[3][0] == 's' && names[4][0] == 'o';
    assert names[1][2] == 'a' && names[3][2] == 'o';
  }

  function DefaultSimulationSettings(): (s: SimulationSettings)
    ensures |s.scripts| == 5
    ensures forall i :: 0 <= i < 5 ==> s.scripts[i].name == DefaultScriptNames()[i]
    ensures forall i :: 0 <= i < 5 ==> s.scripts[i].deletable == Some(false)
    ensures s.assets == [] && s.menuJs == "" && s.assetUrl.None? && s.jsTextFunction == ""
  {
    var names := DefaultScriptNames();
    SimulationSettings(
      [],
      [ ScriptModel(names[0], SetupScriptBody, Some(false)),
        ScriptModel(names[1], StartScriptBody, Some(false)),
        ScriptModel(names[2], ResetScriptBody, Some(false)),
        ScriptModel(names[3], StopScriptBody, Some(false)),
        ScriptModel(names[4], DataUpdateScriptBody, Some(false)) ],
      DefaultMenuHtml,
      DefaultMenuCss,
      "",
      None,
      "")
  }

  /** The two orbit-widget discriminators look only at which keys an object has. */
  predicate IsSimpleOrbitWidgetSettings(keys: set<string>)
  {
    "useAttribute" in keys
  }

  predicate IsComplexOrbitWidgetSettings(keys: set<string>)
  {
    "threedSceneSettings" in keys && "hoverColor" in keys
  }

  /** Keys of a `ThreedSimpleOrbitWidgetSettings` and of a `ThreedComplexOrbitWidgetSettings`. */
  const SimpleOrbitKeys: set<string> := {"threedEntityKeySettings", "useAttribute", "modelUrl"}
  const ComplexOrbitKeys: set<string> := {"hoverColor", "threedSceneSettings"}

  /**
   * Each discriminator accepts an object with (at least) the keys of its own
   * interface, and on objects with exactly the keys of one interface the two
   * discriminators never both hold.
   */
  lemma OrbitDiscriminatorsSeparate(keys: set<string>)
    ensures SimpleOrbitKeys <= keys ==> IsSimpleOrbitWidgetSettings(keys)
    ensures ComplexOrbitKeys <= keys ==> IsComplexOrbitWidgetSettings(keys)
    ensures keys == SimpleOrbitKeys ==> !IsComplexOrbitWidgetSettings(keys)
    ensures keys == ComplexOrbitKeys ==> !IsSimpleOrbitWidgetSettings(keys)
    ensures IsSimpleOrbitWidgetSettings(keys) <==> "useAttribute" in keys
    ensures IsComplexOrbitWidgetSettings(keys) <==> ("threedSceneSettings" in keys && "hoverColor" in keys)
  {
    if keys == ComplexOrbitKeys {
      assert "useAttribute" !in ComplexOrbitKeys;
    }
    if keys == SimpleOrbitKeys {
      assert "hoverColor" !in SimpleOrbitKeys;
    }
  }

  /** All lifecycle states. */
  function AllSimulationStates(): set<SimulationState>
  {
    {Uncompiled, Compiling, SetupDone, Started, Stopped}
  }

  /** The enumeration has exactly five members. */
  lemma SimulationStatesAreFive()
    ensures |AllSimulationStates()| == 5
    ensures forall s: SimulationState :: s in AllSimulationStates()
  {
    forall s: SimulationState
      ensures s in AllSimulationStates()
    {
      match s
      case Uncompiled =>
      case Compiling =>
      case SetupDone =>
      case Started =>
      case Stopped =>
    }
  }
}
