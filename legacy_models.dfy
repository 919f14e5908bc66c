/**
 * Defaults of the older settings file used by the abstract, first-person and
 * navigation scenes (`threed-view-widget/threed-models.ts`). The records are
 * those of ThreedModels; this copy's tooltip carries a `showTooltipAction` and
 * its device group has no marker.
 */
module LegacyModels {
  import opened Wrappers
  import opened ThreedModels

  function LegacyVectorZero(): (v: Vector3)
    ensures v == Vector3(0.0, 0.0, 0.0) && v == VectorZero()
  {
    Vector3(0.0, 0.0, 0.0)
  }

  function LegacyVectorOne(): (v: Vector3)
    ensures v == Vector3(1.0, 1.0, 1.0) && v == VectorOne()
  {
    Vector3(1.0, 1.0, 1.0)
  }

  function LegacyTooltipSettings(): (t: TooltipSettings)
    ensures t.showTooltip && t.showTooltipAction == Some("hover")
    ensures t.tooltipPattern == "<b>${entityName}</b>"
    ensures t.tooltipOffsetX == 0.0 && t.tooltipOffsetY == 0.0
  {
    TooltipSettings(true, Some("hover"), "<b>${entityName}</b>", 0.0, 0.0)
  }

  function LegacyCameraSettings(): (c: CameraSettings)
    ensures c.near == 0.1 && c.far == 1000.0 && c.fov == 60.0
    ensures c.initialPosition == LegacyVectorZero() && c.initialRotation == LegacyVectorZero()
  {
    CameraSettings(0.1, 1000.0, 60.0, LegacyVectorZero(), LegacyVectorZero())
  }

  function LegacyEnvironmentSettings(): (e: EnvironmentSettings)
    ensures !e.useAlias && e.objectSettings.None?
    ensures e.aliasSettings.entityAlias == Some("") && e.keySettings.entityAttribute == Some("")
  {
    EnvironmentSettings(AliasSettings(Some("")), KeySettings(Some("")), false, None)
  }

  function LegacyDeviceGroupSettings(): (g: DeviceGroupSettings)
    ensures g.aliasSettings.entityAlias == Some("") && !g.useAttribute && g.objects == Some([])
    ensures g.tooltip == LegacyTooltipSettings() && g.marker.None?
  {
    DeviceGroupSettings(AliasSettings(Some("")), false, KeySettings(Some("")), Some([]),
      LegacyTooltipSettings(), None)
  }

  function LegacyDevicesSettings(): (d: DevicesSettings)
    ensures d.groups == Some([])
  {
    DevicesSettings(Some([]))
  }

  /** The default scene: an alias-less environment, the default camera and no device groups. */
  function LegacySceneSettings(): (s: SceneSettings)
    ensures s.environment.Some? && !s.environment.value.useAlias && s.environment.value.objectSettings.None?
    ensures s.camera == Some(LegacyCameraSettings())
    ensures s.devices == Some(DevicesSettings(Some([])))
  {
    SceneSettings(Some(LegacyEnvironmentSettings()), Some(LegacyCameraSettings()), Some(LegacyDevicesSettings()))
  }
}
