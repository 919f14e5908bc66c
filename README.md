# A verified model of the ThingsBoard 3D widget core

ThingsBoard's web UI (`ui-ngx`) has a family of 3D widgets. They show a building, its devices and the people in it in a three.js scene. They drive the scene with cannon-es physics, and they let users edit it in Angular settings forms. This project models the logic of that subsystem in Dafny and proves what the code promises about it.

The model covers:

- **Settings and loaders.** `ThreedModels` and `LegacyModels` hold the settings records and their defaults. `ModelLoader` turns settings into *entity loaders* and decides when two loaders name the same model.
- **Registries.** Each keeps an invariant:
  - `ModelManager`: loaded models by id, and the flat mesh list beside them;
  - `CssManager`: label layers and CSS objects per model;
  - `GenericSceneManager`: components, merged values and the active flag;
  - `Physics`: bodies, contact pairing and the update order;
  - `AbstractScene`: scene models and clickable leaf meshes.
- **Interaction state machines.**
  - `Raycasters` and `Css2dRaycasting`: select, deselect, hover and the material save/restore;
  - `TransformController` and `SceneEditor`: drag change detection and the swallowed click;
  - `FpsScene`: key flags and the jump rule;
  - `ProgressBar`;
  - `BaseComponents`: initialise once;
  - `NavigateScene`: label layers and hover colours.
- **Simulation rules.**
  - `Earthquake`: the push/pop force cycle and the magnitude phases;
  - `Person`: desk claiming and walking a path;
  - `NavMesh`: obstacle marking on the grid;
  - `GroupGameObject`: rigid bodies and lock constraints by tag;
  - `SimulationHelper`: the simulation lifecycle and its script dictionary.
- **Settings forms.** `SceneSettingsComponent` reconciles the loaded models with new settings. `DeviceGroupSettingsComponent` and `SimulationWidgetSettings` hold the list edits.
- **Shared pieces.** `UpdateDevices` applies device transforms, `VrUi` lays out VR panels, `VectorUtils` compares and copies vectors, and `SceneGraph` is the shared scene-tree value.

How things are represented:

- three.js objects are values of a scene-tree datatype: uuid, type, `userData`, visibility, material, transform and children.
- Vectors are triples of reals.
- A physics body is an id with a velocity.
- A JavaScript `Map` whose iteration order matters is a Dafny map plus the sequence of its keys.
- Classes whose fields the code updates in place are Dafny classes. Their methods are proved against specification functions, and lemmas prove properties of those functions.
- Each library call is a parameter or an input: loaders, `Math.random`, the path finder, tweens, `new Function`, DOM queries and layout.

## Model

| member | source | states |
|---|---|---|
| ThreedModels.DefaultModelSettings | ui-ngx/src/app/modules/home/components/widget/threed-view-widget/threed/threed-models.ts:33-37 | the default model URL is the Astronaut GLB; alias and attribute start empty |
| ThreedModels.VectorZero | ui-ngx/src/app/modules/home/components/widget/threed-view-widget/threed/threed-models.ts:46-50 | the zero vector default |
| ThreedModels.VectorOne | ui-ngx/src/app/modules/home/components/widget/threed-view-widget/threed/threed-models.ts:51-55 | the unit-scale vector default |
| ThreedModels.DefaultMarkerSettings | ui-ngx/src/app/modules/home/components/widget/threed-view-widget/threed/threed-models.ts:67-74 | markers are off by default, image size 34, no images |
| ThreedModels.DefaultTooltipSettings | ui-ngx/src/app/modules/home/components/widget/threed-view-widget/threed/threed-models.ts:94-99 | tooltips are shown by default with the bold entity-name pattern and zero offsets |
| ThreedModels.DefaultCameraSettings | ui-ngx/src/app/modules/home/components/widget/threed-view-widget/threed/threed-models.ts:110-116 | near 0.1 < far 1000, fov 60, camera at the origin |
| ThreedModels.DefaultEnvironmentSettings | ui-ngx/src/app/modules/home/components/widget/threed-view-widget/threed/threed-models.ts:126-131 | the environment starts without an alias, a key or objects |
| ThreedModels.DefaultDeviceGroupSettings | ui-ngx/src/app/modules/home/components/widget/threed-view-widget/threed/threed-models.ts:143-150 | a new device group has no alias, no attribute, no objects, the default tooltip and a hidden marker |
| ThreedModels.DefaultDevicesSettings | ui-ngx/src/app/modules/home/components/widget/threed-view-widget/threed/threed-models.ts:157-159 | no device groups by default |
| ThreedModels.DefaultSceneSettings | ui-ngx/src/app/modules/home/components/widget/threed-view-widget/threed/threed-models.ts:171-178 | the default scene is built from the default environment, camera and devices |
| ThreedModels.DefaultSimulationSettings | ui-ngx/src/app/modules/home/components/widget/threed-view-widget/threed/threed-models.ts:217-232 | exactly five scripts (setup, start, reset, stop, onDataUpdate), in that order, none deletable; no assets, empty menu script and no asset URL |
| ThreedModels.DefaultScriptNamesDistinct | ui-ngx/src/app/modules/home/components/widget/threed-view-widget/threed/threed-models.ts:217-232 | the five default script names are pairwise distinct |
| ThreedModels.OrbitDiscriminatorsSeparate | ui-ngx/src/app/modules/home/components/widget/threed-view-widget/threed/threed-models.ts:185-199 | each orbit discriminator accepts its own interface's keys, and neither accepts the other interface's exact key set |
| ThreedModels.SimulationStatesAreFive | ui-ngx/src/app/modules/home/components/widget/threed-view-widget/threed/threed-models.ts:247-249 | the lifecycle has exactly five states |
| LegacyModels.LegacyVectorZero | ui-ngx/src/app/modules/home/components/widget/threed-view-widget/threed-models.ts:46-50 | the older zero vector equals the current one |
| LegacyModels.LegacyVectorOne | ui-ngx/src/app/modules/home/components/widget/threed-view-widget/threed-models.ts:51-55 | the older unit vector equals the current one |
| LegacyModels.LegacyTooltipSettings | ui-ngx/src/app/modules/home/components/widget/threed-view-widget/threed-models.ts:76-82 | the older tooltip default shows on hover, with the bold entity-name pattern |
| LegacyModels.LegacyCameraSettings | ui-ngx/src/app/modules/home/components/widget/threed-view-widget/threed-models.ts:93-99 | near 0.1, far 1000, fov 60, camera at the origin |
| LegacyModels.LegacyEnvironmentSettings | ui-ngx/src/app/modules/home/components/widget/threed-view-widget/threed-models.ts:109-114 | the environment starts without an alias, a key or objects |
| LegacyModels.LegacyDeviceGroupSettings | ui-ngx/src/app/modules/home/components/widget/threed-view-widget/threed-models.ts:125-131 | the older device group has the hover tooltip and no marker |
| LegacyModels.LegacyDevicesSettings | ui-ngx/src/app/modules/home/components/widget/threed-view-widget/threed-models.ts:138-140 | no device groups by default |
| LegacyModels.LegacySceneSettings | ui-ngx/src/app/modules/home/components/widget/threed-view-widget/threed-models.ts:152-159 | the older default scene: alias-less environment, default camera, no groups |
| VectorUtils.CompareVector3 | ui-ngx/src/app/modules/home/components/widget/threed-view-widget/threed-utils.ts:21-24 | false when either vector is missing; otherwise true exactly when all three components are equal |
| VectorUtils.CompareVector3AndUpdate | ui-ngx/src/app/modules/home/components/widget/threed-view-widget/threed-utils.ts:31-38 | reports whether v2 already equalled v1, leaves v2 untouched then, and in every case v2 equals v1 afterwards |
| VectorUtils.MutableVector3.Copy | ui-ngx/src/app/modules/home/components/widget/threed-view-widget/threed-utils.ts:36 | copy makes the vector equal to its argument |
| BaseComponents.ThreedBaseComponent.Initialize | ui-ngx/src/app/modules/home/components/widget/threed-view-widget/threed/threed-components/threed-base-component.ts:27-32 | only the first initialize binds the scene manager; later calls keep it |
| BaseComponents.ThreedBaseComponent.OnDestroy | ui-ngx/src/app/modules/home/components/widget/threed-view-widget/threed/threed-components/threed-base-component.ts:37-39 | every collected subscription is unsubscribed, in collection order |
| BaseComponents.InitializeTwiceKeepsFirst | ui-ngx/src/app/modules/home/components/widget/threed-view-widget/threed/threed-components/threed-base-component.ts:27-32 | two initializations in a row leave the first manager bound |
| ModelLoader.AreLoaderEqualAsWritten | ui-ngx/src/app/core/services/threed-model-loader.service.ts:57-70 | as written: missing loaders compare false, URL loaders by url, mixed kinds false, and the alias branch fails (TypeError) exactly when alias and attribute match but a loader has no entity |
| ModelLoader.AreLoaderEqualProperties | ui-ngx/src/app/core/services/threed-model-loader.service.ts:57-70 | the corrected comparison: never equal with a missing loader; URL loaders equal iff urls match; alias loaders iff alias, attribute and entity id match; symmetric and reflexive; agrees with the written one whenever that one does not throw |
| ModelLoader.TransformEditKeepsEnvironmentLoader | ui-ngx/src/app/core/services/threed-model-loader.service.ts:96-110 | moving, rotating or scaling the environment object keeps an equal loader, so the model is not reloaded |
| ModelLoader.AliasEnvironmentComparisonThrows | ui-ngx/src/app/core/services/threed-model-loader.service.ts:63-66 | an alias-based environment loader compared with itself makes the written comparison throw, while the corrected one answers true |
| ModelLoader.ToEntityLoader | ui-ngx/src/app/core/services/threed-model-loader.service.ts:96-110 | a URL loader exactly when the alias is off and the object's URL is non-empty; an alias loader exactly when the alias is on and alias and attribute are non-empty; the loader carries those values |
| ModelLoader.EntityLoaders | ui-ngx/src/app/core/services/threed-model-loader.service.ts:112-142 | a list exactly when the group has an alias and is not (attribute mode with an empty attribute); then one loader per object, in object order |
| ModelLoader.ToEntityLoaders | ui-ngx/src/app/core/services/threed-model-loader.service.ts:112-142 | the loop builds the same list as EntityLoaders, element by element |
| ModelLoader.IsConfigValid | ui-ngx/src/app/core/services/threed-model-loader.service.ts:79-81 | a config is valid exactly when it is present, has an alias controller and has a loader: each missing part makes it invalid, and a config with all three is valid |
| ModelLoader.LoadModelAsUrl | ui-ngx/src/app/core/services/threed-model-loader.service.ts:144-180 | an invalid config yields the default model under a random id; a URL loader passes its url and entity id; an alias loader reads the attribute of its entity, or first resolves the alias |
| ModelLoader.AttributeToUrl | ui-ngx/src/app/core/services/threed-model-loader.service.ts:182-192 | no attribute values is the "Invalid attribute" error; otherwise the first value is the URL and a missing entity id becomes "" |
| SceneGraph.Traverse | ui-ngx/src/app/modules/home/components/widget/threed-view-widget/threed/threed-managers/threed-model-manager.ts:68-71 | traversal starts at the node itself |
| SceneGraph.FilterMeshes | ui-ngx/src/app/modules/home/components/widget/threed-view-widget/threed/threed-managers/threed-model-manager.ts:69-70 | keeps exactly the mesh nodes of a list, in order |
| SceneGraph.MeshIdsAreTraversalMeshes | ui-ngx/src/app/modules/home/components/widget/threed-view-widget/threed/threed-managers/threed-model-manager.ts:67-71 | the flat model lists exactly the meshes the traversal meets, in traversal order |
| SceneGraph.FindParentByChild | ui-ngx/src/app/modules/home/components/widget/threed-view-widget/threed/threed-components/threed-abstract-raycaster-component.ts:77 | a uuid outside the tree finds nothing; a node found is on the chain from the root and carries the tag value; nothing found means no node on the chain carries it |
| SceneGraph.DegToRad | ui-ngx/src/app/modules/home/components/widget/threed-view-widget/threed/threed-managers/threed-model-manager.ts:171 | each component in radians is the degree value times pi/180, with the same sign |
| SceneGraph.PathTo | ui-ngx/src/app/modules/home/components/widget/threed-view-widget/threed/threed-components/threed-abstract-raycaster-component.ts:77 | the chain found for a uuid starts at the root and ends at a node with that uuid |
| SceneGraph.NearestTagged | ui-ngx/src/app/modules/home/components/widget/threed-view-widget/threed/threed-components/threed-abstract-raycaster-component.ts:77 | a found node is on the chain and carries the tag value; nothing is found only when no node of the chain carries it |
| SceneGraph.NearestTaggedIsNearest | ui-ngx/src/app/modules/home/components/widget/threed-view-widget/threed/threed-components/threed-abstract-raycaster-component.ts:77 | the node found is the last node of the chain carrying the tag value: no node after it carries it |
| SceneGraph.FindParentByChildIsNearest | ui-ngx/src/app/modules/home/components/widget/threed-view-widget/threed/threed-components/threed-abstract-raycaster-component.ts:77 | the node found for a uuid is the last node carrying the tag value on the chain from the root to that uuid, so the nearest tagged ancestor (or the node itself) wins |
| SceneGraph.RemoveFirst | ui-ngx/src/app/modules/home/components/widget/lib/settings/threed/threed-scene-settings.component.ts:338-339 | unchanged when absent; otherwise exactly one copy of the element is gone and the rest is kept (as a multiset) |
| CssManager.Clamp01 | ui-ngx/src/app/modules/home/components/widget/threed-view-widget/threed/threed-managers/threed-css-manager.ts:106 | the label offset is clamped into [0, 1], unchanged when already inside |
| CssManager.NewElement | ui-ngx/src/app/modules/home/components/widget/threed-view-widget/threed/threed-managers/threed-css-manager.ts:172-216 | a label (lines 172-178) gets class `className` or "label" and the initial text; an image (lines 211-216) gets class `className` or "" |
| CssManager.FirstOfType | ui-ngx/src/app/modules/home/components/widget/threed-view-widget/threed/threed-managers/threed-css-manager.ts:279-284 | the first element of the requested type, and none before it; none at all when no element has the type |
| CssManager.NextMarkersFlag | ui-ngx/src/app/modules/home/components/widget/threed-view-widget/threed/threed-managers/threed-css-manager.ts:74-77 | corrected toggle: an explicit flag is applied as given, no flag flips the current state |
| CssManager.ToggleMarkersDisableEnables | ui-ngx/src/app/modules/home/components/widget/threed-view-widget/threed/threed-managers/threed-css-manager.ts:75 | as written, asking to disable the markers layer while it is disabled turns it on; the corrected toggle keeps it off |
| CssManager.ToggleMarkersAgreement | ui-ngx/src/app/modules/home/components/widget/threed-view-widget/threed/threed-managers/threed-css-manager.ts:75 | the written and corrected toggles agree on every input except an explicit false, where the written one flips |
| CssManager.WithVisibility | ui-ngx/src/app/modules/home/components/widget/threed-view-widget/threed/threed-managers/threed-css-manager.ts:264-269 | the 2-D object is visible exactly outside VR; a VR panel is visible only in VR and then as last recorded; nothing else changes |
| CssManager.ThreedCssManager.constructor | ui-ngx/src/app/modules/home/components/widget/threed-view-widget/threed/threed-managers/threed-css-manager.ts:61-72 | a new manager has no objects, the first label layer, and markers enabled |
| CssManager.ThreedCssManager.UpdateMarkersLayer | ui-ngx/src/app/modules/home/components/widget/threed-view-widget/threed/threed-managers/threed-css-manager.ts:79-84 | with a camera, layer 4 is enabled exactly when markers are enabled, other layers untouched; without a camera nothing changes |
| CssManager.ThreedCssManager.ToggleMarkersLayerAsWritten | ui-ngx/src/app/modules/home/components/widget/threed-view-widget/threed/threed-managers/threed-css-manager.ts:74-77 | the flag becomes `enabled \|\| !current` and the camera's markers layer follows it |
| CssManager.ThreedCssManager.ToggleMarkersLayer | ui-ngx/src/app/modules/home/components/widget/threed-view-widget/threed/threed-managers/threed-css-manager.ts:74-77 | the flag becomes the corrected toggle's value and the camera's markers layer follows it; the registry is unchanged |
| CssManager.ThreedCssManager.CreateObject | ui-ngx/src/app/modules/home/components/widget/threed-view-widget/threed/threed-managers/threed-css-manager.ts:86-129 | the first object of an id allocates the next layer and appends the id to the key order; the object is appended to its id's list, drawn on the markers layer when always visible and else on its id's layer, with the next global object id and the clamped offset |
| CssManager.ThreedCssManager.FindFirst | ui-ngx/src/app/modules/home/components/widget/threed-view-widget/threed/threed-managers/threed-css-manager.ts:273-288 | the first listed id whose entry has an element of the type, and the index of the first such element; no earlier listed id has one; none when no listed id has one |
| CssManager.ThreedCssManager.FindFirstElement | ui-ngx/src/app/modules/home/components/widget/threed-view-widget/threed/threed-managers/threed-css-manager.ts:290-295 | the element FindFirst points at, with its id and that id's layer |
| CssManager.ThreedCssManager.FindCssObject | ui-ngx/src/app/modules/home/components/widget/threed-view-widget/threed/threed-managers/threed-css-manager.ts:297-305 | the entry of the first listed id that has one; none exactly when no listed id has an entry |
| CssManager.ThreedCssManager.UpdateLabel | ui-ngx/src/app/modules/home/components/widget/threed-view-widget/threed/threed-managers/threed-css-manager.ts:234-244 | nothing changes when no listed id has a label; otherwise the entry updated is that of the first listed id holding a label, at the index of its first label, which gets the content and a new hidden VR panel on that id's layer; nothing else changes |
| CssManager.ThreedCssManager.UpdateImage | ui-ngx/src/app/modules/home/components/widget/threed-view-widget/threed/threed-managers/threed-css-manager.ts:246-260 | nothing changes when no listed id has an image; otherwise the entry updated is that of the first listed id holding an image, at the index of its first image, which gets the url and width and height equal to the size, or 34 when the size is 0; nothing else changes |
| CssManager.ThreedCssManager.UpdateObjectVisibility | ui-ngx/src/app/modules/home/components/widget/threed-view-widget/threed/threed-managers/threed-css-manager.ts:262-271 | every object of every key takes WithVisibility; keys, order and layers stay |
| CssManager.ThreedCssManager.ReplaceData | ui-ngx/src/app/modules/home/components/widget/threed-view-widget/threed/threed-managers/threed-css-manager.ts:241-242 | an object written back in place under the same key and id changes that one object and keeps the invariant |
| CssManager.MapVisibility | ui-ngx/src/app/modules/home/components/widget/threed-view-widget/threed/threed-managers/threed-css-manager.ts:263 | the outer loop of the visibility pass keeps the keys and gives every key's entry ObjectWithVisibility |
| CssManager.DataWithVisibility | ui-ngx/src/app/modules/home/components/widget/threed-view-widget/threed/threed-managers/threed-css-manager.ts:264-269 | the inner loop keeps the number of objects and passes each through WithVisibility |
| CssManager.ObjectWithVisibility | ui-ngx/src/app/modules/home/components/widget/threed-view-widget/threed/threed-managers/threed-css-manager.ts:263-270 | same layer, same number of objects, each object with the visibility rule applied |
| CssManager.FirstOfTypeIsFirst | ui-ngx/src/app/modules/home/components/widget/threed-view-widget/threed/threed-managers/threed-css-manager.ts:279-284 | an element of the type with none before it is the one FirstOfType finds |
| CssManager.AllocKeepsInv | ui-ngx/src/app/modules/home/components/widget/threed-view-widget/threed/threed-managers/threed-css-manager.ts:97-98 | allocating a layer for a new id keeps the registry invariant (the ids in insertion order, the id at position i owning layer 5 + i, the next free layer after them) |
| CssManager.CreateKeepsInv | ui-ngx/src/app/modules/home/components/widget/threed-view-widget/threed/threed-managers/threed-css-manager.ts:121-124 | appending an object with the next global id keeps the invariant |
| CssManager.NewKeyKeepsInv | ui-ngx/src/app/modules/home/components/widget/threed-view-widget/threed/threed-managers/threed-css-manager.ts:97-124 | a new id taking the next layer with its first object as the only entry keeps the invariant |
| CssManager.ReplaceKeepsInv | ui-ngx/src/app/modules/home/components/widget/threed-view-widget/threed/threed-managers/threed-css-manager.ts:241-253 | updating an object in place with the same id keeps the invariant |
| CssManager.VisibilityKeepsInv | ui-ngx/src/app/modules/home/components/widget/threed-view-widget/threed/threed-managers/threed-css-manager.ts:262-271 | the visibility pass keeps the invariant |
| CssManager.LayersDistinct | ui-ngx/src/app/modules/home/components/widget/threed-view-widget/threed/threed-managers/threed-css-manager.ts:97-103 | under the invariant distinct ids own distinct layers, each from 5 up to the next free one, so no label layer is the markers layer 4 (the camera's 32-bit mask is not modelled, see "Left out") |
| GenericSceneManager.Filter | ui-ngx/src/app/modules/home/components/widget/threed-view-widget/threed/threed-managers/threed-generic-scene-manager.ts:127-135 | keeps exactly the components that pass the tester, never more than given |
| GenericSceneManager.FilterAppend | ui-ngx/src/app/modules/home/components/widget/threed-view-widget/threed/threed-managers/threed-generic-scene-manager.ts:127-135 | filtering distributes over concatenation, so kept components stay in insertion order |
| GenericSceneManager.GetComponent | ui-ngx/src/app/modules/home/components/widget/threed-view-widget/threed/threed-managers/threed-generic-scene-manager.ts:123-125 | the first component of the type and none of that type before it; none exactly when no component has the type |
| GenericSceneManager.Merge | ui-ngx/src/app/modules/home/components/widget/threed-view-widget/threed/threed-managers/threed-generic-scene-manager.ts:141 | every new value wins, every current key not overwritten survives, and no other key appears |
| GenericSceneManager.NormalisedCoord | ui-ngx/src/app/modules/home/components/widget/threed-view-widget/threed/threed-managers/threed-generic-scene-manager.ts:243-244 | the pointer position mapped to [-1, 1] across the container (y flipped); no finite value for a zero-sized container |
| GenericSceneManager.InsideUnitMeansInsideRect | ui-ngx/src/app/modules/home/components/widget/threed-view-widget/threed/threed-managers/threed-generic-scene-manager.ts:246 | a normalised coordinate is strictly inside (-1, 1) exactly when the pointer is strictly inside the container |
| GenericSceneManager.ThreedGenericSceneManager.constructor | ui-ngx/src/app/modules/home/components/widget/threed-view-widget/threed/threed-managers/threed-generic-scene-manager.ts:58-63 | each manager takes the next scene id and registers itself inactive |
| GenericSceneManager.ThreedGenericSceneManager.Add | ui-ngx/src/app/modules/home/components/widget/threed-view-widget/threed/threed-managers/threed-generic-scene-manager.ts:81-83 | the component is appended; nothing else changes |
| GenericSceneManager.ThreedGenericSceneManager.Initialize | ui-ngx/src/app/modules/home/components/widget/threed-view-widget/threed/threed-managers/threed-generic-scene-manager.ts:78 | every component is initialised with this manager, once each, in insertion order |
| GenericSceneManager.ThreedGenericSceneManager.FindComponentsByTester | ui-ngx/src/app/modules/home/components/widget/threed-view-widget/threed/threed-managers/threed-generic-scene-manager.ts:127-135 | the loop returns Filter of the components |
| GenericSceneManager.ThreedGenericSceneManager.AttachToElement | ui-ngx/src/app/modules/home/components/widget/threed-view-widget/threed/threed-managers/threed-generic-scene-manager.ts:93-108 | a second container is refused and changes nothing; a first is recorded and sizes the scene |
| GenericSceneManager.ThreedGenericSceneManager.Resize | ui-ngx/src/app/modules/home/components/widget/threed-view-widget/threed/threed-managers/threed-generic-scene-manager.ts:110-117 | a truthy width or height is taken as given, a falsy one comes from the container; without a container a falsy size fails |
| GenericSceneManager.ThreedGenericSceneManager.SetValues | ui-ngx/src/app/modules/home/components/widget/threed-view-widget/threed/threed-managers/threed-generic-scene-manager.ts:140-146 | the current values become the merge, then every updatable component receives them in order |
| GenericSceneManager.ThreedGenericSceneManager.UpdateValues | ui-ngx/src/app/modules/home/components/widget/threed-view-widget/threed/threed-managers/threed-generic-scene-manager.ts:152-159 | nothing before any values were set; otherwise each updatable component receives the current values, in order |
| GenericSceneManager.ThreedGenericSceneManager.CalculateMousePosition | ui-ngx/src/app/modules/home/components/widget/threed-view-widget/threed/threed-managers/threed-generic-scene-manager.ts:238-250 | without a container nothing changes; otherwise the pointer is normalised and the scene is active exactly when it lies inside the container |
| GenericSceneManager.ThreedGenericSceneManager.HandleEvent | ui-ngx/src/app/modules/home/components/widget/threed-view-widget/threed/threed-managers/threed-generic-scene-manager.ts:209-236 | key events leave activity alone; an event reaches the listener components, in order, only while the scene is active |
| GenericSceneManager.ThreedGenericSceneManager.DeliverToListeners | ui-ngx/src/app/modules/home/components/widget/threed-view-widget/threed/threed-managers/threed-generic-scene-manager.ts:214-215 | every listener gets the event, in insertion order |
| GenericSceneManager.UpdateCalls | ui-ngx/src/app/modules/home/components/widget/threed-view-widget/threed/threed-managers/threed-generic-scene-manager.ts:156 | the loop yields one value delivery per updatable component, in order |
| GenericSceneManager.ListenerCalls | ui-ngx/src/app/modules/home/components/widget/threed-view-widget/threed/threed-managers/threed-generic-scene-manager.ts:215 | the loop yields one delivery per listener, in order |
| GenericSceneManager.UpdateDeliveries | ui-ngx/src/app/modules/home/components/widget/threed-view-widget/threed/threed-managers/threed-generic-scene-manager.ts:156 | one update call per component, in order, each with the same values |
| GenericSceneManager.EventDeliveries | ui-ngx/src/app/modules/home/components/widget/threed-view-widget/threed/threed-managers/threed-generic-scene-manager.ts:215 | one event call per listener, in order |
| ModelManager.ConcatFlatAppend | ui-ngx/src/app/modules/home/components/widget/threed-view-widget/threed/threed-managers/threed-model-manager.ts:109-114 | the flat list over one more key is the old list followed by that model's meshes |
| ModelManager.ApplyTransforms | ui-ngx/src/app/modules/home/components/widget/threed-view-widget/threed/threed-managers/threed-model-manager.ts:170-172 | only the given parts are set, the rotation converted from degrees to radians; everything else about the root is kept |
| ModelManager.Transformed | ui-ngx/src/app/modules/home/components/widget/threed-view-widget/threed/threed-managers/threed-model-manager.ts:156-173 | the entry keeps its id, meshes and exploded group; its root (also the GLTF scene) is transformed |
| ModelManager.Explode | ui-ngx/src/app/modules/home/components/widget/threed-view-widget/threed/threed-managers/threed-model-manager.ts:116-154 | the exploded group is the existing one, or the split made on first use; distance 0 shows the root and hides the group, any other distance the reverse |
| ModelManager.ExplodeBuildsOnce | ui-ngx/src/app/modules/home/components/widget/threed-view-widget/threed/threed-managers/threed-model-manager.ts:121-131 | a second explode reuses the first one's group, so exploding twice equals exploding once with the later distance |
| ModelManager.ExplodeKeepsMeshes | ui-ngx/src/app/modules/home/components/widget/threed-view-widget/threed/threed-managers/threed-model-manager.ts:116-154 | exploding does not change the model's meshes |
| ModelManager.RegistryInvSameShape | ui-ngx/src/app/modules/home/components/widget/threed-view-widget/threed/threed-managers/threed-model-manager.ts:47-53 | replacing an entry by one with the same id, root and meshes while the scene only grows keeps the registry invariant |
| ModelManager.ThreedModelManager.constructor | ui-ngx/src/app/modules/home/components/widget/threed-view-widget/threed/threed-managers/threed-model-manager.ts:47-49 | a new manager has no models, no flat models and no events |
| ModelManager.ThreedModelManager.RecalculateFlatModels | ui-ngx/src/app/modules/home/components/widget/threed-view-widget/threed/threed-managers/threed-model-manager.ts:109-114 | the flat list becomes every model's meshes, concatenated in key order |
| ModelManager.ThreedModelManager.AddModel | ui-ngx/src/app/modules/home/components/widget/threed-view-widget/threed/threed-managers/threed-model-manager.ts:60-94 | the model is keyed by `configs.id` or else its root's uuid, both the GLTF and its root are stamped with the id and root tag, its meshes recorded, a re-used key keeps its place in the order, the root is added to the scene and the after-add event follows; the invariant (flat list = meshes in key order) holds |
| ModelManager.AddKeepsInv | ui-ngx/src/app/modules/home/components/widget/threed-view-widget/threed/threed-managers/threed-model-manager.ts:72-93 | registering a model whose root is not yet in the scene, adding the root and rebuilding the flat list keep every key listed once, each entry's meshes recorded, each root in the scene and roots distinct |
| ModelManager.ThreedModelManager.Register | ui-ngx/src/app/modules/home/components/widget/threed-view-widget/threed/threed-managers/threed-model-manager.ts:72-92 | the key is appended only when new, its entry is replaced, the root joins the scene and the add event is emitted |
| ModelManager.ThreedModelManager.Store | ui-ngx/src/app/modules/home/components/widget/threed-view-widget/threed/threed-managers/threed-model-manager.ts:116-154 | only the entry under the id and the scene's children change |
| ModelManager.ThreedModelManager.RemoveModel | ui-ngx/src/app/modules/home/components/widget/threed-view-widget/threed/threed-managers/threed-model-manager.ts:96-107 | an unknown id changes nothing; otherwise the before-remove event is sent while the root is still in the scene, then the root leaves the scene and the entry and its key are dropped |
| ModelManager.ThreedModelManager.ReplaceModel | ui-ngx/src/app/modules/home/components/widget/threed-view-widget/threed/threed-managers/threed-model-manager.ts:55-58 | after replacing, the id holds exactly the new model, it is the last key, and it appears once in the order; the old root leaves the scene's children and the new root is appended; a removal event (only when the id was registered) is followed by the add event |
| ModelManager.ThreedModelManager.ExplodeObjectByDistance | ui-ngx/src/app/modules/home/components/widget/threed-view-widget/threed/threed-managers/threed-model-manager.ts:116-154 | unknown ids are ignored; otherwise the entry becomes Explode of it and a first explode adds the group to the scene |
| ModelManager.ThreedModelManager.UpdateModelTransforms | ui-ngx/src/app/modules/home/components/widget/threed-view-widget/threed/threed-managers/threed-model-manager.ts:156-173 | unknown ids are ignored; otherwise only that entry changes, to Transformed |
| ModelManager.RemoveFirstKeepsDistinct | ui-ngx/src/app/modules/home/components/widget/threed-view-widget/threed/threed-managers/threed-model-manager.ts:104 | removing a key from a duplicate-free order keeps it duplicate-free and removes exactly that key |
| Physics.Horizontal | ui-ngx/src/app/modules/home/components/widget/threed-view-widget/threed/threed-managers/threed-physic-manager.ts:125 | a body's velocity takes the force's x and z and a zero y |
| Physics.World.SetAllVelocities | ui-ngx/src/app/modules/home/components/widget/threed-view-widget/threed/threed-managers/threed-physic-manager.ts:119-120 | every body gets the velocity, nothing else changes |
| Physics.PairContact | ui-ngx/src/app/modules/home/components/widget/threed-view-widget/threed/threed-managers/threed-physic-manager.ts:45-54 | A is a component on body A (none only if no component is); B is a component on body B distinct from A's body, since a component matching A is never taken as B |
| Physics.Notify | ui-ngx/src/app/modules/home/components/widget/threed-view-widget/threed/threed-managers/threed-physic-manager.ts:56-57 | one collision notice per component found |
| Physics.ThreedPhysicManager.AddPhysic | ui-ngx/src/app/modules/home/components/widget/threed-view-widget/threed/threed-managers/threed-physic-manager.ts:79-82 | the component is appended and its body added to the world |
| Physics.ThreedPhysicManager.RemovePhysic | ui-ngx/src/app/modules/home/components/widget/threed-view-widget/threed/threed-managers/threed-physic-manager.ts:84-93 | an unregistered component changes nothing; otherwise its first occurrence is spliced out and its body removed from the world |
| Physics.ThreedPhysicManager.OnContact | ui-ngx/src/app/modules/home/components/widget/threed-view-widget/threed/threed-managers/threed-physic-manager.ts:42-77 | with at most one component nothing is notified; otherwise the pairing of PairContact is notified |
| Physics.ThreedPhysicManager.ApplyEarthquakeForce | ui-ngx/src/app/modules/home/components/widget/threed-view-widget/threed/threed-managers/threed-physic-manager.ts:117-130 | no magnitude stops every body; otherwise every body gets the same horizontal velocity (10r - 5) times the magnitude |
| Physics.ThreedPhysicManager.UpdatePhysics | ui-ngx/src/app/modules/home/components/widget/threed-view-widget/threed/threed-managers/threed-physic-manager.ts:103-111 | the before hooks run in order, then the earthquake force, then the world step, then the update hooks in order; the step receives every body with the earthquake velocity (none for a magnitude of at most 0, else the horizontal random force times the magnitude); the bodies afterwards are whatever the step and the hooks leave |
| Physics.RemoveBody | ui-ngx/src/app/modules/home/components/widget/threed-view-widget/threed/threed-managers/threed-physic-manager.ts:88 | removing an absent body changes nothing; a present one shortens the list by one and adds nothing |
| Physics.StepCalls | ui-ngx/src/app/modules/home/components/widget/threed-view-widget/threed/threed-managers/threed-physic-manager.ts:100-110 | one hook call per component, in order |
| Physics.StepCallsOf | ui-ngx/src/app/modules/home/components/widget/threed-view-widget/threed/threed-managers/threed-physic-manager.ts:100-110 | the loop yields StepCalls |
| Earthquake.Neg | ui-ngx/src/app/modules/home/components/widget/threed-view-widget/threed/threed-managers/threed-earthquake-controller.ts:134 | the negated force |
| Earthquake.RandomForce | ui-ngx/src/app/modules/home/components/widget/threed-view-widget/threed/threed-managers/threed-earthquake-controller.ts:133 | a random earthquake force is horizontal |
| Earthquake.PushSteps | ui-ngx/src/app/modules/home/components/widget/threed-view-widget/threed/threed-managers/threed-earthquake-controller.ts:132 | the steps that push a new force are exactly those s with 2s < maxSteps, at least half of the cycle |
| Earthquake.ThreedEarthquakeController.constructor | ui-ngx/src/app/modules/home/components/widget/threed-view-widget/threed/threed-managers/threed-earthquake-controller.ts:48-62 | options default to the controller's max steps and durations; nothing is started |
| Earthquake.ThreedEarthquakeController.Start | ui-ngx/src/app/modules/home/components/widget/threed-view-widget/threed/threed-managers/threed-earthquake-controller.ts:64-97 | a second start does nothing; a first start begins the ramp-up tween |
| Earthquake.ThreedEarthquakeController.CompleteTween | ui-ngx/src/app/modules/home/components/widget/threed-view-widget/threed/threed-managers/threed-earthquake-controller.ts:73-91 | the ramp-up ends at the magnitude and, unless infinite, holds the peak; the peak ends with the ramp-down; the ramp-down resets the controller: magnitude, elapsed time, step and force stack cleared, not started, every body's velocity zero and nothing else of the bodies changed |
| Earthquake.ThreedEarthquakeController.Reset | ui-ngx/src/app/modules/home/components/widget/threed-view-widget/threed/threed-managers/threed-earthquake-controller.ts:105-115 | time, step, magnitude and forces are cleared, the controller stops and every body stops |
| Earthquake.ThreedEarthquakeController.Restart | ui-ngx/src/app/modules/home/components/widget/threed-view-widget/threed/threed-managers/threed-earthquake-controller.ts:100-103 | a restart begins a fresh ramp-up from step 0 |
| Earthquake.ThreedEarthquakeController.Update | ui-ngx/src/app/modules/home/components/widget/threed-view-widget/threed/threed-managers/threed-earthquake-controller.ts:117-122 | nothing happens unless started; otherwise the time advances by delta and the force step is taken: with no magnitude every body stops and step and stack stay; otherwise every body takes the horizontal force of this step (a fresh random push in the first half of a cycle, the negation of the mirrored push in the second), the step advances and wraps at maxSteps, and a finished cycle's forces are mirrored |
| Earthquake.ThreedEarthquakeController.ApplyEarthquakeForce | ui-ngx/src/app/modules/home/components/widget/threed-view-widget/threed/threed-managers/threed-earthquake-controller.ts:124-149 | no magnitude stops every body; otherwise the first half of a cycle pushes random forces, the second half pops their negations in reverse order, every body takes the force's horizontal part, and the step wraps to 0 after maxSteps with a mirrored cycle |
| Earthquake.ThreedEarthquakeController.NextForce | ui-ngx/src/app/modules/home/components/widget/threed-view-widget/threed/threed-managers/threed-earthquake-controller.ts:131-142 | with at least one step per cycle there is always a force: a random push while the step is in the first half of the cycle, otherwise the opposite of its mirror step; the step advances and wraps to 0 at the end of a cycle, and a completed cycle is mirrored (its second half undoes its first); the cycle invariant is kept |
| Earthquake.StepKeepsShape | ui-ngx/src/app/modules/home/components/widget/threed-view-widget/threed/threed-managers/threed-earthquake-controller.ts:132-143 | one step keeps the stack equal to the negated unpaired pushes of the cycle so far |
| Earthquake.MiddleCancels | ui-ngx/src/app/modules/home/components/widget/threed-view-widget/threed/threed-managers/threed-earthquake-controller.ts:132-138 | the pops undo the pushes around the cycle's middle, so their forces sum to zero |
| Earthquake.CycleNetForce | ui-ngx/src/app/modules/home/components/widget/threed-view-widget/threed/threed-managers/threed-earthquake-controller.ts:124-149 | a full cycle's forces sum to zero for an even max-steps count, and to the first force for an odd one |
| ProgressBar.NatToString | ui-ngx/src/app/modules/home/components/widget/threed-view-widget/threed/threed-components/threed-progress-bar-component.ts:45-47 | the decimal rendering of the id is non-empty, single-digit exactly for ids below ten, and made of digits only |
| ProgressBar.Digit | ui-ngx/src/app/modules/home/components/widget/threed-view-widget/threed/threed-components/threed-progress-bar-component.ts:45-47 | a digit below ten maps to the character whose code is `'0'` plus that digit |
| ProgressBar.NatToStringInjective | ui-ngx/src/app/modules/home/components/widget/threed-view-widget/threed/threed-components/threed-progress-bar-component.ts:45-47 | distinct ids render to distinct decimal strings |
| ProgressBar.IdsAreUnique | ui-ngx/src/app/modules/home/components/widget/threed-view-widget/threed/threed-components/threed-progress-bar-component.ts:44-47 | two bars built from different counter values never share a container id or an element id, and no container id equals an element id |
| ProgressBar.ProgressIdCounter.constructor | ui-ngx/src/app/modules/home/components/widget/threed-view-widget/threed/threed-components/threed-progress-bar-component.ts:25 | the shared id counter starts at 0 |
| ProgressBar.Hide | ui-ngx/src/app/modules/home/components/widget/threed-view-widget/threed/threed-components/threed-progress-bar-component.ts:83-88 | with a container the bar ends hidden; it changes display to "none" only when it was found and visible, otherwise nothing changes |
| ProgressBar.Show | ui-ngx/src/app/modules/home/components/widget/threed-view-widget/threed/threed-components/threed-progress-bar-component.ts:90-95 | with a container the bar ends visible; it changes display to "block" only when it was found and hidden, otherwise nothing changes |
| ProgressBar.Fetch | ui-ngx/src/app/modules/home/components/widget/threed-view-widget/threed/threed-components/threed-progress-bar-component.ts:97-102 | the lookup records whether container and element were found; the bar ends visible exactly when no container was found (set visible, then hide) |
| ProgressBar.HideShowIdempotent | ui-ngx/src/app/modules/home/components/widget/threed-view-widget/threed/threed-components/threed-progress-bar-component.ts:83-95 | hiding twice is hiding once and showing twice is showing once |
| ProgressBar.Update | ui-ngx/src/app/modules/home/components/widget/threed-view-widget/threed/threed-components/threed-progress-bar-component.ts:70-81 | with an element the width and aria-valuenow become progress*100 and a found container is visible exactly when progress*100 is below 100; without an element the lookup runs instead and the width is untouched |
| ProgressBar.ThreedProgressBarComponent.constructor | ui-ngx/src/app/modules/home/components/widget/threed-view-widget/threed/threed-components/threed-progress-bar-component.ts:23-32 | a new bar has empty ids, no container or element, and nothing inserted |
| ProgressBar.ThreedProgressBarComponent.Initialize | ui-ngx/src/app/modules/home/components/widget/threed-view-widget/threed/threed-components/threed-progress-bar-component.ts:34-47 | initialisation takes the next counter value for both ids, bumps the shared counter by one and keeps the container subscription |
| ProgressBar.ThreedProgressBarComponent.AttachHtmlToContainer | ui-ngx/src/app/modules/home/components/widget/threed-view-widget/threed/threed-components/threed-progress-bar-component.ts:62-68 | attaching inserts the markup once more and then performs the element lookup; the ids stay |
| ProgressBar.ThreedProgressBarComponent.UpdateProgress | ui-ngx/src/app/modules/home/components/widget/threed-view-widget/threed/threed-components/threed-progress-bar-component.ts:70-81 | the bar state becomes the update function of the old state; ids and the insert count stay |
| TransformController.RadToDeg | ui-ngx/src/app/modules/home/components/widget/threed-view-widget/threed/threed-components/threed-transform-controller-component.ts:123-128 | the inverse of degToRad: converting the result back to radians gives the input, and each component keeps its sign |
| TransformController.ChangeEvents | ui-ngx/src/app/modules/home/components/widget/threed-view-widget/threed/threed-components/threed-transform-controller-component.ts:131-136 | a position, rotation or scale event is emitted exactly when that vector differs from the last recorded one; nothing else is emitted |
| TransformController.ModeKey | ui-ngx/src/app/modules/home/components/widget/threed-view-widget/threed/threed-components/threed-transform-controller-component.ts:80-90 | KeyT, KeyR and KeyS, and only they, select translate, rotate and scale |
| TransformController.ThreedTransformControllerComponent.constructor | ui-ngx/src/app/modules/home/components/widget/threed-view-widget/threed/threed-components/threed-transform-controller-component.ts:42-53 | a new controller keeps the box-helper flag and orbit controller given, has no control yet, mode translate, and zero last vectors |
| TransformController.ThreedTransformControllerComponent.Initialize | ui-ngx/src/app/modules/home/components/widget/threed-view-widget/threed/threed-components/threed-transform-controller-component.ts:55-65 | without an orbit controller the first orbit component found is taken; a hidden control is added to the scene; the box helper is created, hidden, only when asked for and missing; the removal subscription is discarded, so the component's subscription list stays as it was |
| TransformController.ThreedTransformControllerComponent.InitializeController | ui-ngx/src/app/modules/home/components/widget/threed-view-widget/threed/threed-components/threed-transform-controller-component.ts:111-141 | new controls are added to the scene hidden and detached, one more each call |
| TransformController.ThreedTransformControllerComponent.InitializeBoxHelper | ui-ngx/src/app/modules/home/components/widget/threed-view-widget/threed/threed-components/threed-transform-controller-component.ts:143-149 | the box helper is made, hidden, only when it is asked for and missing; otherwise its state stays |
| TransformController.ThreedTransformControllerComponent.OnBeforeRemoveModel | ui-ngx/src/app/modules/home/components/widget/threed-view-widget/threed/threed-components/threed-transform-controller-component.ts:64 | removing a model detaches the control, which also hides it, and changes nothing else |
| TransformController.ThreedTransformControllerComponent.AttachTransformController | ui-ngx/src/app/modules/home/components/widget/threed-view-widget/threed/threed-components/threed-transform-controller-component.ts:151-171 | the attach event is always emitted; with a control the model is attached, the control (and box helper when asked for) is visible exactly when a model is given, and the last position, degree rotation and scale are taken from the model; without a control the call throws |
| TransformController.ThreedTransformControllerComponent.OnDraggingChanged | ui-ngx/src/app/modules/home/components/widget/threed-view-widget/threed/threed-components/threed-transform-controller-component.ts:113-138 | the orbit controller is enabled exactly when not dragging; at drag end the id, degree rotation and the change events of each moved vector are emitted and the last vectors updated; with nothing attached the handler throws after the dragging event |
| TransformController.ThreedTransformControllerComponent.OnKeyDown | ui-ngx/src/app/modules/home/components/widget/threed-view-widget/threed/threed-components/threed-transform-controller-component.ts:71-96 | Shift sets the 100 / 15 degree / 0.25 snaps, T/R/S pick the mode and Backquote resets, each only with a control; other keys change nothing |
| TransformController.ThreedTransformControllerComponent.OnKeyUp | ui-ngx/src/app/modules/home/components/widget/threed-view-widget/threed/threed-components/threed-transform-controller-component.ts:97-107 | Shift clears the snaps when there is a control; other keys change nothing |
| TransformController.ThreedTransformControllerComponent.ChangeTransformControllerMode | ui-ngx/src/app/modules/home/components/widget/threed-view-widget/threed/threed-components/threed-transform-controller-component.ts:173-175 | the mode becomes the one asked for when a control exists, else stays |
| TransformController.CompareAndUpdateAll | ui-ngx/src/app/modules/home/components/widget/threed-view-widget/threed/threed-components/threed-transform-controller-component.ts:131-136 | the three compare-and-update steps return exactly the change events and leave the last vectors equal to the new ones |
| TransformController.UnmovedDragReportsNothing | ui-ngx/src/app/modules/home/components/widget/threed-view-widget/threed/threed-components/threed-transform-controller-component.ts:113-171 | attaching a model and dragging it without moving emits only the attach and the two dragging events, no position, rotation or scale change |
| NavMesh.Ceil | ui-ngx/src/app/modules/home/components/widget/threed-view-widget/threed/threed-components/threed-nav-mesh-component.ts:71-72 | `Math.ceil`: the least integer not below the argument |
| NavMesh.Floor | ui-ngx/src/app/modules/home/components/widget/threed-view-widget/threed/threed-components/threed-nav-mesh-component.ts:143-144 | `Math.floor`: the greatest integer not above the argument |
| NavMesh.Clamp | ui-ngx/src/app/modules/home/components/widget/threed-view-widget/threed/threed-components/threed-nav-mesh-component.ts:143-144 | `clamp(v, lo, hi)` lies in [lo, hi] when that range is non-empty and is `v` itself inside it |
| NavMesh.GridCoordsAsWritten | ui-ngx/src/app/modules/home/components/widget/threed-view-widget/threed/threed-components/threed-nav-mesh-component.ts:135-147 | the cell as written: floor of position/cell plus half the floor size, clamped to [0, width] and [0, height], one past the last column and row |
| NavMesh.FarEdgeLeavesGrid | ui-ngx/src/app/modules/home/components/widget/threed-view-widget/threed/threed-components/threed-nav-mesh-component.ts:143-144 | a 1 m floor with 0.5 m cells has a 2x2 grid, and a point on its far edge maps to cell (2, 2), outside the grid |
| NavMesh.GridCoords | ui-ngx/src/app/modules/home/components/widget/threed-view-widget/threed/threed-components/threed-nav-mesh-component.ts:135-147 | the corrected cell lies inside a non-empty grid, and equals the raw floor cell whenever that is already inside |
| NavMesh.GridCoordsAgreeInside | ui-ngx/src/app/modules/home/components/widget/threed-view-widget/threed/threed-components/threed-nav-mesh-component.ts:143-144 | for points whose raw cell is inside the grid, the corrected and the as-written conversion agree |
| NavMesh.ObstacleRects | ui-ngx/src/app/modules/home/components/widget/threed-view-widget/threed/threed-components/threed-nav-mesh-component.ts:79-97 | corrected: every rigidbody tagged "obstacle" contributes the cell rectangle of its bounding box's corners, each rectangle inside a non-empty grid |
| NavMesh.ObstacleRectsFromObstacles | ui-ngx/src/app/modules/home/components/widget/threed-view-widget/threed/threed-components/threed-nav-mesh-component.ts:79-97 | every rectangle produced comes from some body tagged "obstacle" |
| NavMesh.Grid.constructor | ui-ngx/src/app/modules/home/components/widget/threed-view-widget/threed/threed-components/threed-nav-mesh-component.ts:70-73 | a new grid has the given width and height and every cell walkable |
| NavMesh.Grid.MarkUnwalkable | ui-ngx/src/app/modules/home/components/widget/threed-view-widget/threed/threed-components/threed-nav-mesh-component.ts:89-95 | the double loop makes exactly the cells of the rectangle unwalkable and leaves every other cell as it was |
| NavMesh.BuildGrid | ui-ngx/src/app/modules/home/components/widget/threed-view-widget/threed/threed-components/threed-nav-mesh-component.ts:69-99 | corrected: the built grid has the given size and a cell is walkable exactly when no obstacle rectangle covers it |
| NavMesh.LastFloor | ui-ngx/src/app/modules/home/components/widget/threed-view-widget/threed/threed-components/threed-nav-mesh-component.ts:54-57 | the traversal keeps the last node tagged "floor"; with none the previous floor stays |
| NavMesh.FindFloor | ui-ngx/src/app/modules/home/components/widget/threed-view-widget/threed/threed-components/threed-nav-mesh-component.ts:54-57 | the traversal loop returns the last floor node, as the function above states |
| NavMesh.ThreedNavMeshComponent.constructor | ui-ngx/src/app/modules/home/components/widget/threed-view-widget/threed/threed-components/threed-nav-mesh-component.ts:40-45 | the cell size defaults to 0.1; there is no floor, floor box or grid yet |
| NavMesh.ThreedNavMeshComponent.ComputeGrid | ui-ngx/src/app/modules/home/components/widget/threed-view-widget/threed/threed-components/threed-nav-mesh-component.ts:63-100 | corrected: with no floor box nothing is computed; otherwise a fresh grid of the floor's size, with exactly the obstacle cells blocked, becomes the grid and is returned |
| NavMesh.ThreedNavMeshComponent.CreateGrid | ui-ngx/src/app/modules/home/components/widget/threed-view-widget/threed/threed-components/threed-nav-mesh-component.ts:53-61 | the floor becomes the last floor-tagged node; with no floor at all the box construction throws, else the floor box is set and the grid computed |
| NavMesh.ThreedNavMeshComponent.Initialize | ui-ngx/src/app/modules/home/components/widget/threed-view-widget/threed/threed-components/threed-nav-mesh-component.ts:47-51 | initialisation creates the grid, failing exactly when no floor was found |
| NavMesh.ThreedNavMeshComponent.GetGrid | ui-ngx/src/app/modules/home/components/widget/threed-view-widget/threed/threed-components/threed-nav-mesh-component.ts:128-133 | an existing grid is returned as is unless an update is forced, in which case a fresh grid matching the geometry is returned; a grid returned is the one stored |
| NavMesh.ThreedNavMeshComponent.GetGridCoords | ui-ngx/src/app/modules/home/components/widget/threed-view-widget/threed/threed-components/threed-nav-mesh-component.ts:135-147 | corrected: there are coordinates exactly when there is a floor box, and they lie inside a non-empty grid |
| Person.Desk.constructor | ui-ngx/src/app/modules/home/components/widget/threed-view-widget/threed/threed-components/threed-person-component.ts:149-163 | a desk sensor starts unoccupied at its position |
| Person.SqDist | ui-ngx/src/app/modules/home/components/widget/threed-view-widget/threed/threed-components/threed-person-component.ts:129 | the squared distance is never negative |
| Person.SortByDistance | ui-ngx/src/app/modules/home/components/widget/threed-view-widget/threed/threed-components/threed-person-component.ts:152 | the array ends as `SortedDesks` of its old contents, the stable sort that `SortedDesksSorts` proves ordered by distance, a permutation, and order-keeping among equidistant desks |
| Person.ClaimNearest | ui-ngx/src/app/modules/home/components/widget/threed-view-widget/threed/threed-components/threed-person-component.ts:154-163 | the first free desk in order with a non-empty path is claimed and marked occupied; every desk before it was occupied or unreachable; no other desk changes |
| Person.StepTarget | ui-ngx/src/app/modules/home/components/widget/threed-view-widget/threed/threed-components/threed-person-component.ts:110 | a walking step targets the cell's position with its height set to 0 |
| Person.UnderDesk | ui-ngx/src/app/modules/home/components/widget/threed-view-widget/threed/threed-components/threed-person-component.ts:125-127 | the crawl target is the desk sensor's position lowered to height 0 |
| Person.ThreedPersonComponent.constructor | ui-ngx/src/app/modules/home/components/widget/threed-view-widget/threed/threed-components/threed-person-component.ts:40-59 | a new person is not alerted, has no path, desk or tween and plays only Idle |
| Person.ThreedPersonComponent.FindPathToDesk | ui-ngx/src/app/modules/home/components/widget/threed-view-widget/threed/threed-components/threed-person-component.ts:169-189 | the path found is stored with its working copy, and the result says whether it is non-empty |
| Person.ThreedPersonComponent.EarthquakeAlert | ui-ngx/src/app/modules/home/components/widget/threed-view-widget/threed/threed-components/threed-person-component.ts:149-166 | an alerted person or a magnitude up to 0.5 changes nothing; otherwise the desks end as `SortedDesks` of the old order (sorted by distance, a permutation, stable), the person is alerted, the claimed desk is the first in the sorted order that was free and has a non-empty path (every desk before it was occupied or unreachable, and with no claim every desk is), and no other desk changes occupancy |
| Person.ThreedPersonComponent.Alert | ui-ngx/src/app/modules/home/components/widget/threed-view-widget/threed/threed-components/threed-person-component.ts:152-165 | for a person not yet alerted: the desks end as `SortedDesks` of the old order (the stable sort by distance); the person is alerted; a claimed desk was free, is now occupied, has the cloned path as its non-empty path, and every desk sorted before it was occupied or unreachable; with no claim every desk was occupied or unreachable; no other desk changes occupancy; the path and its working copy are the last path looked up, or unchanged |
| Person.ThreedPersonComponent.WalkToDesk | ui-ngx/src/app/modules/home/components/widget/threed-view-widget/threed/threed-components/threed-person-component.ts:93-120 | without a path or desk, or once under the desk, nothing happens; an empty path stops every clip and lays the person down under the desk with only Laying playing; otherwise, unless Walking already plays, every clip stops and Walking plays, and, with no tween running, the first cell is taken off the path and becomes the next target |
| Person.ThreedPersonComponent.UpdatePositionUnderDesk | ui-ngx/src/app/modules/home/components/widget/threed-view-widget/threed/threed-components/threed-person-component.ts:122-139 | under the desk with no tween, a crawl to the desk spot starts when the person is more than 0.1 away, adding the Crawling clip to those playing; otherwise nothing changes |
| Person.ThreedPersonComponent.Tick | ui-ngx/src/app/modules/home/components/widget/threed-view-widget/threed/threed-components/threed-person-component.ts:86-91 | a tick's new path copy, tween, playing clips and under-desk flag are those of walking on (`Walked`) followed by settling under the desk (`Settled`); the path, desk, alert and position stay |
| Person.ThreedPersonComponent.CompleteTween | ui-ngx/src/app/modules/home/components/widget/threed-view-widget/threed/threed-components/threed-person-component.ts:115-118 | a finished tween puts the person on its target; a finished crawl clears the tween and stops only the Crawling clip, so Laying keeps playing; a finished walk steps on to the next cell or lies down when the path is used up |
| Person.ThreedPersonComponent.Reset | ui-ngx/src/app/modules/home/components/widget/threed-view-widget/threed/threed-components/threed-person-component.ts:61-76 | reset frees the claimed desk, clears the path, alert, desk and tween, moves the person, stops every clip and plays only Idle |
| Person.ThreedPersonComponent.Claim | ui-ngx/src/app/modules/home/components/widget/threed-view-widget/threed/threed-components/threed-person-component.ts:154-165 | on the desks as sorted, the claimed desk is the first free one with a non-empty path, every earlier desk was occupied or unreachable, the cloned path is the claimed desk's path, the array order is untouched and no other desk changes occupancy |
| Person.Insert | ui-ngx/src/app/modules/home/components/widget/threed-view-widget/threed/threed-components/threed-person-component.ts:152 | one insertion pass leaves the first i+1 desks as `Ins` of the first i and desk i, and the rest of the array untouched |
| Person.InsPlace | ui-ngx/src/app/modules/home/components/widget/threed-view-widget/threed/threed-components/threed-person-component.ts:152 | the pass puts the new desk right after the last desk that is not farther than it, so it passes only strictly farther desks |
| Person.InsMultiset | ui-ngx/src/app/modules/home/components/widget/threed-view-widget/threed/threed-components/threed-person-component.ts:152 | a pass adds exactly the inserted desk to the multiset |
| Person.InsSorted | ui-ngx/src/app/modules/home/components/widget/threed-view-widget/threed/threed-components/threed-person-component.ts:152 | a pass into a sorted list gives a sorted list |
| Person.InsAtDistance | ui-ngx/src/app/modules/home/components/widget/threed-view-widget/threed/threed-components/threed-person-component.ts:152 | a pass keeps the order of the desks at every distance and puts the new desk last among those at its own distance |
| Person.SortedDesksSorts | ui-ngx/src/app/modules/home/components/widget/threed-view-widget/threed/threed-components/threed-person-component.ts:152 | the sort orders desks by distance, keeps the multiset of desks, and keeps the input order of the desks at each distance (the sort is stable, as `Array.prototype.sort` is) |
| Person.SortedDesksSameDesks | ui-ngx/src/app/modules/home/components/widget/threed-view-widget/threed/threed-components/threed-person-component.ts:152 | the sorted desks are exactly the desks given |
| Person.EquidistantKeepOrder | ui-ngx/src/app/modules/home/components/widget/threed-view-widget/threed/threed-components/threed-person-component.ts:152 | two desks at the same distance keep the order they were given in, whichever it is |
| Person.TickOnTheWay | ui-ngx/src/app/modules/home/components/widget/threed-view-widget/threed/threed-components/threed-person-component.ts:86-91 | until the path is used up, the settling half of a tick changes nothing, and walking either keeps the path copy or drops its first cell |
| Person.TickReachesDesk | ui-ngx/src/app/modules/home/components/widget/threed-view-widget/threed/threed-components/threed-person-component.ts:93-139 | the tick that finds the path used up lays the person under the desk and, if it stands more than 0.1 from the spot under the desk, starts the crawl there in the same tick, with Laying and Crawling both playing; otherwise only Laying plays |
| Person.WalkWholePath | ui-ngx/src/app/modules/home/components/widget/threed-view-widget/threed/threed-components/threed-person-component.ts:93-120 | walking a non-empty path step by step ends lying under the desk on the last cell's target, with only Laying playing |
| Raycasters.FilterHits | ui-ngx/src/app/modules/home/components/widget/threed-view-widget/threed/threed-components/threed-abstract-raycaster-component.ts:129-137 | a hit is kept exactly when it is not a transform plane, box helper, grid helper, line or "Helper"-tagged object and is visible; the first kept hit is the first acceptable one |
| Raycasters.Target | ui-ngx/src/app/modules/home/components/widget/threed-view-widget/threed/threed-components/threed-abstract-raycaster-component.ts:75-84 | no hit selects nothing; in single mode the first hit's object is the target; in root mode the target is its nearest root-tagged ancestor, and nothing when there is none |
| Raycasters.ToggleNode | ui-ngx/src/app/modules/home/components/widget/threed-view-widget/threed/threed-components/threed-hightlight-raycaster-component.ts:67-78 | a non-mesh is untouched; enabling a mesh stores its material under "currentMaterial" and puts the hover material on; disabling restores the stored material |
| Raycasters.Toggle | ui-ngx/src/app/modules/home/components/widget/threed-view-widget/threed/threed-components/threed-hightlight-raycaster-component.ts:67-78 | the traversal keeps every node's id, kind and number of children |
| Raycasters.ToggleAt | ui-ngx/src/app/modules/home/components/widget/threed-view-widget/threed/threed-components/threed-hightlight-raycaster-component.ts:67-78 | toggling the object with a given id keeps the scene root's id and kind |
| Raycasters.SaveNode | ui-ngx/src/app/modules/home/components/widget/threed-view-widget/threed/threed-components/threed-hightlight-raycaster-component.ts:71 | saving the current material keeps the material, kind, id and children, and leaves non-meshes alone |
| Raycasters.ToggleRoundTrip | ui-ngx/src/app/modules/home/components/widget/threed-view-widget/threed/threed-components/threed-hightlight-raycaster-component.ts:67-78 | highlighting and then un-highlighting a subtree restores every mesh's material, leaving only the saved "currentMaterial" entry behind |
| Raycasters.ToggleAtRoundTrip | ui-ngx/src/app/modules/home/components/widget/threed-view-widget/threed/threed-components/threed-hightlight-raycaster-component.ts:59-65 | selecting and then deselecting an object in the scene restores its materials the same way |
| Raycasters.SetLayer | ui-ngx/src/app/modules/home/components/widget/threed-view-widget/threed/threed-components/threed-hightlight-tooltip-raycaster-component.ts:53 | writing the label layer into the user data of the object with the given id keeps the scene's id, kind and material |
| Raycasters.EnableTooltip | ui-ngx/src/app/modules/home/components/widget/threed-view-widget/threed/threed-components/threed-hightlight-tooltip-raycaster-component.ts:42-55 | enabling throws exactly when the object has no root ancestor; when the root's custom id has a label, the camera gains exactly that label's layer and the object records it in `userData.layer`; otherwise scene and camera stay as they were |
| Raycasters.DisableTooltip | ui-ngx/src/app/modules/home/components/widget/threed-view-widget/threed/threed-components/threed-hightlight-tooltip-raycaster-component.ts:57-63 | disabling hides the layer recorded on the object when it is at least the first label layer 5, and changes nothing when no number is recorded or it is below 5 |
| Raycasters.OnDeselectHook | ui-ngx/src/app/modules/home/components/widget/threed-view-widget/threed/threed-components/threed-hightlight-tooltip-raycaster-component.ts:36-40 | the deselect hook keeps the selection and events, and touches the camera layers only with tooltips |
| Raycasters.OnSelectHook | ui-ngx/src/app/modules/home/components/widget/threed-view-widget/threed/threed-components/threed-hightlight-tooltip-raycaster-component.ts:30-34 | the select hook keeps the selection and events, can throw only with tooltips, and without tooltips only highlights |
| Raycasters.Deselect | ui-ngx/src/app/modules/home/components/widget/threed-view-widget/threed/threed-components/threed-abstract-raycaster-component.ts:108-114 | the selection is cleared; with a selection the deselected event is emitted, without one nothing changes |
| Raycasters.Select | ui-ngx/src/app/modules/home/components/widget/threed-view-widget/threed/threed-components/threed-abstract-raycaster-component.ts:93-106 | no target deselects; the same target changes nothing; a new target first deselects, then is selected with its event only when `canSelectObject` accepts it |
| Raycasters.ErrorOf | ui-ngx/src/app/modules/home/components/widget/threed-view-widget/threed/threed-components/threed-abstract-raycaster-component.ts:66-87 | the update fails exactly when a hook threw |
| Raycasters.SelectIsIdempotent | ui-ngx/src/app/modules/home/components/widget/threed-view-widget/threed/threed-components/threed-abstract-raycaster-component.ts:93-106 | selecting the same target a second time changes nothing |
| Raycasters.HighlightRoundTrip | ui-ngx/src/app/modules/home/components/widget/threed-view-widget/threed/threed-components/threed-abstract-raycaster-component.ts:93-114 | without tooltips, from no selection, selecting and deselecting an object restores the scene's materials and the camera layers and emits one selected and one deselected event |
| Raycasters.TooltipRoundTrip | ui-ngx/src/app/modules/home/components/widget/threed-view-widget/threed/threed-components/threed-hightlight-tooltip-raycaster-component.ts:30-63 | with tooltips, from no selection and with a root ancestor, selecting and deselecting cannot throw, restores the materials, emits both events and hides the label layer it showed (which stays recorded on the object); without a label, deselecting hides whatever layer the object had recorded before |
| Raycasters.TooltipSelectThenDeselect | ui-ngx/src/app/modules/home/components/widget/threed-view-widget/threed/threed-components/threed-hightlight-tooltip-raycaster-component.ts:30-63 | with tooltips and a root ancestor, selecting from no selection cannot throw, and selecting then deselecting highlights and shows the label, then unhighlights, hides the recorded layer and logs both events |
| Raycasters.Cast | ui-ngx/src/app/modules/home/components/widget/threed-view-widget/threed/threed-components/threed-abstract-raycaster-component.ts:71-84 | a cast with no acceptable hit deselects; only the tooltip hook can make it throw, and then with the target selected |
| Raycasters.SceneView.constructor | ui-ngx/src/app/modules/home/components/widget/threed-view-widget/threed/threed-components/threed-abstract-raycaster-component.ts:121-127 | the scene view starts with the given scene and labels, no camera layers and the mouse at the origin |
| Raycasters.HighlightRaycaster.constructor | ui-ngx/src/app/modules/home/components/widget/threed-view-widget/threed/threed-components/threed-abstract-raycaster-component.ts:28-46 | a new raycaster is enabled, has hover index 0, no selection, no events and no hover material |
| Raycasters.HighlightRaycaster.OriginCoords | ui-ngx/src/app/modules/home/components/widget/threed-view-widget/threed/threed-components/threed-hightlight-raycaster-component.ts:55-57 | the ray starts at the fixed origin when one is given, else at the mouse |
| Raycasters.HighlightRaycaster.SetHoveringColor | ui-ngx/src/app/modules/home/components/widget/threed-view-widget/threed/threed-components/threed-hightlight-raycaster-component.ts:43-53 | the colour defaults to "rgba(0,0,255,0.5)"; an empty colour changes nothing, any other builds a new hover material |
| Raycasters.HighlightRaycaster.Initialize | ui-ngx/src/app/modules/home/components/widget/threed-view-widget/threed/threed-components/threed-hightlight-raycaster-component.ts:37-41 | initialisation sets the default hover colour and material and keeps the selection |
| Raycasters.HighlightRaycaster.UpdateRaycaster | ui-ngx/src/app/modules/home/components/widget/threed-view-widget/threed/threed-components/threed-abstract-raycaster-component.ts:66-87 | an uninitialised or disabled raycaster returns false and changes nothing; otherwise the kept hits are stored, the ray origin recorded and the selection state becomes the cast of the hits |
| Raycasters.HighlightRaycaster.OnMouseMove | ui-ngx/src/app/modules/home/components/widget/threed-view-widget/threed/threed-components/threed-abstract-raycaster-component.ts:56-60 | in hover mode every move bumps the index and every other move casts; in click mode nothing happens |
| Raycasters.HighlightRaycaster.OnMouseClick | ui-ngx/src/app/modules/home/components/widget/threed-view-widget/threed/threed-components/threed-abstract-raycaster-component.ts:61-64 | a click casts in click mode and changes nothing in hover mode |
| Raycasters.HighlightRaycaster.DeselectObject | ui-ngx/src/app/modules/home/components/widget/threed-view-widget/threed/threed-components/threed-abstract-raycaster-component.ts:108-114 | the public deselect applies the deselect function to the state |
| Raycasters.FilterPlainHits | ui-ngx/src/app/modules/home/components/widget/threed-view-widget/threed/threed-components/threed-raycaster-component.ts:78-84 | the plain raycaster keeps a hit exactly when it is not a transform plane, box helper, grid helper or "Helper"-tagged object |
| Raycasters.PlainRaycaster.constructor | ui-ngx/src/app/modules/home/components/widget/threed-view-widget/threed/threed-components/threed-raycaster-component.ts:35-38 | a new plain raycaster has the given mode and no selection or hover material |
| Raycasters.PlainRaycaster.Initialize | ui-ngx/src/app/modules/home/components/widget/threed-view-widget/threed/threed-components/threed-raycaster-component.ts:40-45 | initialisation sets the default hover colour and material |
| Raycasters.PlainRaycaster.UpdateRaycaster | ui-ngx/src/app/modules/home/components/widget/threed-view-widget/threed/threed-components/threed-raycaster-component.ts:74-96 | before initialisation nothing happens; otherwise the root of the first kept hit is selected as by the shared select function, without tooltips |
| Raycasters.PlainRaycaster.OnPointerEvent | ui-ngx/src/app/modules/home/components/widget/threed-view-widget/threed/threed-components/threed-raycaster-component.ts:49-56 | only the pointer event matching the configured mode casts |
| Css2dRaycasting.IntersectHtmlIsClosedArea | ui-ngx/src/app/modules/home/components/widget/threed-view-widget/threed/threed-extensions/css2d-raycaster.ts:48-56 | an all-zero rectangle is never hit, even by a centre at (0,0) inside it; otherwise the centre hits exactly when it lies in the closed rectangle, corners included |
| Css2dRaycasting.HitsInExactly | ui-ngx/src/app/modules/home/components/widget/threed-view-widget/threed/threed-extensions/css2d-raycaster.ts:36-41 | a label's hits are exactly the selected elements the centre hits, in their order |
| Css2dRaycasting.AllHitsExactly | ui-ngx/src/app/modules/home/components/widget/threed-view-widget/threed/threed-extensions/css2d-raycaster.ts:60-66 | the hits over several objects are exactly the hits of the labels among them |
| Css2dRaycasting.OnlyLabelsHit | ui-ngx/src/app/modules/home/components/widget/threed-view-widget/threed/threed-extensions/css2d-raycaster.ts:43-45 | objects that are not labels give no hits |
| Css2dRaycasting.Css2dRaycaster.constructor | ui-ngx/src/app/modules/home/components/widget/threed-view-widget/threed/threed-extensions/css2d-raycaster.ts:23-24 | the cached centre starts at (0,0) |
| Css2dRaycasting.Css2dRaycaster.IntersectObject | ui-ngx/src/app/modules/home/components/widget/threed-view-widget/threed/threed-extensions/css2d-raycaster.ts:27-46 | the loop returns exactly the object's hits; only a label caches the centre |
| Css2dRaycasting.Css2dRaycaster.IntersectObjects | ui-ngx/src/app/modules/home/components/widget/threed-view-widget/threed/threed-extensions/css2d-raycaster.ts:60-66 | the loop returns the concatenated hits; the centre is cached exactly when a label was among the objects |
| GroupGameObject.PhysicNodes | ui-ngx/src/app/modules/home/components/widget/threed-view-widget/threed/threed-components/threed-group-gameobject-component.ts:38-39 | only nodes with a truthy physic shape get a body, drawn from the traversal |
| GroupGameObject.PhysicNodesPrefix | ui-ngx/src/app/modules/home/components/widget/threed-view-widget/threed/threed-components/threed-group-gameobject-component.ts:38-39 | the physic nodes of a longer prefix extend those of the shorter one by the next node when it has a shape |
| GroupGameObject.IdsWithTagSnoc | ui-ngx/src/app/modules/home/components/widget/threed-view-widget/threed/threed-components/threed-group-gameobject-component.ts:56-69 | appending a node to the list of a lock tag adds its body id exactly when it carries that tag |
| GroupGameObject.BodiesSnoc | ui-ngx/src/app/modules/home/components/widget/threed-view-widget/threed/threed-components/threed-group-gameobject-component.ts:84-88 | each new physic node appends one rigid body and registers its game object then its rigid body |
| GroupGameObject.Locks | ui-ngx/src/app/modules/home/components/widget/threed-view-widget/threed/threed-components/threed-group-gameobject-component.ts:63-65 | one lock constraint from the new body to each earlier body with the tag, in order |
| GroupGameObject.Bodies | ui-ngx/src/app/modules/home/components/widget/threed-view-widget/threed/threed-components/threed-group-gameobject-component.ts:38-90 | one rigid body per physic node |
| GroupGameObject.IdsWithTagMembers | ui-ngx/src/app/modules/home/components/widget/threed-view-widget/threed/threed-components/threed-group-gameobject-component.ts:59-68 | a body id is listed under a tag exactly when it is one of these bodies and its node carries that tag |
| GroupGameObject.IdsWithTagIncreasing | ui-ngx/src/app/modules/home/components/widget/threed-view-widget/threed/threed-components/threed-group-gameobject-component.ts:67 | the ids under a tag are in increasing order of creation |
| GroupGameObject.BodyJoints | ui-ngx/src/app/modules/home/components/widget/threed-view-widget/threed/threed-components/threed-group-gameobject-component.ts:56-69 | an untagged body has no joints; a tagged body is locked from itself to exactly the earlier bodies with the same tag, in increasing order |
| GroupGameObject.LocksMembers | ui-ngx/src/app/modules/home/components/widget/threed-view-widget/threed/threed-components/threed-group-gameobject-component.ts:56-69 | a lock to a body is among the locks built from earlier bodies exactly when that body is among them |
| GroupGameObject.JointsTargets | ui-ngx/src/app/modules/home/components/widget/threed-view-widget/threed/threed-components/threed-group-gameobject-component.ts:56-69 | a tagged body is locked to an earlier body of the walk exactly when that body has the same tag |
| GroupGameObject.JointsOrdered | ui-ngx/src/app/modules/home/components/widget/threed-view-widget/threed/threed-components/threed-group-gameobject-component.ts:56-69 | a tagged body's locks go to earlier bodies in increasing order |
| GroupGameObject.ThreedGroupGameObjectComponent.constructor | ui-ngx/src/app/modules/home/components/widget/threed-view-widget/threed/threed-components/threed-group-gameobject-component.ts:26-31 | a new group has its mesh and no game objects, bodies or registrations |
| GroupGameObject.ThreedGroupGameObjectComponent.Initialize | ui-ngx/src/app/modules/home/components/widget/threed-view-widget/threed/threed-components/threed-group-gameobject-component.ts:33-91 | initialisation appends exactly one game object and one rigid body (numbered after the existing ones) per physic node, and registers both with the scene manager |
| GroupGameObject.GameObjects | ui-ngx/src/app/modules/home/components/widget/threed-view-widget/threed/threed-components/threed-group-gameobject-component.ts:45 | one game object per physic node, carrying its id |
| GroupGameObject.BodiesNumbered | ui-ngx/src/app/modules/home/components/widget/threed-view-widget/threed/threed-components/threed-group-gameobject-component.ts:38-90 | the k-th body is built from the k-th physic node and numbered first + k |
| GroupGameObject.BuildBodies | ui-ngx/src/app/modules/home/components/widget/threed-view-widget/threed/threed-components/threed-group-gameobject-component.ts:38-90 | the traversal loop yields exactly the bodies, game objects and registrations the functions describe |
| GroupGameObject.WalkStep | ui-ngx/src/app/modules/home/components/widget/threed-view-widget/threed/threed-components/threed-group-gameobject-component.ts:40-89 | one node of the walk: afterwards the built bodies, game objects, registrations and tag map are those of the walk one node longer |
| GroupGameObject.RecordMatches | ui-ngx/src/app/modules/home/components/widget/threed-view-widget/threed/threed-components/threed-group-gameobject-component.ts:67-68 | recording a body under its tag keeps the tag map equal to the ids with each tag |
| GroupGameObject.AddBody | ui-ngx/src/app/modules/home/components/widget/threed-view-widget/threed/threed-components/threed-group-gameobject-component.ts:40-89 | one loop step extends the bodies, game objects, registrations and tag map by the next node |
| UpdateDevices.LastFor | ui-ngx/src/app/modules/home/components/widget/threed-view-widget/threed/threed-components/updatable/threed-update-devices-component.ts:30-37 | the object that decides a model's transform is one with that entity id, and there is none exactly when no object names the id |
| UpdateDevices.ApplyObjectsEffect | ui-ngx/src/app/modules/home/components/widget/threed-view-widget/threed/threed-components/updatable/threed-update-devices-component.ts:30-37 | applying the objects keeps the set of models; a model no object names is unchanged; otherwise it takes the last naming object's position, rotation in radians and scale and keeps its id, children and user data |
| UpdateDevices.ApplyObjectsAppend | ui-ngx/src/app/modules/home/components/widget/threed-view-widget/threed/threed-components/updatable/threed-update-devices-component.ts:30-37 | applying two lists in turn equals applying their concatenation |
| UpdateDevices.ThreedUpdateDevicesComponent.constructor | ui-ngx/src/app/modules/home/components/widget/threed-view-widget/threed/threed-components/updatable/threed-update-devices-component.ts:21 | the component works on the scene's model manager |
| UpdateDevices.ThreedUpdateDevicesComponent.UpdateGroupObjects | ui-ngx/src/app/modules/home/components/widget/threed-view-widget/threed/threed-components/updatable/threed-update-devices-component.ts:30-37 | the nested loops leave the registry equal to the objects applied in order, and nothing else in the manager changes |
| UpdateDevices.ThreedUpdateDevicesComponent.OnUpdateValues | ui-ngx/src/app/modules/home/components/widget/threed-view-widget/threed/threed-components/updatable/threed-update-devices-component.ts:23-38 | missing values or groups change nothing; otherwise every object of every group is applied in order |
| VrUi.Resolve | ui-ngx/src/app/modules/home/components/widget/threed-view-widget/threed/threed-extensions/vr-ui.ts:29-32 | each option falls back to its default (5, black, 0.5, 2) when missing or zero, so no resolved margin, opacity or text size is zero |
| VrUi.ResolveIdempotent | ui-ngx/src/app/modules/home/components/widget/threed-view-widget/threed/threed-extensions/vr-ui.ts:21-32 | resolving resolved options changes nothing, and the default object resolves to itself |
| VrUi.BrHasOneOpening | ui-ngx/src/app/modules/home/components/widget/threed-view-widget/threed/threed-extensions/vr-ui.ts:34 | a line break tag contains '<' only at its start |
| VrUi.SkipSpaces | ui-ngx/src/app/modules/home/components/widget/threed-view-widget/threed/threed-extensions/vr-ui.ts:34 | the `\s*` part of the break pattern skips exactly the maximal run of spaces |
| VrUi.BrAt | ui-ngx/src/app/modules/home/components/widget/threed-view-widget/threed/threed-extensions/vr-ui.ts:34 | a match found at a position is a break tag (`<br>`, `<br/>`, `<br />`, any case) |
| VrUi.BrAtFinds | ui-ngx/src/app/modules/home/components/widget/threed-view-widget/threed/threed-extensions/vr-ui.ts:34 | a break tag at a position is found there with its length |
| VrUi.Lines | ui-ngx/src/app/modules/home/components/widget/threed-view-widget/threed/threed-extensions/vr-ui.ts:34 | splitting yields at least one line |
| VrUi.LinesAreBrFree | ui-ngx/src/app/modules/home/components/widget/threed-view-widget/threed/threed-extensions/vr-ui.ts:34 | the first line is a prefix of the input and no line contains a break tag |
| VrUi.LinesPrepend | ui-ngx/src/app/modules/home/components/widget/threed-view-widget/threed/threed-extensions/vr-ui.ts:34 | break-free text in front of the input extends only the first line |
| VrUi.LinesAfterBreak | ui-ngx/src/app/modules/home/components/widget/threed-view-widget/threed/threed-extensions/vr-ui.ts:34 | a leading `<br>` yields an empty first line |
| VrUi.LinesJoin | ui-ngx/src/app/modules/home/components/widget/threed-view-widget/threed/threed-extensions/vr-ui.ts:34 | splitting lines joined with `<br>` gives those lines back |
| VrUi.OneLine | ui-ngx/src/app/modules/home/components/widget/threed-view-widget/threed/threed-extensions/vr-ui.ts:34 | text with no break tag is one line |
| VrUi.FirstIndexOf | ui-ngx/src/app/modules/home/components/widget/threed-view-widget/threed/threed-extensions/vr-ui.ts:37 | the index of the first occurrence of a character |
| VrUi.StripTags | ui-ngx/src/app/modules/home/components/widget/threed-view-widget/threed/threed-extensions/vr-ui.ts:37-48 | removing `<...>` tags leaves a tag-free text made of characters of the input and no longer than it |
| VrUi.StripTagsKeepsTagFree | ui-ngx/src/app/modules/home/components/widget/threed-view-widget/threed/threed-extensions/vr-ui.ts:37-48 | tag-free text is unchanged |
| VrUi.StripTagsIdempotent | ui-ngx/src/app/modules/home/components/widget/threed-view-widget/threed/threed-extensions/vr-ui.ts:37-48 | stripping twice equals stripping once |
| VrUi.LinesDescend | ui-ngx/src/app/modules/home/components/widget/threed-view-widget/threed/threed-extensions/vr-ui.ts:53 | a later line sits lower than an earlier one |
| VrUi.LineElements | ui-ngx/src/app/modules/home/components/widget/threed-view-widget/threed/threed-extensions/vr-ui.ts:38-56 | one element per line |
| VrUi.LineElementsLayout | ui-ngx/src/app/modules/home/components/widget/threed-view-widget/threed/threed-extensions/vr-ui.ts:38-56 | each line becomes a root-tagged, tag-free element at height (count - index) * textSize, a link element from its anchor's text when the line has an anchor, and the lines go down the panel in order |
| VrUi.Panel | ui-ngx/src/app/modules/home/components/widget/threed-view-widget/threed/threed-extensions/vr-ui.ts:58-79 | the panel has one text element per line of the HTML and then the background, last |
| VrUi.BuildLineElements | ui-ngx/src/app/modules/home/components/widget/threed-view-widget/threed/threed-extensions/vr-ui.ts:38-56 | the loop over the lines builds exactly the line elements, one per line in order |
| VrUi.PanelLayout | ui-ngx/src/app/modules/home/components/widget/threed-view-widget/threed/threed-extensions/vr-ui.ts:58-79 | the panel holds the line elements then one background sized by the box plus margin, in the resolved colour and opacity, transparent exactly when opacity is below 1, drawn first |
| VrUi.PanelGroup.constructor | ui-ngx/src/app/modules/home/components/widget/threed-view-widget/threed/threed-extensions/vr-ui.ts:36 | a new group is empty |
| VrUi.CreatePanelFromHtml | ui-ngx/src/app/modules/home/components/widget/threed-view-widget/threed/threed-extensions/vr-ui.ts:14-88 | the method builds a fresh group holding exactly the panel's children, render order 2, carrying the html |
| AbstractScene.RemoveUuid | ui-ngx/src/app/modules/home/components/widget/threed-view-widget/threed-abstract-scene.ts:231-232 | detaching a root keeps exactly the children with another id |
| AbstractScene.AddChild | ui-ngx/src/app/modules/home/components/widget/threed-view-widget/threed-abstract-scene.ts:217 | adding a node to the scene makes it the last child and drops any earlier child with its id, as three.js re-parents |
| AbstractScene.RemoveUuidDistinct | ui-ngx/src/app/modules/home/components/widget/threed-view-widget/threed-abstract-scene.ts:231-232 | removing an id keeps the children's ids distinct and leaves none with that id |
| AbstractScene.AddChildDistinct | ui-ngx/src/app/modules/home/components/widget/threed-view-widget/threed-abstract-scene.ts:217 | adding a child keeps the children's ids distinct |
| AbstractScene.FilterLeafMeshes | ui-ngx/src/app/modules/home/components/widget/threed-view-widget/threed-abstract-scene.ts:255-263 | the kept nodes are exactly the childless nodes of type "Mesh" |
| AbstractScene.FilterLeafMeshesAppend | ui-ngx/src/app/modules/home/components/widget/threed-view-widget/threed-abstract-scene.ts:250-264 | filtering distributes over concatenation |
| AbstractScene.ChildLeafMeshIdsAreTraversalLeaves | ui-ngx/src/app/modules/home/components/widget/threed-view-widget/threed-abstract-scene.ts:247-265 | the objects listed under one child are the childless meshes of its depth-first traversal, in order |
| AbstractScene.LeafMeshIdsAreTraversalLeaves | ui-ngx/src/app/modules/home/components/widget/threed-view-widget/threed-abstract-scene.ts:242-265 | the scene object list holds exactly the childless "Mesh" nodes, depth first and left to right; a mesh with children is not listed |
| AbstractScene.LooseEquals | ui-ngx/src/app/modules/home/components/widget/threed-view-widget/threed-abstract-scene.ts:268 | the tag comparison is reflexive, a string matches only a string, an object handle only a handle, and `undefined`/`null` only each other |
| AbstractScene.GetParentByChild | ui-ngx/src/app/modules/home/components/widget/threed-view-widget/threed-abstract-scene.ts:267-271 | a node found is on the chain and its tag matches the value; when the node itself matches, it is the answer |
| AbstractScene.GetParentByChildIsNearest | ui-ngx/src/app/modules/home/components/widget/threed-view-widget/threed-abstract-scene.ts:267-271 | the lookup answers nothing exactly when no node on the ancestor-or-self chain has the loosely equal tag value, and otherwise the nearest such node |
| AbstractScene.GetParentByChildNone | ui-ngx/src/app/modules/home/components/widget/threed-view-widget/threed-abstract-scene.ts:267-271 | the lookup finds nothing exactly when no node of the chain has the tag's value |
| AbstractScene.GetParentByChildIndex | ui-ngx/src/app/modules/home/components/widget/threed-view-widget/threed-abstract-scene.ts:267-271 | the node found sits at an index of the chain, matches, and no node below it matches |
| AbstractScene.SettingsApplied | ui-ngx/src/app/modules/home/components/widget/threed-view-widget/threed-abstract-scene.ts:286-294 | applying settings changes nothing with no models or no settings, and otherwise runs the subclass hook once, keeping models, children and objects |
| AbstractScene.RootsDistinct | ui-ngx/src/app/modules/home/components/widget/threed-view-widget/threed-abstract-scene.ts:192-199 | two models under different ids have different roots |
| AbstractScene.StampedCarriesId | ui-ngx/src/app/modules/home/components/widget/threed-view-widget/threed-abstract-scene.ts:195-198 | the model and its root both carry the custom id and the root tag, and the root keeps its uuid |
| AbstractScene.AddedRegisters | ui-ngx/src/app/modules/home/components/widget/threed-view-widget/threed-abstract-scene.ts:192-223 | adding keys the model by configs.id or the root uuid, stamps it, makes its root the last child, keeps every other model and recomputes the object list |
| AbstractScene.AddedShape | ui-ngx/src/app/modules/home/components/widget/threed-view-widget/threed-abstract-scene.ts:192-223 | adding registers the stamped model under its id, changes no other entry, makes its root the last child and recollects the objects |
| AbstractScene.AddedKeepsInv | ui-ngx/src/app/modules/home/components/widget/threed-view-widget/threed-abstract-scene.ts:192-223 | registering a stamped model whose root uuid no other model uses, and adding the root, keeps the scene invariant |
| AbstractScene.RemovedForgets | ui-ngx/src/app/modules/home/components/widget/threed-view-widget/threed-abstract-scene.ts:225-238 | removing an unknown id changes nothing; otherwise the entry is deleted, its root detached, the hook called, and the objects recomputed when asked |
| AbstractScene.ReplacedKeepsOneEntry | ui-ngx/src/app/modules/home/components/widget/threed-view-widget/threed-abstract-scene.ts:187-190 | replacing leaves exactly one entry under the id, the new stamped model, and keeps all other models |
| AbstractScene.ReplacedShape | ui-ngx/src/app/modules/home/components/widget/threed-view-widget/threed-abstract-scene.ts:187-190 | when removal does not throw, replacing is adding to the state without the old entry, so the other entries are kept |
| AbstractScene.TransformChild | ui-ngx/src/app/modules/home/components/widget/threed-view-widget/threed-abstract-scene.ts:353-355 | exactly the child with the model's root id receives the transforms |
| AbstractScene.Transform | ui-ngx/src/app/modules/home/components/widget/threed-view-widget/threed-abstract-scene.ts:339-356 | a transform keeps the model ids, the number of children, the objects and the counters |
| AbstractScene.TransformKeepsScene | ui-ngx/src/app/modules/home/components/widget/threed-view-widget/threed-abstract-scene.ts:339-356 | a transform of an unknown id changes nothing; otherwise only the model's root takes the given position, rotation in radians and scale, and the scene invariant holds |
| AbstractScene.TransformShape | ui-ngx/src/app/modules/home/components/widget/threed-view-widget/threed-abstract-scene.ts:339-356 | an unknown id changes nothing; otherwise only that model's root is transformed, in the registry and among the children, and every child keeps its uuid and subtree |
| AbstractScene.TransformKeepsInv | ui-ngx/src/app/modules/home/components/widget/threed-view-widget/threed-abstract-scene.ts:339-356 | transforming a registered model's root keeps the scene invariant |
| AbstractScene.TransformKeepsStamps | ui-ngx/src/app/modules/home/components/widget/threed-view-widget/threed-abstract-scene.ts:339-356 | a transform keeps every model's id and root tags |
| AbstractScene.TransformChildDistinct | ui-ngx/src/app/modules/home/components/widget/threed-view-widget/threed-abstract-scene.ts:339-356 | a transform keeps the children's uuids distinct |
| AbstractScene.TransformKeepsRoots | ui-ngx/src/app/modules/home/components/widget/threed-view-widget/threed-abstract-scene.ts:339-356 | after a transform every model's root is still among the scene's children |
| AbstractScene.TransformAllAppend | ui-ngx/src/app/modules/home/components/widget/threed-view-widget/threed-abstract-scene.ts:329-336 | applying two lists of objects in turn equals applying their concatenation |
| AbstractScene.TransformAllKeepsScene | ui-ngx/src/app/modules/home/components/widget/threed-view-widget/threed-abstract-scene.ts:325-337 | applying device objects keeps the invariant, the model ids and the object list |
| AbstractScene.SceneSettingsKeepScene | ui-ngx/src/app/modules/home/components/widget/threed-view-widget/threed-scene-editor.ts:252-256 | applying environment, camera and device settings keeps the invariant, the model ids and the object list |
| AbstractScene.LensAfter | ui-ngx/src/app/modules/home/components/widget/threed-view-widget/threed-abstract-scene.ts:316-321 | far, near and fov take the setting when it is non-zero and keep the camera's value otherwise |
| AbstractScene.CameraAfter | ui-ngx/src/app/modules/home/components/widget/threed-view-widget/threed-abstract-scene.ts:310-322 | the camera takes the initial position and the rotation in radians; only a perspective camera takes the lens fallbacks |
| AbstractScene.CameraAfterIdempotent | ui-ngx/src/app/modules/home/components/widget/threed-view-widget/threed-abstract-scene.ts:305-323 | applying the camera settings twice equals applying them once |
| AbstractScene.ThreedAbstractScene.constructor | ui-ngx/src/app/modules/home/components/widget/threed-view-widget/threed-abstract-scene.ts:69-95 | a new scene holds the grid only when asked, the shadow light and plane only when asked, and the ambient light; no models, objects or settings |
| AbstractScene.ThreedAbstractScene.AttachToElement | ui-ngx/src/app/modules/home/components/widget/threed-view-widget/threed-abstract-scene.ts:132-139 | attaching twice throws "Renderer already attached to element!"; otherwise the container is recorded and the canvas appended |
| AbstractScene.ThreedAbstractScene.ListChildren | ui-ngx/src/app/modules/home/components/widget/threed-view-widget/threed-abstract-scene.ts:247-265 | the recursive loop appends exactly the ids of the childless meshes below the children |
| AbstractScene.ThreedAbstractScene.RecalculateSceneObjects | ui-ngx/src/app/modules/home/components/widget/threed-view-widget/threed-abstract-scene.ts:242-245 | the object list becomes the childless meshes of the scene |
| AbstractScene.ThreedAbstractScene.SetValues | ui-ngx/src/app/modules/home/components/widget/threed-view-widget/threed-abstract-scene.ts:286-294 | the state becomes the settings-applied state |
| AbstractScene.ThreedAbstractScene.UpdateValue | ui-ngx/src/app/modules/home/components/widget/threed-view-widget/threed-abstract-scene.ts:280-284 | the settings are stored and then applied |
| AbstractScene.ThreedAbstractScene.AddModel | ui-ngx/src/app/modules/home/components/widget/threed-view-widget/threed-abstract-scene.ts:192-223 | the state becomes the added state |
| AbstractScene.ThreedAbstractScene.RemoveModel | ui-ngx/src/app/modules/home/components/widget/threed-view-widget/threed-abstract-scene.ts:225-238 | the state and error become the removed outcome |
| AbstractScene.ThreedAbstractScene.ReplaceModel | ui-ngx/src/app/modules/home/components/widget/threed-view-widget/threed-abstract-scene.ts:187-190 | the state and error become the replaced outcome |
| AbstractScene.ThreedAbstractScene.UpdateModelTransforms | ui-ngx/src/app/modules/home/components/widget/threed-view-widget/threed-abstract-scene.ts:339-356 | the state becomes the transformed state |
| AbstractScene.ThreedAbstractScene.SetEnvironmentValues | ui-ngx/src/app/modules/home/components/widget/threed-view-widget/threed-abstract-scene.ts:298-303 | missing environment object settings change nothing; otherwise the environment model is transformed |
| AbstractScene.ThreedAbstractScene.SetCameraValues | ui-ngx/src/app/modules/home/components/widget/threed-view-widget/threed-abstract-scene.ts:305-323 | missing settings change nothing; otherwise the camera model is transformed and a given camera takes position, rotation and lens fallbacks |
| AbstractScene.ThreedAbstractScene.SetGroupObjects | ui-ngx/src/app/modules/home/components/widget/threed-view-widget/threed-abstract-scene.ts:331-335 | the inner loop applies one group's objects in order |
| AbstractScene.ThreedAbstractScene.SetDevicesValues | ui-ngx/src/app/modules/home/components/widget/threed-view-widget/threed-abstract-scene.ts:325-337 | the nested loops apply every object of every group in order; unknown ids are ignored |
| AbstractScene.LeafMeshIdsSnoc | ui-ngx/src/app/modules/home/components/widget/threed-view-widget/threed-abstract-scene.ts:250-264 | one more child adds its leaf meshes, or itself when it is a childless mesh |
| SceneEditor.AfterDragging | ui-ngx/src/app/modules/home/components/widget/threed-view-widget/threed-scene-editor.ts:104-129 | raycasting is enabled exactly when not dragging, and a drag start clears the last-frame flag |
| SceneEditor.AfterFocus | ui-ngx/src/app/modules/home/components/widget/threed-view-widget/threed-scene-editor.ts:327-328 | focusing clears the last-frame flag and keeps the enable flag |
| SceneEditor.Click | ui-ngx/src/app/modules/home/components/widget/threed-view-widget/threed-scene-editor.ts:196-201 | a click casts exactly when enabled and the last-frame flag is set; a swallowed click re-arms the flag |
| SceneEditor.OneClickSwallowed | ui-ngx/src/app/modules/home/components/widget/threed-view-widget/threed-scene-editor.ts:104-129 | after a drag ends or a focus, exactly one click is swallowed and the next casts; during a drag no click casts |
| SceneEditor.WithoutHelpers | ui-ngx/src/app/modules/home/components/widget/threed-view-widget/threed-scene-editor.ts:204-210 | a hit is kept exactly when it is not a transform plane, box helper, grid helper or "Helper"-tagged object |
| SceneEditor.SelectIsNearestRoot | ui-ngx/src/app/modules/home/components/widget/threed-view-widget/threed-scene-editor.ts:220-227 | with only helper hits the control detaches; otherwise the first real hit's nearest root-tagged ancestor is attached, and with no such ancestor nothing changes |
| SceneEditor.ThreedSceneEditor.constructor | ui-ngx/src/app/modules/home/components/widget/threed-view-widget/threed-scene-editor.ts:60-77 | a first-person editor gets a preview camera; a hidden control and box helper are added; raycasting is enabled and armed |
| SceneEditor.ThreedSceneEditor.ChangeTransformControl | ui-ngx/src/app/modules/home/components/widget/threed-view-widget/threed-scene-editor.ts:230-250 | the control and box helper are shown exactly when a model is given; then the camera preview shows exactly for the camera model and the last vectors are taken from it |
| SceneEditor.ThreedSceneEditor.UpdateRaycaster | ui-ngx/src/app/modules/home/components/widget/threed-view-widget/threed-scene-editor.ts:196-228 | the gate steps; a cast attaches the nearest root, or detaches on a miss, or keeps everything when the hit has no root |
| SceneEditor.ThreedSceneEditor.Release | ui-ngx/src/app/modules/home/components/widget/threed-view-widget/threed-scene-editor.ts:107-126 | release emits the change events of each changed vector and records the new ones; with nothing attached it throws |
| SceneEditor.ThreedSceneEditor.OnDraggingChanged | ui-ngx/src/app/modules/home/components/widget/threed-view-widget/threed-scene-editor.ts:104-130 | orbit and raycasting are enabled exactly when not dragging; a drag start only clears the flag; a drag end acts as release |
| SceneEditor.ThreedSceneEditor.FocusOnObject | ui-ngx/src/app/modules/home/components/widget/threed-view-widget/threed-scene-editor.ts:327-334 | the orbit target becomes the object's position, else the attached object's, else the origin, and the next click is swallowed |
| SceneEditor.ThreedSceneEditor.SetCameraValues | ui-ngx/src/app/modules/home/components/widget/threed-view-widget/threed-scene-editor.ts:258-272 | the base camera step runs on the camera model; the preview camera takes the lens fallbacks and the first time the view focuses on the camera model |
| SceneEditor.ThreedSceneEditor.OnCameraModelLoaded | ui-ngx/src/app/modules/home/components/widget/threed-view-widget/threed-scene-editor.ts:85-98 | the loaded camera model is tagged as root with the camera id; with no settings yet, reading them throws |
| SceneEditor.ThreedSceneEditor.UpdateValue | ui-ngx/src/app/modules/home/components/widget/threed-view-widget/threed-scene-editor.ts:252-256 | with models, new settings apply environment, camera and devices; without models they are only stored |
| SceneEditor.ThreedSceneEditor.RemoveModel | ui-ngx/src/app/modules/home/components/widget/threed-view-widget/threed-scene-editor.ts:143-147 | removing a known model also detaches the control, which hides it; an unknown id leaves both as they were |
| SceneEditor.ThreedSceneEditor.OnKeyDown | ui-ngx/src/app/modules/home/components/widget/threed-view-widget/threed-scene-editor.ts:280-307 | Shift sets the snaps, T/R/S pick the mode, Backquote resets |
| SceneEditor.ThreedSceneEditor.OnKeyUp | ui-ngx/src/app/modules/home/components/widget/threed-view-widget/threed-scene-editor.ts:309-321 | Shift clears the snaps |
| FpsScene.MoveKey | ui-ngx/src/app/modules/home/components/widget/threed-view-widget/threed-fps-scene.ts:151-172 | ArrowUp/KeyW, ArrowLeft/KeyA, ArrowDown/KeyS and ArrowRight/KeyD, and only they, are the forward, left, backward and right keys |
| FpsScene.MoveFlags.Set | ui-ngx/src/app/modules/home/components/widget/threed-view-widget/threed-fps-scene.ts:34-37 | setting one movement flag leaves the other three as they were |
| FpsScene.KeyFlags | ui-ngx/src/app/modules/home/components/widget/threed-view-widget/threed-fps-scene.ts:127-172 | a movement key sets (down) or clears (up) its own flag and no other; any other key leaves the flags alone |
| FpsScene.PressReleaseRestores | ui-ngx/src/app/modules/home/components/widget/threed-view-widget/threed-fps-scene.ts:127-172 | pressing and releasing a key whose flag was clear gives the flags back |
| FpsScene.Jump | ui-ngx/src/app/modules/home/components/widget/threed-view-widget/threed-fps-scene.ts:173-176 | Space adds 3 * mass to the vertical velocity only when a jump is allowed, and always forbids the next one |
| FpsScene.NoDoubleJump | ui-ngx/src/app/modules/home/components/widget/threed-view-widget/threed-fps-scene.ts:173-176 | a second Space before landing changes nothing |
| FpsScene.FallKeepsFloor | ui-ngx/src/app/modules/home/components/widget/threed-view-widget/threed-fps-scene.ts:98-117 | after a locked frame the camera is never below height 10; standing on an object allows a jump and leaves no downward velocity; a jump is only allowed after landing or if it already was |
| FpsScene.ThreedFpsScene.constructor | ui-ngx/src/app/modules/home/components/widget/threed-view-widget/threed-fps-scene.ts:30-54 | the scene starts inactive, unlocked, with all flags clear and no jump allowed |
| FpsScene.ThreedFpsScene.OnLock | ui-ngx/src/app/modules/home/components/widget/threed-view-widget/threed-fps-scene.ts:61-65 | locking sets locked and active and emits true |
| FpsScene.ThreedFpsScene.OnUnlock | ui-ngx/src/app/modules/home/components/widget/threed-view-widget/threed-fps-scene.ts:66-70 | unlocking clears locked and active and emits false |
| FpsScene.ThreedFpsScene.OnKeyDown | ui-ngx/src/app/modules/home/components/widget/threed-view-widget/threed-fps-scene.ts:151-178 | a key press updates the flags as the flag function says and Space performs the jump rule |
| FpsScene.ThreedFpsScene.OnKeyUp | ui-ngx/src/app/modules/home/components/widget/threed-view-widget/threed-fps-scene.ts:127-149 | a key release clears the key's flag and nothing else |
| FpsScene.ThreedFpsScene.Tick | ui-ngx/src/app/modules/home/components/widget/threed-view-widget/threed-fps-scene.ts:74-121 | only a locked frame moves the camera vertically, by the frame's elapsed seconds; the previous time always becomes now |
| NavigateScene.LeadingDigits | ui-ngx/src/app/modules/home/components/widget/threed-view-widget/threed-nagivate-scene.ts:141 | `\d+` reads the maximal run of leading digits |
| NavigateScene.LeadingDigitsOf | ui-ngx/src/app/modules/home/components/widget/threed-view-widget/threed-nagivate-scene.ts:141 | a digit run followed by a non-digit is read exactly |
| NavigateScene.MatchHex | ui-ngx/src/app/modules/home/components/widget/threed-view-widget/threed-nagivate-scene.ts:142 | a hex match's optional fourth group is two hex digits |
| NavigateScene.Pow10 | ui-ngx/src/app/modules/home/components/widget/threed-view-widget/threed-nagivate-scene.ts:146 | powers of ten are positive |
| NavigateScene.ParseFloat | ui-ngx/src/app/modules/home/components/widget/threed-view-widget/threed-nagivate-scene.ts:146 | `parseFloat` of a `[\d.]+` group is never negative |
| NavigateScene.Decimal | ui-ngx/src/app/modules/home/components/widget/threed-view-widget/threed-nagivate-scene.ts:146 | a decimal built from digit strings is never negative |
| NavigateScene.HexValue | ui-ngx/src/app/modules/home/components/widget/threed-view-widget/threed-nagivate-scene.ts:149 | one hex digit is below 16 |
| NavigateScene.HexByte | ui-ngx/src/app/modules/home/components/widget/threed-view-widget/threed-nagivate-scene.ts:149 | `parseInt(pair, 16)` of two hex digits is at most 255 |
| NavigateScene.AlphaAndColor | ui-ngx/src/app/modules/home/components/widget/threed-view-widget/threed-nagivate-scene.ts:140-157 | the colour string is kept; with no rgb, hex or hsl match the alpha is 1; a hex alpha lies in [0, 1] |
| NavigateScene.RgbRunAppend | ui-ngx/src/app/modules/home/components/widget/threed-view-widget/threed-nagivate-scene.ts:141 | scanning two pieces in turn is scanning their concatenation |
| NavigateScene.RgbRunLoop | ui-ngx/src/app/modules/home/components/widget/threed-view-widget/threed-nagivate-scene.ts:141 | a scan state that each character keeps is kept by the whole string |
| NavigateScene.RgbRunEnter | ui-ngx/src/app/modules/home/components/widget/threed-view-widget/threed-nagivate-scene.ts:141 | entering a state on the first character and staying there gives that state |
| NavigateScene.RgbAlphaReads | ui-ngx/src/app/modules/home/components/widget/threed-view-widget/threed-nagivate-scene.ts:141 | the alpha group reads every digit and dot |
| NavigateScene.RgbFailStays | ui-ngx/src/app/modules/home/components/widget/threed-view-widget/threed-nagivate-scene.ts:141 | a failed rgb scan stays failed |
| NavigateScene.HslRunAppend | ui-ngx/src/app/modules/home/components/widget/threed-view-widget/threed-nagivate-scene.ts:143 | scanning two pieces in turn is scanning their concatenation |
| NavigateScene.HslRunLoop | ui-ngx/src/app/modules/home/components/widget/threed-view-widget/threed-nagivate-scene.ts:143 | a scan state that each character keeps is kept by the whole string |
| NavigateScene.HslRunEnter | ui-ngx/src/app/modules/home/components/widget/threed-view-widget/threed-nagivate-scene.ts:143 | entering a state on the first character and staying there gives that state |
| NavigateScene.HslAlphaReads | ui-ngx/src/app/modules/home/components/widget/threed-view-widget/threed-nagivate-scene.ts:143 | the alpha group reads every digit and dot |
| NavigateScene.HslFailStays | ui-ngx/src/app/modules/home/components/widget/threed-view-widget/threed-nagivate-scene.ts:143 | a failed hsl scan stays failed |
| NavigateScene.MatchRgb | ui-ngx/src/app/modules/home/components/widget/threed-view-widget/threed-nagivate-scene.ts:141 | a fourth group read from an `rgba(...)` string is a non-empty run of digits and dots |
| NavigateScene.MatchHsl | ui-ngx/src/app/modules/home/components/widget/threed-view-widget/threed-nagivate-scene.ts:143 | a fourth group read from an `hsla(...)` string is a non-empty run of digits and dots |
| NavigateScene.RgbMatches | ui-ngx/src/app/modules/home/components/widget/threed-view-widget/threed-nagivate-scene.ts:141 | `rgba(r,g,b,a)` matches with the fourth group a, and `rgb(r,g,b)` matches with no fourth group |
| NavigateScene.HslMatches | ui-ngx/src/app/modules/home/components/widget/threed-view-widget/threed-nagivate-scene.ts:143 | `hsla(h,s%,l%,a)` matches with the fourth group a, and `hsl(h,s%,l%)` matches with no fourth group |
| NavigateScene.RgbAlphaIsFourthNumber | ui-ngx/src/app/modules/home/components/widget/threed-view-widget/threed-nagivate-scene.ts:145-147 | an rgba colour's alpha is `parseFloat` of its fourth number; an rgb colour's alpha is 1 |
| NavigateScene.NotRgb | ui-ngx/src/app/modules/home/components/widget/threed-view-widget/threed-nagivate-scene.ts:141 | a string not starting with 'r' is not an rgb colour |
| NavigateScene.HslAlphaIsFourthGroup | ui-ngx/src/app/modules/home/components/widget/threed-view-widget/threed-nagivate-scene.ts:151-153 | an hsla colour's alpha is `parseFloat` of its fourth group; an hsl colour's alpha is 1 |
| NavigateScene.HexAlpha | ui-ngx/src/app/modules/home/components/widget/threed-view-widget/threed-nagivate-scene.ts:148-150 | a six-digit hex colour, with or without '#', has alpha 1; an eight-digit one has its last byte divided by 255 |
| NavigateScene.HexAlphaBounded | ui-ngx/src/app/modules/home/components/widget/threed-view-widget/threed-nagivate-scene.ts:148-150 | a hex colour's alpha lies in [0, 1] |
| NavigateScene.DefaultHoverOpaque | ui-ngx/src/app/modules/home/components/widget/threed-view-widget/threed-nagivate-scene.ts:38 | the default hover colour "00ff00" has alpha 1 |
| NavigateScene.ParseFloatInteger | ui-ngx/src/app/modules/home/components/widget/threed-view-widget/threed-nagivate-scene.ts:146 | `parseFloat` of a digit string is its decimal value |
| NavigateScene.ParseFloatDecimal | ui-ngx/src/app/modules/home/components/widget/threed-view-widget/threed-nagivate-scene.ts:146 | `parseFloat` of digits, a dot and digits is the decimal number they write |
| NavigateScene.CreateLabelIn | ui-ngx/src/app/modules/home/components/widget/threed-view-widget/threed-nagivate-scene.ts:63-76 | a new label takes the next layer and the initial content under its id, and the layer counter advances by one |
| NavigateScene.CreateLabelKeepsInv | ui-ngx/src/app/modules/home/components/widget/threed-view-widget/threed-nagivate-scene.ts:63-76 | creating a label keeps every stored layer below the counter and at least the first label layer |
| NavigateScene.CreateLabelsLayers | ui-ngx/src/app/modules/home/components/widget/threed-view-widget/threed-nagivate-scene.ts:41-42 | labels created for distinct ids get layers 5, 6, 7, … in creation order, exactly one per id |
| NavigateScene.FirstLabelled | ui-ngx/src/app/modules/home/components/widget/threed-view-widget/threed-nagivate-scene.ts:211-222 | the search finds the first id that has a label, and nothing exactly when none has |
| NavigateScene.FirstLabelledIsUnique | ui-ngx/src/app/modules/home/components/widget/threed-view-widget/threed-nagivate-scene.ts:211-222 | any index with the first-found property is the one the search returns |
| NavigateScene.WithContent | ui-ngx/src/app/modules/home/components/widget/threed-view-widget/threed-nagivate-scene.ts:211-228 | only the first labelled id's content changes; every other label and the set of labels stay |
| NavigateScene.UnlabelledIdsAreSkipped | ui-ngx/src/app/modules/home/components/widget/threed-view-widget/threed-nagivate-scene.ts:200-210 | an id without a label in front of the list changes nothing, as the doc comment's example promises |
| NavigateScene.Deselected | ui-ngx/src/app/modules/home/components/widget/threed-view-widget/threed-nagivate-scene.ts:190-198 | deselecting keeps the hovered object and saved materials, and does nothing when nothing is hovered |
| NavigateScene.LabelLayerForIsFirst | ui-ngx/src/app/modules/home/components/widget/threed-view-widget/threed-nagivate-scene.ts:175-181 | the label layer shown is that of the first label, in creation order, whose owner is an ancestor of the hit, and none when no label owns it |
| NavigateScene.HoverThenDeselectRestores | ui-ngx/src/app/modules/home/components/widget/threed-view-widget/threed-nagivate-scene.ts:168-198 | hovering then deselecting a mesh restores its material, hides its label layer again and leaves other meshes alone |
| NavigateScene.HoveredShowsLabel | ui-ngx/src/app/modules/home/components/widget/threed-view-widget/threed-nagivate-scene.ts:168-181 | hovering a mesh records it, gives it the hover material and shows its label layer when there is one |
| NavigateScene.DeselectWithoutLabelKeepsLayers | ui-ngx/src/app/modules/home/components/widget/threed-view-widget/threed-nagivate-scene.ts:190-198 | deselecting a mesh with no recorded layer leaves the camera layers alone |
| NavigateScene.NavigateIdIgnoredAsWritten | ui-ngx/src/app/modules/home/components/widget/threed-view-widget/threed-nagivate-scene.ts:86-92 | as written, the id string is passed where configs are expected, so the model is keyed by its root uuid and the label under the given id is never found |
| NavigateScene.NavigateIdKeysLabel | ui-ngx/src/app/modules/home/components/widget/threed-view-widget/threed-nagivate-scene.ts:86-92 | passing `{ id }` keys the model and its label by the given id, so the label is found by that id |
| NavigateScene.NavigateConfigAgreesWithoutId | ui-ngx/src/app/modules/home/components/widget/threed-view-widget/threed-nagivate-scene.ts:86-92 | without an id both versions key the model by its root uuid |
| NavigateScene.HoverColorDefault | ui-ngx/src/app/modules/home/components/widget/threed-view-widget/threed-nagivate-scene.ts:123 | a falsy hover colour setting falls back to "00ff00" with alpha 1 |
| NavigateScene.ThreedNavigateScene.constructor | ui-ngx/src/app/modules/home/components/widget/threed-view-widget/threed-nagivate-scene.ts:37-51 | a new scene has no labels, layer counter 5, nothing hovered, and the "00ff00" hover colour |
| NavigateScene.ThreedNavigateScene.CreateLabel | ui-ngx/src/app/modules/home/components/widget/threed-view-widget/threed-nagivate-scene.ts:63-76 | the stored labels become those of the label function and the made label is returned |
| NavigateScene.ThreedNavigateScene.AddModel | ui-ngx/src/app/modules/home/components/widget/threed-view-widget/threed-nagivate-scene.ts:86-104 | corrected: the model is added under the given id; with a tooltip a label is created under the model's key and its layer hidden |
| NavigateScene.ThreedNavigateScene.UpdateLabelContent | ui-ngx/src/app/modules/home/components/widget/threed-view-widget/threed-nagivate-scene.ts:211-228 | the search loop updates exactly the first labelled id's content |
| NavigateScene.FindLabelled | ui-ngx/src/app/modules/home/components/widget/threed-view-widget/threed-nagivate-scene.ts:212-220 | the search loop returns the index of the first listed id that has a label, or none when no listed id has one |
| NavigateScene.WithContentKeepsInv | ui-ngx/src/app/modules/home/components/widget/threed-view-widget/threed-nagivate-scene.ts:224-226 | changing a label's content keeps the label registry invariant (keys, order and distinct layers) |
| NavigateScene.ThreedNavigateScene.DeselectModel | ui-ngx/src/app/modules/home/components/widget/threed-view-widget/threed-nagivate-scene.ts:190-198 | the hover state becomes the deselected state |
| NavigateScene.ThreedNavigateScene.FindLabelLayer | ui-ngx/src/app/modules/home/components/widget/threed-view-widget/threed-nagivate-scene.ts:175-181 | the loop over labels returns the layer of the first owning label |
| NavigateScene.FirstLabelLayer | ui-ngx/src/app/modules/home/components/widget/threed-view-widget/threed-nagivate-scene.ts:175-181 | the loop over the labels in insertion order finds the layer of the first label whose model is the hit or an ancestor of it, or none |
| NavigateScene.ThreedNavigateScene.Tick | ui-ngx/src/app/modules/home/components/widget/threed-view-widget/threed-nagivate-scene.ts:159-188 | a locked frame falls as the first-person scene does; a new first hit is hovered after deselecting the old one, the same hit changes nothing, and no hit deselects and clears |
| NavigateScene.ThreedNavigateScene.HoverHits | ui-ngx/src/app/modules/home/components/widget/threed-view-widget/threed-nagivate-scene.ts:165-186 | a new first hit deselects the old mesh and hovers the new one with the layer of its first owning label; the same hit changes nothing; no hit deselects and forgets the mesh; the labels are untouched |
| NavigateScene.ThreedNavigateScene.UpdateValue | ui-ngx/src/app/modules/home/components/widget/threed-view-widget/threed-nagivate-scene.ts:118-131 | with models the scene, camera and hover colour settings apply; without models they are only stored |
| NavigateScene.ThreedNavigateScene.ApplySettings | ui-ngx/src/app/modules/home/components/widget/threed-view-widget/threed-nagivate-scene.ts:119-121 | the scene takes the environment, camera and device settings in that order, and the camera its new transform; labels and hover state stay |
| NavigateScene.ThreedNavigateScene.SetHover | ui-ngx/src/app/modules/home/components/widget/threed-view-widget/threed-nagivate-scene.ts:168-179 | the hovered mesh, the materials, the saved materials, the mesh layers and the enabled label layers all take the new hover state |
| NavigateScene.ThreedNavigateScene.SetHoverColor | ui-ngx/src/app/modules/home/components/widget/threed-view-widget/threed-nagivate-scene.ts:123-129 | the hover colour is parsed from `hoverColor` or `00ff00`, and the hover material is made from it; labels, hover state and camera stay |
| SceneSettingsComponent.ControlNames | ui-ngx/src/app/modules/home/components/widget/lib/settings/threed/threed-scene-settings.component.ts:167-175 | the camera control is in the form exactly when the controller has a camera; the environment and devices controls always are, and nothing else |
| SceneSettingsComponent.DeviceDataFor | ui-ngx/src/app/modules/home/components/widget/lib/settings/threed/threed-scene-settings.component.ts:214-241 | device data is attached exactly for alias-attribute loaders of a DEVICE entity, carries the entity's name, is an unoccupied PIR exactly for the PIR alias, a gateway exactly for the gateway alias otherwise |
| SceneSettingsComponent.Record | ui-ngx/src/app/modules/home/components/widget/lib/settings/threed/threed-scene-settings.component.ts:334 | setting a loader changes that id's record only and keeps the tracker's key order consistent |
| SceneSettingsComponent.Forget | ui-ngx/src/app/modules/home/components/widget/lib/settings/threed/threed-scene-settings.component.ts:343 | forgetting a removed model drops exactly its record |
| SceneSettingsComponent.ForgetAll | ui-ngx/src/app/modules/home/components/widget/lib/settings/threed/threed-scene-settings.component.ts:343 | forgetting removed models drops exactly their records |
| SceneSettingsComponent.DeviceKeys | ui-ngx/src/app/modules/home/components/widget/lib/settings/threed/threed-scene-settings.component.ts:321 | the candidate deletions are exactly the recorded ids other than the environment's, without repeats |
| SceneSettingsComponent.Removals | ui-ngx/src/app/modules/home/components/widget/lib/settings/threed/threed-scene-settings.component.ts:343 | one removal request per deleted id, in order |
| SceneSettingsComponent.LoaderPassAppend | ui-ngx/src/app/modules/home/components/widget/lib/settings/threed/threed-scene-settings.component.ts:323-341 | walking the groups' loaders in two halves is walking them all at once |
| SceneSettingsComponent.LoaderStepFacts | ui-ngx/src/app/modules/home/components/widget/lib/settings/threed/threed-scene-settings.component.ts:331-339 | one loader records its id, leaves other records alone, strikes its id from the deletions and requests at most one load of itself |
| SceneSettingsComponent.LoaderPassTracker | ui-ngx/src/app/modules/home/components/widget/lib/settings/threed/threed-scene-settings.component.ts:323-341 | after the walk exactly the previously recorded and the mentioned ids are recorded, and unmentioned records are unchanged |
| SceneSettingsComponent.LoaderPassPending | ui-ngx/src/app/modules/home/components/widget/lib/settings/threed/threed-scene-settings.component.ts:321-339 | the remaining deletions are exactly the candidates no loader mentions |
| SceneSettingsComponent.LoaderPassRequests | ui-ngx/src/app/modules/home/components/widget/lib/settings/threed/threed-scene-settings.component.ts:333-336 | the walk only appends load requests, without an id, for loaders of the groups |
| SceneSettingsComponent.LoaderPassRecords | ui-ngx/src/app/modules/home/components/widget/lib/settings/threed/threed-scene-settings.component.ts:331-336 | after the walk every mentioned id's record equals its loader |
| SceneSettingsComponent.LoaderPassNoLoads | ui-ngx/src/app/modules/home/components/widget/lib/settings/threed/threed-scene-settings.component.ts:333 | when every loader equals its record, nothing is reloaded and nothing changes |
| SceneSettingsComponent.AppliedAppend | ui-ngx/src/app/modules/home/components/widget/lib/settings/threed/threed-scene-settings.component.ts:335-343 | the scene after two request batches is the second applied to the first's result |
| SceneSettingsComponent.AppliedRemovals | ui-ngx/src/app/modules/home/components/widget/lib/settings/threed/threed-scene-settings.component.ts:343 | applying the removals deletes exactly those ids from the scene |
| SceneSettingsComponent.MirrorsRecord | ui-ngx/src/app/modules/home/components/widget/lib/settings/threed/threed-scene-settings.component.ts:334-335 | recording a loader and loading its model keeps records and scene in step |
| SceneSettingsComponent.LoaderStepMirrors | ui-ngx/src/app/modules/home/components/widget/lib/settings/threed/threed-scene-settings.component.ts:331-336 | one loader keeps the records mirroring the models in the scene |
| SceneSettingsComponent.LoaderPassMirrors | ui-ngx/src/app/modules/home/components/widget/lib/settings/threed/threed-scene-settings.component.ts:323-341 | the whole walk keeps the records mirroring the scene |
| SceneSettingsComponent.ReconcileDevicesAsWritten | ui-ngx/src/app/modules/home/components/widget/lib/settings/threed/threed-scene-settings.component.ts:320-343 | as written: the tracker stays consistent, and afterwards it records exactly the devices it recorded before plus those the loaders mention, so removed models stay recorded |
| SceneSettingsComponent.ReconcileDevices | ui-ngx/src/app/modules/home/components/widget/lib/settings/threed/threed-scene-settings.component.ts:320-343 | corrected: the device branch keeps the tracker consistent |
| SceneSettingsComponent.ReconcileRequestsSplit | ui-ngx/src/app/modules/home/components/widget/lib/settings/threed/threed-scene-settings.component.ts:343 | the removal requests follow the load requests, one per remaining deletion |
| SceneSettingsComponent.ReconcileRemovesExactly | ui-ngx/src/app/modules/home/components/widget/lib/settings/threed/threed-scene-settings.component.ts:320-343 | a model is removed exactly when it was recorded, is not the environment and no new loader mentions it; loads are of the new loaders only |
| SceneSettingsComponent.ReconcileTracksMentioned | ui-ngx/src/app/modules/home/components/widget/lib/settings/threed/threed-scene-settings.component.ts:320-343 | corrected: after reconciling, the device records are exactly the mentioned ids |
| SceneSettingsComponent.ReconcileMirrors | ui-ngx/src/app/modules/home/components/widget/lib/settings/threed/threed-scene-settings.component.ts:320-343 | corrected: reconciling keeps records and scene in step, and the scene's device models are exactly the mentioned ones |
| SceneSettingsComponent.PendingSettled | ui-ngx/src/app/modules/home/components/widget/lib/settings/threed/threed-scene-settings.component.ts:321-339 | when the records already match the mentioned ids, nothing is left to delete |
| SceneSettingsComponent.ReconcileIdempotent | ui-ngx/src/app/modules/home/components/widget/lib/settings/threed/threed-scene-settings.component.ts:314-358 | corrected: reconciling the same device settings twice makes no requests the second time |
| SceneSettingsComponent.LoaderPassSingle | ui-ngx/src/app/modules/home/components/widget/lib/settings/threed/threed-scene-settings.component.ts:325-340 | a walk over one loader is that loader's step |
| SceneSettingsComponent.StaleRecordSkipsReload | ui-ngx/src/app/modules/home/components/widget/lib/settings/threed/threed-scene-settings.component.ts:321-343 | as written: a removed device whose record is kept is not reloaded when re-added, so the scene lacks it |
| SceneSettingsComponent.RemovedDeviceReloads | ui-ngx/src/app/modules/home/components/widget/lib/settings/threed/threed-scene-settings.component.ts:321-343 | corrected: removing the device forgets its record, so adding it back loads it again and it reappears in the scene |
| SceneSettingsComponent.StaleRemoval | ui-ngx/src/app/modules/home/components/widget/lib/settings/threed/threed-scene-settings.component.ts:343 | corrected: removing the only device requests its removal and forgets it |
| SceneSettingsComponent.ReloadIntoEmpty | ui-ngx/src/app/modules/home/components/widget/lib/settings/threed/threed-scene-settings.component.ts:333-335 | a loader with no record is loaded |
| SceneSettingsComponent.ReconcileEnvironment | ui-ngx/src/app/modules/home/components/widget/lib/settings/threed/threed-scene-settings.component.ts:345-357 | corrected: environment settings keep the tracker's invariant |
| SceneSettingsComponent.EnvironmentTrackedUnderItsKey | ui-ngx/src/app/modules/home/components/widget/lib/settings/threed/threed-scene-settings.component.ts:345-357 | corrected: environment settings touch only the environment record, load only under the environment id, and repeating them requests nothing |
| SceneSettingsComponent.GroupsLoaders | ui-ngx/src/app/modules/home/components/widget/lib/settings/threed/threed-scene-settings.component.ts:323-325 | every loader taken from the device groups has an entity |
| SceneSettingsComponent.LoadLoaders | ui-ngx/src/app/modules/home/components/widget/lib/settings/threed/threed-scene-settings.component.ts:323-341 | the loop over loaders computes the walk |
| SceneSettingsComponent.RemoveStale | ui-ngx/src/app/modules/home/components/widget/lib/settings/threed/threed-scene-settings.component.ts:343 | corrected: the removal loop forgets the deleted ids and requests their removal |
| SceneSettingsComponent.ReconcileGroups | ui-ngx/src/app/modules/home/components/widget/lib/settings/threed/threed-scene-settings.component.ts:320-343 | corrected: the device branch computes the reconciliation of the groups' loaders |
| SceneSettingsComponent.ReconcileEnvironmentSettings | ui-ngx/src/app/modules/home/components/widget/lib/settings/threed/threed-scene-settings.component.ts:344-357 | corrected: the environment branch computes the environment reconciliation |
| SceneSettingsComponent.ThreedSceneSettings.constructor | ui-ngx/src/app/modules/home/components/widget/lib/settings/threed/threed-scene-settings.component.ts:140-153 | starts with no records, no requests and no value |
| SceneSettingsComponent.ThreedSceneSettings.UpdateSceneModels | ui-ngx/src/app/modules/home/components/widget/lib/settings/threed/threed-scene-settings.component.ts:314-358 | corrected: null settings change nothing; device and environment settings update records and append the reconciliation's requests |
| SceneSettingsComponent.ThreedSceneSettings.WriteValue | ui-ngx/src/app/modules/home/components/widget/lib/settings/threed/threed-scene-settings.component.ts:290-301 | corrected: stores the value, then reconciles the environment and then the devices, appending both batches of requests |
| DeviceGroupSettingsComponent.ThreedDeviceGroupSettings.SetDevices | ui-ngx/src/app/modules/home/components/widget/lib/settings/threed/threed-device-group-settings.component.ts:145-177 | the object list and the deleted devices take the new values; every other field of the form is unchanged |
| DeviceGroupSettingsComponent.NewObject | ui-ngx/src/app/modules/home/components/widget/lib/settings/threed/threed-device-group-settings.component.ts:152-158 | a new object holds the entity, an empty model URL, zero position and rotation and unit scale |
| DeviceGroupSettingsComponent.ForgetDeleted | ui-ngx/src/app/modules/home/components/widget/lib/settings/threed/threed-device-group-settings.component.ts:164-170 | an entity not among the deleted devices leaves them unchanged; otherwise exactly one entry goes |
| DeviceGroupSettingsComponent.ForgetDeletedKeepsOthers | ui-ngx/src/app/modules/home/components/widget/lib/settings/threed/threed-device-group-settings.component.ts:164-170 | striking an entry off keeps every entry of another entity |
| DeviceGroupSettingsComponent.ForgetDeletedAt | ui-ngx/src/app/modules/home/components/widget/lib/settings/threed/threed-device-group-settings.component.ts:164-170 | the entry struck off is the first one with the entity's id |
| DeviceGroupSettingsComponent.AddIfNotExists | ui-ngx/src/app/modules/home/components/widget/lib/settings/threed/threed-device-group-settings.component.ts:145-171 | an entity that already has an object changes nothing; otherwise a default object is appended after the unchanged list, one deleted entry of the entity is struck off and entries of other entities keep their count |
| DeviceGroupSettingsComponent.AddIfNotExistsCovers | ui-ngx/src/app/modules/home/components/widget/lib/settings/threed/threed-device-group-settings.component.ts:145-162 | afterwards exactly the listed entities and the added one have an object, and distinct entity ids stay distinct |
| DeviceGroupSettingsComponent.IndexOfEntity | ui-ngx/src/app/modules/home/components/widget/lib/settings/threed/threed-device-group-settings.component.ts:148-150 | the search stops before the end exactly when some object is bound to the entity |
| DeviceGroupSettingsComponent.IndexOfDeleted | ui-ngx/src/app/modules/home/components/widget/lib/settings/threed/threed-device-group-settings.component.ts:164-170 | the index found is the first deleted entry with the entity's id, and it is the end exactly when none has it |
| DeviceGroupSettingsComponent.RemoveAt | ui-ngx/src/app/modules/home/components/widget/lib/settings/threed/threed-device-group-settings.component.ts:173-178 | removing an object drops exactly that index, keeps the others in order and remembers its entity as deleted |
| DeviceGroupSettingsComponent.RemoveThenReAdd | ui-ngx/src/app/modules/home/components/widget/lib/settings/threed/threed-device-group-settings.component.ts:145-178 | removing an object and adding its entity back restores the deleted list and appends a fresh default object, so the model URL and transform are lost |
| DeviceGroupSettingsComponent.ResolvesSnoc | ui-ngx/src/app/modules/home/components/widget/lib/settings/threed/threed-device-group-settings.component.ts:267-268 | one more resolved entity adds exactly its id to the resolved ids |
| DeviceGroupSettingsComponent.AddAllCovers | ui-ngx/src/app/modules/home/components/widget/lib/settings/threed/threed-device-group-settings.component.ts:257-270 | after loading, exactly the listed and the resolved entities have an object, existing objects keep their place and ids stay distinct |
| DeviceGroupSettingsComponent.FormValue | ui-ngx/src/app/modules/home/components/widget/lib/settings/threed/threed-device-group-settings.component.ts:215-216 | the reported value carries the alias, the switch and the objects, and an attribute only while the key control is enabled |
| DeviceGroupSettingsComponent.RestoredAttribute | ui-ngx/src/app/modules/home/components/widget/lib/settings/threed/threed-device-group-settings.component.ts:239 | turning attribute use on restores the remembered attribute when it is truthy and the empty string otherwise |
| DeviceGroupSettingsComponent.ThreedDeviceGroupSettings.constructor | ui-ngx/src/app/modules/home/components/widget/lib/settings/threed/threed-device-group-settings.component.ts:98-120 | starts with empty controls, no objects, the key control disabled and both public fields null |
| DeviceGroupSettingsComponent.ThreedDeviceGroupSettings.RegisterOnChange | ui-ngx/src/app/modules/home/components/widget/lib/settings/threed/threed-device-group-settings.component.ts:180-182 | installs the change callback and changes nothing else |
| DeviceGroupSettingsComponent.ThreedDeviceGroupSettings.AddObjectIfNotExists | ui-ngx/src/app/modules/home/components/widget/lib/settings/threed/threed-device-group-settings.component.ts:145-171 | updates the objects and deleted devices as the adding function says and nothing else |
| DeviceGroupSettingsComponent.ThreedDeviceGroupSettings.RemoveObject | ui-ngx/src/app/modules/home/components/widget/lib/settings/threed/threed-device-group-settings.component.ts:173-178 | updates the objects and deleted devices as the removing function says and nothing else |
| DeviceGroupSettingsComponent.ThreedDeviceGroupSettings.LoadEntities | ui-ngx/src/app/modules/home/components/widget/lib/settings/threed/threed-device-group-settings.component.ts:257-270 | an unknown alias clears the objects and the alias field; a known one adds every resolved entity and sets the alias field |
| DeviceGroupSettingsComponent.ThreedDeviceGroupSettings.UpdateValidators | ui-ngx/src/app/modules/home/components/widget/lib/settings/threed/threed-device-group-settings.component.ts:234-251 | with attribute use on, enables the key and restores the remembered attribute; with it off, remembers the model's key settings, disables the key and clears both public fields |
| DeviceGroupSettingsComponent.ThreedDeviceGroupSettings.OnKeySettingsChanged | ui-ngx/src/app/modules/home/components/widget/lib/settings/threed/threed-device-group-settings.component.ts:109-113 | the attribute field follows the key (empty string for a falsy one) while attribute use is on and is null otherwise |
| DeviceGroupSettingsComponent.ThreedDeviceGroupSettings.UpdateModel | ui-ngx/src/app/modules/home/components/widget/lib/settings/threed/threed-device-group-settings.component.ts:215-232 | stores the form value and, when a callback is installed, propagates it if the form is valid and null otherwise |
| DeviceGroupSettingsComponent.ThreedDeviceGroupSettings.WriteValue | ui-ngx/src/app/modules/home/components/widget/lib/settings/threed/threed-device-group-settings.component.ts:196-205 | stores the value, rebuilds the objects from it, remembers its key settings and applies the validators |
| SimulationWidgetSettings.ModelIndex | ui-ngx/src/app/modules/home/components/widget/lib/settings/threed/threed-simulation-widget-settings.component.ts:134-147 | the name lookup before adding (line 134) and before deleting (line 147): the index found is the first model with the name, or -1 when none has it |
| SimulationWidgetSettings.IndexByName | ui-ngx/src/app/modules/home/components/widget/lib/settings/threed/threed-simulation-widget-settings.component.ts:134-147 | `findIndex` by name, shared by the model and script lookups: the index found carries the name and no earlier entry does; -1 exactly when no entry carries it |
| SimulationWidgetSettings.ModelAdded | ui-ngx/src/app/modules/home/components/widget/lib/settings/threed/threed-simulation-widget-settings.component.ts:127-139 | a model is appended, last, exactly when the URL and the name are truthy and the name is new; names stay distinct |
| SimulationWidgetSettings.ModelDeleted | ui-ngx/src/app/modules/home/components/widget/lib/settings/threed/threed-simulation-widget-settings.component.ts:141-153 | a falsy or unknown name changes nothing; otherwise exactly the first model with the name is removed |
| SimulationWidgetSettings.DeleteModelRemovesName | ui-ngx/src/app/modules/home/components/widget/lib/settings/threed/threed-simulation-widget-settings.component.ts:141-153 | with distinct names, after deleting no model has the name |
| SimulationWidgetSettings.AddThenDeleteModel | ui-ngx/src/app/modules/home/components/widget/lib/settings/threed/threed-simulation-widget-settings.component.ts:127-153 | adding a new model and deleting it by name restores the list |
| SimulationWidgetSettings.LinkIndex | ui-ngx/src/app/modules/home/components/widget/lib/settings/threed/threed-simulation-widget-settings.component.ts:179 | the index found is the first link whose entity loosely equals the alias and whose model matches, or -1 |
| SimulationWidgetSettings.LinkAdded | ui-ngx/src/app/modules/home/components/widget/lib/settings/threed/threed-simulation-widget-settings.component.ts:161-169 | an undefined alias throws; otherwise one link for the selected model is appended with the alias's entity |
| SimulationWidgetSettings.LinkDeleted | ui-ngx/src/app/modules/home/components/widget/lib/settings/threed/threed-simulation-widget-settings.component.ts:176-183 | an unmatched pair changes nothing; otherwise exactly the first matching link is removed |
| SimulationWidgetSettings.ShownAlias | ui-ngx/src/app/modules/home/components/widget/lib/settings/threed/threed-simulation-widget-settings.component.ts:171-174 | the alias put in the form by showing a row loosely equals exactly that row's entity |
| SimulationWidgetSettings.ShowThenDeleteLink | ui-ngx/src/app/modules/home/components/widget/lib/settings/threed/threed-simulation-widget-settings.component.ts:171-187 | showing a row and then deleting removes exactly that row |
| SimulationWidgetSettings.DeleteWithPickedAliasKeepsLinks | ui-ngx/src/app/modules/home/components/widget/lib/settings/threed/threed-simulation-widget-settings.component.ts:177-179 | an alias object picked in the form converts to the string "[object Object]", so unless a stored entity is that very string it equals none of them and deleting removes nothing |
| SimulationWidgetSettings.ScriptIndex | ui-ngx/src/app/modules/home/components/widget/lib/settings/threed/threed-simulation-widget-settings.component.ts:193-256 | the name lookup at lines 193, 225, 231 and 256: the index found is the first script with the name, or -1 when none has it |
| SimulationWidgetSettings.Selected | ui-ngx/src/app/modules/home/components/widget/lib/settings/threed/threed-simulation-widget-settings.component.ts:189-203 | selecting a script opens it with its body, saves the editor text into the previously open script and leaves the other scripts alone |
| SimulationWidgetSettings.SwitchBackKeepsEdit | ui-ngx/src/app/modules/home/components/widget/lib/settings/threed/threed-simulation-widget-settings.component.ts:189-203 | switching away and back reopens the edited text |
| SimulationWidgetSettings.LowerAscii | ui-ngx/src/app/modules/home/components/widget/lib/settings/threed/threed-simulation-widget-settings.component.ts:217 | lower-casing keeps the length and maps exactly the ASCII capitals |
| SimulationWidgetSettings.TrimStart | ui-ngx/src/app/modules/home/components/widget/lib/settings/threed/threed-simulation-widget-settings.component.ts:217 | trimming the front drops exactly the leading white space |
| SimulationWidgetSettings.TrimEnd | ui-ngx/src/app/modules/home/components/widget/lib/settings/threed/threed-simulation-widget-settings.component.ts:217 | trimming the back drops exactly the trailing white space |
| SimulationWidgetSettings.Trim | ui-ngx/src/app/modules/home/components/widget/lib/settings/threed/threed-simulation-widget-settings.component.ts:217 | the trimmed name is no longer than the name, neither starts nor ends with whitespace, is the name itself when it has no whitespace and empty when it is all whitespace |
| SimulationWidgetSettings.TrimKeepsNoUpper | ui-ngx/src/app/modules/home/components/widget/lib/settings/threed/threed-simulation-widget-settings.component.ts:217 | trimming a lower-case name keeps it lower-case |
| SimulationWidgetSettings.ScriptFileName | ui-ngx/src/app/modules/home/components/widget/lib/settings/threed/threed-simulation-widget-settings.component.ts:214-220 | a name is accepted exactly when the answer is truthy and, lower-cased and trimmed, is letters and spaces; the accepted name is that lower-cased, trimmed, non-empty text |
| SimulationWidgetSettings.ScriptFileNameIdempotent | ui-ngx/src/app/modules/home/components/widget/lib/settings/threed/threed-simulation-widget-settings.component.ts:214-220 | an accepted name is accepted again unchanged |
| SimulationWidgetSettings.AcceptedNameFixed | ui-ngx/src/app/modules/home/components/widget/lib/settings/threed/threed-simulation-widget-settings.component.ts:214-220 | a non-empty lower-case name of letters and inner spaces is its own file name |
| SimulationWidgetSettings.LowerOfLower | ui-ngx/src/app/modules/home/components/widget/lib/settings/threed/threed-simulation-widget-settings.component.ts:217 | lower-casing a lower-case string changes nothing |
| SimulationWidgetSettings.TrimOfTrimmed | ui-ngx/src/app/modules/home/components/widget/lib/settings/threed/threed-simulation-widget-settings.component.ts:217 | trimming a string with no white space at its ends changes nothing |
| SimulationWidgetSettings.JsIndex | ui-ngx/src/app/modules/home/components/widget/lib/settings/threed/threed-simulation-widget-settings.component.ts:247 | the index found is the first occurrence of ".js" from the start point, or -1 |
| SimulationWidgetSettings.StripJs | ui-ngx/src/app/modules/home/components/widget/lib/settings/threed/threed-simulation-widget-settings.component.ts:247 | the first ".js" is cut out when there is one, otherwise the name is unchanged |
| SimulationWidgetSettings.StripJsOfFileName | ui-ngx/src/app/modules/home/components/widget/lib/settings/threed/threed-simulation-widget-settings.component.ts:247 | stripping a dot-free base name's ".js" gives back the base |
| SimulationWidgetSettings.ScriptAdded | ui-ngx/src/app/modules/home/components/widget/lib/settings/threed/threed-simulation-widget-settings.component.ts:205-242 | a rejected answer changes nothing; the editor text is kept, adding keeps the open script and renaming keeps the number of scripts |
| SimulationWidgetSettings.ScriptAddedAppends | ui-ngx/src/app/modules/home/components/widget/lib/settings/threed/threed-simulation-widget-settings.component.ts:205-242 | adding keeps the existing scripts as a prefix and appends at most one empty script under the new file name, only when no script has it; afterwards a script of that name exists and distinct names stay distinct |
| SimulationWidgetSettings.ScriptEdited | ui-ngx/src/app/modules/home/components/widget/lib/settings/threed/threed-simulation-widget-settings.component.ts:244-249 | with no open script or main.js open nothing changes; the number of scripts is kept |
| SimulationWidgetSettings.MainOnlyFromMain | ui-ngx/src/app/modules/home/components/widget/lib/settings/threed/threed-simulation-widget-settings.component.ts:245-247 | only the base name "main" gives main.js |
| SimulationWidgetSettings.EditRenamesOpenScript | ui-ngx/src/app/modules/home/components/widget/lib/settings/threed/threed-simulation-widget-settings.component.ts:224-249 | editing renames the open script to the accepted name, keeps its body and makes it the open script |
| SimulationWidgetSettings.ScriptDeleted | ui-ngx/src/app/modules/home/components/widget/lib/settings/threed/threed-simulation-widget-settings.component.ts:251-261 | with no open script or main.js open nothing changes; otherwise, when a script carries the open name, exactly the first such script is removed and the rest keep their order, else nothing changes; the open name and text stay and main.js never goes |
| SimulationWidgetSettings.DefaultWidgetSettings | ui-ngx/src/app/modules/home/components/widget/lib/settings/threed/threed-simulation-widget-settings.component.ts:79-89 | defaults: no models, only main.js, no URL, empty alias, selection and editor text |
| SimulationWidgetSettings.OpenedOnSet | ui-ngx/src/app/modules/home/components/widget/lib/settings/threed/threed-simulation-widget-settings.component.ts:91-110 | corrected: setting the settings opens the first script when there is one and otherwise opens nothing |
| SimulationWidgetSettings.OpenFirstModelAsWritten | ui-ngx/src/app/modules/home/components/widget/lib/settings/threed/threed-simulation-widget-settings.component.ts:105-109 | as written: the first model, not a script, is opened, so the editor shows no body and main.js is not open |
| SimulationWidgetSettings.FindModel | ui-ngx/src/app/modules/home/components/widget/lib/settings/threed/threed-simulation-widget-settings.component.ts:147 | the search loop finds the first model with the name |
| SimulationWidgetSettings.FindLink | ui-ngx/src/app/modules/home/components/widget/lib/settings/threed/threed-simulation-widget-settings.component.ts:179 | the search loop finds the first matching link |
| SimulationWidgetSettings.FindScript | ui-ngx/src/app/modules/home/components/widget/lib/settings/threed/threed-simulation-widget-settings.component.ts:193 | the search loop finds the first script with the name |
| SimulationWidgetSettings.CheckScriptName | ui-ngx/src/app/modules/home/components/widget/lib/settings/threed/threed-simulation-widget-settings.component.ts:214-220 | the name check computes the accepted file name |
| SimulationWidgetSettings.ThreedSimulationWidgetSettings.constructor | ui-ngx/src/app/modules/home/components/widget/lib/settings/threed/threed-simulation-widget-settings.component.ts:91-103 | corrected: the form takes the settings' models, URL, alias and selection, no links, and opens what the settings say |
| SimulationWidgetSettings.ThreedSimulationWidgetSettings.AddModel | ui-ngx/src/app/modules/home/components/widget/lib/settings/threed/threed-simulation-widget-settings.component.ts:127-139 | adds the model as the adding function says; when the URL and the name were both set, the model input is cleared, which empties the name and the URL; otherwise nothing changes; the scripts and editor stay |
| SimulationWidgetSettings.ThreedSimulationWidgetSettings.DeleteModel | ui-ngx/src/app/modules/home/components/widget/lib/settings/threed/threed-simulation-widget-settings.component.ts:141-153 | deletes the model as the deleting function says; when a name was set, the model input is cleared, which empties the name and the URL; otherwise nothing changes; the scripts and editor stay |
| SimulationWidgetSettings.ThreedSimulationWidgetSettings.ClearImage | ui-ngx/src/app/shared/components/threed-model-input.component.ts:163-167 | clearing the model input empties its file name and sets the bound URL control to null |
| SimulationWidgetSettings.ThreedSimulationWidgetSettings.VisualiseModel | ui-ngx/src/app/modules/home/components/widget/lib/settings/threed/threed-simulation-widget-settings.component.ts:155-159 | showing a model clears the input and then shows the model's name, leaving the URL control empty and the models and scripts unchanged |
| SimulationWidgetSettings.ShowThenDeleteModel | ui-ngx/src/app/modules/home/components/widget/lib/settings/threed/threed-simulation-widget-settings.component.ts:141-159 | with distinct names, showing the k-th model and then deleting removes exactly that model |
| SimulationWidgetSettings.ThreedSimulationWidgetSettings.AddLink | ui-ngx/src/app/modules/home/components/widget/lib/settings/threed/threed-simulation-widget-settings.component.ts:161-169 | succeeds exactly when the alias is defined, then appends the link and clears the selection |
| SimulationWidgetSettings.ThreedSimulationWidgetSettings.VisualiseLink | ui-ngx/src/app/modules/home/components/widget/lib/settings/threed/threed-simulation-widget-settings.component.ts:171-174 | shows the row's entity and model in the form |
| SimulationWidgetSettings.ThreedSimulationWidgetSettings.DeleteLink | ui-ngx/src/app/modules/home/components/widget/lib/settings/threed/threed-simulation-widget-settings.component.ts:176-187 | deletes the first matching link and clears the alias and the selection |
| SimulationWidgetSettings.ThreedSimulationWidgetSettings.SelectScript | ui-ngx/src/app/modules/home/components/widget/lib/settings/threed/threed-simulation-widget-settings.component.ts:189-203 | the editor becomes the selection's result |
| SimulationWidgetSettings.ThreedSimulationWidgetSettings.AddScript | ui-ngx/src/app/modules/home/components/widget/lib/settings/threed/threed-simulation-widget-settings.component.ts:205-242 | the editor becomes the adding function's result |
| SimulationWidgetSettings.ThreedSimulationWidgetSettings.EditScript | ui-ngx/src/app/modules/home/components/widget/lib/settings/threed/threed-simulation-widget-settings.component.ts:244-249 | the editor becomes the editing function's result |
| SimulationWidgetSettings.ThreedSimulationWidgetSettings.DeleteScript | ui-ngx/src/app/modules/home/components/widget/lib/settings/threed/threed-simulation-widget-settings.component.ts:251-261 | the editor becomes the deleting function's result |
| SimulationHelper.ToDictionaryKeys | ui-ngx/src/app/shared/components/simulation-helper.component.ts:270-279 | the dictionary's keys are exactly the items' keys, and each entry is an item filed under its own key |
| SimulationHelper.ToDictionaryLastWins | ui-ngx/src/app/shared/components/simulation-helper.component.ts:270-279 | an item whose key no later item repeats is the one stored under that key |
| SimulationHelper.Params | ui-ngx/src/app/shared/components/simulation-helper.component.ts:234-236 | every script takes context, simulationScene and Threed; onDataUpdate.js takes a fourth, datasources |
| SimulationHelper.CompileAll | ui-ngx/src/app/shared/components/simulation-helper.component.ts:233-243 | each raw script is compiled, in order |
| SimulationHelper.CompiledScriptsOfLast | ui-ngx/src/app/shared/components/simulation-helper.component.ts:231-245 | the last script with a name is the one compiled under that name, with its body, deletable flag and name |
| SimulationHelper.CompiledScriptsHas | ui-ngx/src/app/shared/components/simulation-helper.component.ts:231-245 | a name is compiled exactly when some raw script has it |
| SimulationHelper.GetCompiledScripts | ui-ngx/src/app/shared/components/simulation-helper.component.ts:231-245 | compiling succeeds exactly when every body parses, and then yields the scripts keyed by name |
| SimulationHelper.CompiledScriptsSnoc | ui-ngx/src/app/shared/components/simulation-helper.component.ts:233-243 | one more script overwrites its name's entry, and all parse exactly when the earlier ones and it do |
| SimulationHelper.CompileSettles | ui-ngx/src/app/shared/components/simulation-helper.component.ts:106-133 | corrected: a set-up or started simulation is left alone; otherwise compiling ends set up exactly when all scripts parse, a setup.js exists and it returns, and else uncompiled, never stuck compiling |
| SimulationHelper.CompileOutcomeAgrees | ui-ngx/src/app/shared/components/simulation-helper.component.ts:106-133 | when every script parses, the code as written and the corrected compile agree |
| SimulationHelper.CompileStuckAsWritten | ui-ngx/src/app/shared/components/simulation-helper.component.ts:113-114 | as written: a setup.js that does not parse leaves the simulation compiling; corrected, it ends uncompiled |
| SimulationHelper.ThreedSimulationHelper.constructor | ui-ngx/src/app/shared/components/simulation-helper.component.ts:62-82 | starts uncompiled at time 0 with no context, scene or timers |
| SimulationHelper.ThreedSimulationHelper.UpdateSettings | ui-ngx/src/app/shared/components/simulation-helper.component.ts:102-104 | replaces the settings and nothing else |
| SimulationHelper.ThreedSimulationHelper.CreateSimulationScene | ui-ngx/src/app/shared/components/simulation-helper.component.ts:217-222 | replaces the scene with a new one |
| SimulationHelper.ThreedSimulationHelper.SetState | ui-ngx/src/app/shared/components/simulation-helper.component.ts:107-131 | sets the state and records it in the history |
| SimulationHelper.ThreedSimulationHelper.Compile | ui-ngx/src/app/shared/components/simulation-helper.component.ts:106-133 | the new state is the corrected compile outcome; when compiling runs and everything parses, the context holds the assets by name, the entities and the compiled scripts, a new scene is made and setup.js is called when present |
| SimulationHelper.ThreedSimulationHelper.CompileAndSetup | ui-ngx/src/app/shared/components/simulation-helper.component.ts:109-132 | corrected: passes through COMPILING; if every script parses, the context holds the assets by name, the entities and the compiled scripts, a new scene is made and setup.js runs when present; if any script fails to parse, the state ends UNCOMPILED with context, scene and calls unchanged |
| SimulationHelper.ThreedSimulationHelper.RunSetup | ui-ngx/src/app/shared/components/simulation-helper.component.ts:121-132 | runs setup.js on a new scene: set up exactly when it exists and returns, uncompiled otherwise |
| SimulationHelper.ThreedSimulationHelper.StartSimulation | ui-ngx/src/app/shared/components/simulation-helper.component.ts:135-159 | corrected: a started simulation is left alone; otherwise it compiles, runs start.js (started exactly when it exists and returns) and restarts the clock at 0 with a new timer |
| SimulationHelper.ThreedSimulationHelper.RunStart | ui-ngx/src/app/shared/components/simulation-helper.component.ts:140-158 | runs start.js and installs a new timer with the clock at 0 |
| SimulationHelper.ThreedSimulationHelper.OnTimer | ui-ngx/src/app/shared/components/simulation-helper.component.ts:154-158 | each tick of a live timer advances the clock by 0.2 s; other handles change nothing |
| SimulationHelper.ThreedSimulationHelper.StopSimulation | ui-ngx/src/app/shared/components/simulation-helper.component.ts:165-181 | clears the timer, returns to uncompiled at time 0, runs stop.js when present and drops the scene |
| SimulationHelper.ThreedSimulationHelper.ResetSimulation | ui-ngx/src/app/shared/components/simulation-helper.component.ts:183-192 | runs reset.js when present and changes nothing else |
| SimulationHelper.ThreedSimulationHelper.OnDataUpdate | ui-ngx/src/app/shared/components/simulation-helper.component.ts:194-204 | runs onDataUpdate.js exactly when the simulation is started and the script exists |
| BaseComponents.ThreedBaseComponent.constructor | ui-ngx/src/app/modules/home/components/widget/threed-view-widget/threed/threed-components/threed-base-component.ts:23-25 | a new component is not initialized and holds no scene manager and no subscriptions |
| BaseComponents.ThreedBaseComponent.Subscribe | ui-ngx/src/app/modules/home/components/widget/threed-view-widget/threed/threed-components/threed-base-component.ts:25 | a subscription is collected last and nothing else changes |
| GenericSceneManager.SceneRegistry.constructor | ui-ngx/src/app/modules/home/components/widget/threed-view-widget/threed/threed-managers/threed-generic-scene-manager.ts:35-36 | scene ids start at 1 with no scene registered |
| Physics.ThreedPhysicManager.constructor | ui-ngx/src/app/modules/home/components/widget/threed-view-widget/threed/threed-managers/threed-physic-manager.ts:26-40 | a new manager has no components, zero earthquake magnitude and no contacts or steps |

## Left out

- Rendering, WebGL and DOM plumbing are not modelled. This covers:
  - the scenes' `render` and `resize` bodies;
  - `AbstractScene`'s `calculateMousePosition` and `splitIntoMeshes`;
  - the scene editor's debug viewport;
  - the navigation label renderer's sizing;
  - `attachToElement`'s canvas appends;
  - the progress bar's HTML markup;
  - the box-helper refresh in the transform controller's `tick`;
  - the nav mesh's `visualizeGrid`;
  - console logging.
- VR text drawing (`getATag`, `createTagA`, `createText`) is not modelled. The panel layout takes each line's drawn element as an input.
- Geometry is an input: bounding boxes, `getBoundingClientRect`, the floor's local-to-world transform, world positions and CANNON shapes.
- Reals are exact. The model does not capture:
  - the simulation clock's `toFixed(2)` rounding;
  - float effects in colour alpha parsing;
  - explode offsets (only the visibility switch is modelled);
  - the FPS horizontal movement (velocity x/z, direction normalisation, `moveRight`/`moveForward`). Only the vertical fall and the floor rule are modelled.
- Random and timed behaviour is an input:
  - `Math.random` earthquake forces and person speeds are parameters;
  - tween progress is a call that completes a tween;
  - `setInterval` ticks are calls with a timer handle;
  - `setTimeout` resizes are not modelled.
- The path finder is an oracle (`pathTo`, `cellPosition`). The person component calls `getGridCoordsFromPosition`, `findNearestWalkablePoint` and `getPostionFromGridCoords`, which the nav-mesh source does not define. The person's `visualisePath`, `setDebugMode`, `addModel` and `initialize` are not modelled.
- `walkToDesk` calls `this.animator.isPlaying("Walking")` (threed-person-component.ts:103), which threed-animator-component.ts does not define; the model reads it as "the Walking clip is playing". The animator's `play` of a clip name the model lacks does nothing in the source; the model assumes every clip it names is present, and does not model pausing.
- `ThreedUtils.findParentByChild`, `isVisible` and `getAlphaAndColorFromString` are not part of this model:
  - the ancestor lookup is modelled on the scene tree;
  - visibility is an input;
  - the navigation scene parses colours itself.
- `canSelectObject` is not defined in the highlight raycasters shown. It is a parameter.
- Model loading (`loadModelAsGLTF` followed by `replaceModel`) and removal in the scene settings form are recorded as requests to the scene editor. The scene that results is the requests applied in order.
- The `PIR_SENSORS` and `GATEWAY` alias names are parameters of `SceneSettingsComponent.DeviceDataFor`.
- Several parts of the scene settings form are not modelled:
  - `updateModel`, the `setValues` forwarding and change propagation;
  - fullscreen handling, `changeControlMode`, `focusOnObject`, `forceExpand` and visibility detection;
  - `exportScene` (GLB export and download).
- The Angular wiring is not modelled:
  - `valueChanges` subscriptions are explicit method calls;
  - form validity is an input;
  - `setDisabledState` and `validate` are not modelled;
  - a disabled control drops out of the form value, as `DeviceGroupSettingsComponent.FormValue` states;
  - the tooltip control's initial value is a constructor parameter.
- Alias resolution (`getEntityAliasId`, `resolveEntitiesInfo`) is an input.
- The simulation helper's `getEntities` is not modelled; the entities are an input.
- In the simulation helper:
  - `new Function` compilation is an oracle `parses`;
  - a script's run is an input outcome (returns or throws);
  - the `data` argument of `onDataUpdate.js` is not modelled;
  - `userData`, `menuData` and `services` in the context are not modelled;
  - `openOptionsMenu`, `lockCursor`, `onEditModeChanged`, `onResize` and `ngOnDestroy` are not modelled;
  - each async method runs to completion, so interleaved awaits are not modelled.
- In the simulation settings form:
  - `compile` (script execution) and `detectResize` are not modelled;
  - the model input is taken to be bound to the `modelUrl` control, so clearing it sets that control to null (the form's template is not part of this model); `writeValue` does not notify the control, so showing a model leaves the URL empty;
  - the table's `renderRows` is not modelled;
  - the dialog answer of `addScript` is an input.
- LowerAscii: case mapping covers ASCII letters only and leaves every other character unchanged. JavaScript's `toLowerCase` maps a few non-ASCII letters to ASCII ones (U+212A KELVIN SIGN becomes 'k'), so the source accepts a name such as "\u212Aey" that the model's name check rejects.
- ObstacleRects: states the grid under the corrected clamp of `GridCoords`. As written, an obstacle reaching the floor's far edge yields column `width` or row `height`, and `setWalkableAt` then throws (see `NavMesh.FarEdgeLeavesGrid`).
- BuildGrid: built from the corrected clamp; as written the same far-edge obstacle makes the grid construction throw.
- ComputeGrid: computes the corrected-clamp grid; the as-written throw is not modelled in the component.
- GetGridCoords: returns the corrected cell, inside the grid; the source clamps to `[0, width]` and `[0, height]` and can return one past the last cell.
- AddModel: the navigation scene keys the model by the given id, as `{ id }` would. The source passes the id string as the config, so it keys the model and its label by the root's uuid (see `NavigateScene.NavigateIdIgnoredAsWritten`).
- ReconcileTracksMentioned, ReconcileMirrors, ReconcileIdempotent, StaleRemoval, RemoveStale, ReconcileGroups, UpdateSceneModels and WriteValue: these state the corrected `ReconcileDevices`, which forgets the records of removed devices. The source only removes their models, so as written the records do not mirror the scene and a second pass requests the stale removals again (see `SceneSettingsComponent.ReconcileDevicesAsWritten` and `StaleRecordSkipsReload`).
- ReconcileEnvironment, EnvironmentTrackedUnderItsKey and ReconcileEnvironmentSettings: these run over the corrected `AreLoaderEqual`. As written, applying the same alias environment twice throws on `undefined.id` (see `ModelLoader.AliasEnvironmentComparisonThrows`).
- constructor of `SimulationWidgetSettings.ThreedSimulationWidgetSettings`: opens the first script through the corrected `OpenedOnSet`; the source opens `models[0]` (see `SimulationWidgetSettings.OpenFirstModelAsWritten`).
- Compile and CompileAndSetup: state the corrected compile. As written, `getCompiledScripts` (simulation-helper.component.ts:114) runs before the `try` at :121, so a script that does not parse throws out of `compile` and the state stays COMPILING instead of ending UNCOMPILED; that outcome is `SimulationHelper.CompileStuckAsWritten`.
- StartSimulation: runs over the corrected `Compile`. As written, a script that does not parse rejects `compile` and aborts `startSimulation` in COMPILING, with no `start.js` run and no timer (see `SimulationHelper.CompileStuckAsWritten`).
- UpdatePhysics: the CANNON world step is the physics library's; its result is an input (`stepped`), so the model states the forced velocities about the bodies before the step and records the step call, not what the step does to them.
- LooseEquals: JavaScript `==` between a string and a number or a boolean converts the string to a number (`"1" == 1`, `"" == false`); the model compares a string only with a string. The tags compared are ids, flags and handles, which the scene stores with one kind.
- `AbstractScene`'s `autoResize` option (scaling an added model by the camera's distance) is not modelled: it changes geometry only.
- LayersDistinct: camera layers are unbounded integers. three.js keeps them in a 32-bit mask and JavaScript takes shift counts modulo 32, so the 32nd label's layer 36 would enable the markers layer 4 and layer 37 would alias layer 5. The statement is faithful while at most 27 labels hold layers, 5 to 31.
- CreateLabelsLayers: the same unbounded layer numbers; faithful for at most 27 labels.
- EnableTooltip: the camera gains the label's layer as an unbounded integer; faithful for layers 5 to 31, where the 32-bit mask and the set agree.
- EntityLoaders and ToEntityLoaders: a device group with `useAttribute` set, an attribute, and no object list is excluded by the requires. The settings type declares the list (`threedObjectSettings` in threed/threed-models.ts:139) and the group form always builds it; the source would throw a TypeError on such a group at threed-model-loader.service.ts:119.
- The scene editor's constructor does not put its camera helper and loaded camera mesh into the scene's children (threed-scene-editor.ts:83 and :95): the helper is a drawing aid, the GLTF load is asynchronous, and the camera mesh is modelled only as the editor's `cameraMesh` field, which starts empty.
- Subscriptions are identities: what `unsubscribe` does is not modelled.
- `SceneGraph.PathToAll`, `SceneGraph.MeshIdsAllAreTraversalMeshes` and the `...Snoc`/`...Append` lemmas are proof helpers for the rows above.

## Findings

| source | as written | input that shows it | evidently intended | confidence | as-written member | corrected member |
|---|---|---|---|---|---|---|
| ui-ngx/src/app/core/services/threed-model-loader.service.ts:63-66 | `areLoaderEqual` reads `entity.id` on both alias loaders; loaders built from an environment alias carry no entity, so the comparison throws | the environment with alias "A" and attribute "url" applied twice: the second comparison reads `undefined.id` | compare entity ids only when present, so equal alias loaders are equal | not executed | ModelLoader.AliasEnvironmentComparisonThrows | ModelLoader.AreLoaderEqualProperties |
| ui-ngx/src/app/modules/home/components/widget/threed-view-widget/threed/threed-managers/threed-css-manager.ts:75 | `enabled \|\| !markersLayerEnabled` toggles when asked to disable | `toggleMarkersLayer(false)` with the layer disabled turns it on | an explicit flag sets the layer; no flag toggles it | not executed | CssManager.ToggleMarkersDisableEnables | CssManager.ThreedCssManager.ToggleMarkersLayer |
| ui-ngx/src/app/modules/home/components/widget/threed-view-widget/threed/threed-components/threed-nav-mesh-component.ts:143-144 | grid coordinates are clamped to `[0, width]` and `[0, height]`, one past the last cell | a 1 m floor with 0.5 m cells: point (0.5, 0, 0.5) maps to cell (2, 2) of a 2 by 2 grid | clamp to `width - 1` and `height - 1` | not executed | NavMesh.FarEdgeLeavesGrid | NavMesh.GridCoordsAgreeInside |
| ui-ngx/src/app/modules/home/components/widget/threed-view-widget/threed-nagivate-scene.ts:87 | `super.addModel(model, id)` passes the id string where a config object is expected, so the id is ignored and the root's uuid keys the model and its label | a model added with id "dev1": its label is keyed "u1" (the root uuid) and a lookup by "dev1" finds nothing | pass `{ id }` | not executed | NavigateScene.NavigateIdIgnoredAsWritten | NavigateScene.NavigateIdKeysLabel |
| ui-ngx/src/app/modules/home/components/widget/lib/settings/threed/threed-scene-settings.component.ts:321-343 | the records of removed devices stay in `lastEntityLoaders` | remove device X (its model is removed), then add X back with the same loader: no reload, and the scene lacks X | forget the record of every removed device | not executed | SceneSettingsComponent.StaleRecordSkipsReload | SceneSettingsComponent.RemovedDeviceReloads |
| ui-ngx/src/app/shared/components/simulation-helper.component.ts:113-114 | `getCompiledScripts` runs outside the `try`, so a script that does not compile rejects `compile` after the state became COMPILING | a `setup.js` with body `return (` leaves the state COMPILING | a compile error ends UNCOMPILED | not executed | SimulationHelper.CompileStuckAsWritten | SimulationHelper.CompileSettles |
| ui-ngx/src/app/modules/home/components/widget/lib/settings/threed/threed-simulation-widget-settings.component.ts:105-109 | `onSettingsSet` opens `models[0]`, a model, as the active script | settings with one model "chair": the editor opens "chair" with no body, and main.js is not open | open the first script | not executed | SimulationWidgetSettings.OpenFirstModelAsWritten | SimulationWidgetSettings.OpenedOnSet |
