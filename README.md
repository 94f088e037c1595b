# South Park walking tour: the orchestration core

The repository is a React/Three.js walking tour of South Park. It ships in
two variants: the newer one under `webMap/` and the older one under `src/`.
Each point of interest (POI) is a model in a 3-D scene. Picking one flies
the camera to it and opens an info panel with pictures, some of which play a
character clip. Above the rendering sits a small, deterministic
orchestration layer, and that layer is what this project models:

- **Intro.** The screens run intro, loading, intro audio, then scene. The
  scene reveal starts the birds and the camera descent. In the newer app
  the end of the descent sets the `introComplete` latch.
- **Selection session.** This covers the selected POI, the focus flag, the
  crab-people counter and its images, and close and Escape handling.
- **Audio.** There is one slot for the narrative clip plus the ambient
  birds track, reduced to playing, paused or absent.
- **Sniper sequence (newer app).** This covers the scope, the shot, the
  revive glow ramp, the church clip with its heavenly glow, and the
  external-URL "teleport". Each is a list of timers
  `(delay in ms, action)` that nothing ever cancels.
- **Per-model rules.** This covers click routing, hover glow, emissive and
  opacity precedence, and the hit box.
- **Data utilities.** These are the POI list filters, the picture-to-clip
  lookup, the bounded snowflake buffer, the fog-plane layout, the clamped
  per-frame ramps and the cloud layout with its wrap-around.

Each handler of `App.jsx` is a pure function from a snapshot of the
component's state to the next snapshot plus the timers it starts (modules
`WebAppSpec`, `LegacyAppSpec`). Classes (`WebApp.App`, `LegacyApp.App`) hold
that state in mutable fields; each method is proved to move the fields
exactly as its specification function says. The laws modules prove what the
handlers promise across events and timer runs. Per-frame component state
(hover intensity, blood-sphere scale, heavenly glow, light level, cloud
position, snowflake buffer) is a class with a frame method proved against a
step function. Lemmas prove that the step stays in range and reaches its
target. Random draws, `Math.tan`, frame times and window sizes are
parameters.

The modules follow the source:

| module | source |
|---|---|
| `Common` | shared records and helpers: the POI record, `Array.find`, the clamped step, the crab counter |
| `FocusPose` | the pose derivation in `handlePoiClick` of both `App.jsx` files, and the intro descent |
| `Narration` | the audio slot of both `App.jsx` files |
| `WebAppSpec`, `WebAppLaws`, `WebAppTimelines`, `WebAppFindings`, `WebApp` | `webMap/src/App.jsx` |
| `LegacyAppSpec`, `LegacyAppLaws`, `LegacyApp` | `src/App.jsx` |
| `Materials`, `WebModel` | `webMap/src/components/Models/Model.jsx` |
| `LegacyModel` | `src/components/Models/Model.jsx` |
| `WebScene`, `SceneFog` | `webMap/src/scenes/SouthParkScene.jsx` (the fog layout also for `src/`) |
| `LegacyScene` | `src/scenes/SouthParkScene.jsx` |
| `PoiList` | `src/components/UI/PoiList.jsx` |
| `InfoPanel` | `src/components/UI/InfoPanel.jsx` |
| `SnowSystem` | `src/components/Effects/SnowSystem.jsx` |
| `Clouds` | `webMap/src/components/Environment/Clouds.jsx` |

JavaScript's `undefined` is `Option.None`. A truthy optional boolean is
`Some(true)`. `Math.PI` is the literal `3.141592653589793`.

## Model

| member | source | states |
|---|---|---|
| Common.FindById | webMap/src/App.jsx:773-776 | `poiData.find` by id: `None` exactly when no record has the id, otherwise the first record that has it |
| Common.MoveToward | webMap/src/components/Models/Model.jsx:32-36 | a clamped step never passes the target: the result lies between the current value and the target, and it is either the target or exactly one step away from the start |
| Common.MoveFramesReachTarget | webMap/src/components/Models/Model.jsx:28-36 | repeated clamped steps land exactly on the target once the frames' total step covers the gap |
| Common.MoveFramesStayAtTarget | webMap/src/components/Models/Model.jsx:32-36 | a value already at its target stays there on every later frame |
| Common.CrabClicked | webMap/src/App.jsx:513-525 | one crab click raises the count by one, keeps the earlier images as a prefix and adds at most one (from the fifth click on), and keeps the invariant of one image per click beyond the fourth |
| Common.CrabClicksFromReset | webMap/src/App.jsx:513-525 | after n clicks from a reset the count is n and the images are the ones drawn from the fifth click on, in click order |
| Common.CrabClicksFrom | webMap/src/App.jsx:513-525 | from any consistent counter, n more clicks add n to the count and append the draws of the clicks that reach 5 or more |
| Common.CrabClickedConsistent | webMap/src/App.jsx:513-525 | a click keeps the invariant that the number of images is max(0, count - 4) |
| FocusPose.CameraHeight | webMap/src/App.jsx:357 | `cameraHeight \|\| 5`: a missing or zero height becomes 5, any other height is kept, and the result is never 0 |
| FocusPose.Focus | webMap/src/App.jsx:354-389 | the look-at point is on the vertical line through the anchor (`cameraTarget`, else `position`). The camera is at the absolute height `cameraHeight`, offset from the anchor along one horizontal axis. Without a tilt angle the look-at height is `targetHeight` (0 by default) |
| FocusPose.FocusGeometry | webMap/src/App.jsx:356-377 | the camera's horizontal distance from the look-at point is `cameraDistance` (5 when undefined); with a tilt angle the camera is distance * tan(angle * pi / 180) above the look-at point |
| FocusPose.FocusSides | webMap/src/App.jsx:360-371 | `'front'` puts the camera at -distance in z, `'right'` at +distance in x, `'left'` at -distance in x; unset, `'back'` or any other side at +distance in z |
| FocusPose.FocusFollowsAnchor | webMap/src/App.jsx:354 | moving the camera target shifts camera and look-at point horizontally by the same amount |
| FocusPose.FocusTween | webMap/src/App.jsx:391-418 | the focus move lasts 2.2 s in scope mode and 1.5 s otherwise; it ends exactly at the focus pose unless it is the sparrow prince in scope mode, whose pose stays within 0.2 of it on every axis, and the look-at always stays on the anchor's vertical line |
| FocusPose.LegacyFocusTween | src/App.jsx:228-285 | the older app moves to the same pose as the newer app's non-scope move, always over 1.5 s |
| FocusPose.DescentStaysBetween | webMap/src/App.jsx:248-262 | for progress p in [0, 1] each of the six coordinates of the camera and its look-at point lies between its start and end value, and a camera that loses height is never below the straight-line path (x and z move with p, heights with p^5) |
| FocusPose.DescentEndpoints | webMap/src/App.jsx:239-262 | the descent starts at the start pose (p = 0) and ends at the overview pose (p = 1) |
| FocusPose.DescentVerticalLags | webMap/src/App.jsx:254 | for p in [0, 1], 0 <= p^5 <= p: the vertical progress never runs ahead of the horizontal |
| Narration.PausedBirds | webMap/src/App.jsx:123-127 | `stopBirdsAudio`: afterwards the birds are not playing, and a birds track exists exactly when it did before |
| Narration.ResumedBirds | webMap/src/App.jsx:129-135 | `resumeBirdsAudio`: the birds play exactly when a track exists; only a paused track changes, and pausing afterwards gives what pausing the original gives |
| Narration.Played | webMap/src/App.jsx:138-161 | starting a clip leaves exactly that clip in the slot, at volume 0.8 for a "chinpokomon" path and 0.4 otherwise; the previous clip is gone and the birds are not playing |
| Narration.Stopped | webMap/src/App.jsx:163-171 | stopping empties the slot; when resuming, the birds play exactly when they exist, otherwise they are left as they were |
| Narration.Finished | webMap/src/App.jsx:157-160 | a clip's `onended` is a stop with resumption (`Stopped(d, true)`) when a clip is in the slot, and nothing otherwise; the birds either stay or play |
| Narration.ChinpokomonIsLoud | webMap/src/App.jsx:148-152 | the chinpokomon clip plays at 0.8 |
| Narration.QuietWithoutC | webMap/src/App.jsx:148-152 | a path without the letter c cannot contain "chinpokomon" and plays at 0.4 |
| Narration.PlayThenStop | webMap/src/App.jsx:138-171 | a clip started then stopped leaves the slot empty; with resume the birds come back if they exist, without it they stay paused |
| Narration.LatestClipWins | webMap/src/App.jsx:138-146 | at most one clip: starting b after a is the same as starting b alone |
| Narration.AudioDeck.constructor | webMap/src/App.jsx:120-121 | both audio refs start empty |
| Narration.AudioDeck.StartBirds | webMap/src/App.jsx:321-325 | the new birds track plays; the clip slot is untouched |
| Narration.AudioDeck.PauseBirds | webMap/src/App.jsx:123-127 | the refs change exactly as `PausedBirds` says |
| Narration.AudioDeck.ResumeBirds | webMap/src/App.jsx:129-135 | the refs change exactly as `ResumedBirds` says |
| Narration.AudioDeck.Play | webMap/src/App.jsx:138-161 | the refs change exactly as `Played` says |
| Narration.AudioDeck.Stop | webMap/src/App.jsx:163-171 | the refs change exactly as `Stopped` says |
| Narration.AudioDeck.Finish | webMap/src/App.jsx:157-160 | the refs change exactly as `Finished` says |
| Materials.Rewritten | webMap/src/components/Models/Model.jsx:38-51 | the traverse callback keeps which nodes are meshes and which carry a material; only a writable mesh gets the callback's material, every other node is left as it was |
| Materials.RewrittenAll | webMap/src/components/Models/Model.jsx:38-51 | a traverse keeps the node count and, node by node, the mesh/material shape; non-writable nodes are untouched and each writable one gets the callback applied |
| Materials.Traverse | webMap/src/components/Models/Model.jsx:38-51 | the in-place loop over the node array leaves exactly `RewrittenAll` of the old contents |
| Materials.RewriteKeepsShape | webMap/src/components/Models/Model.jsx:38-51 | a rewrite keeps which nodes are meshes and which have materials, and leaves other nodes unchanged |
| WebModel.HandleClick | webMap/src/components/Models/Model.jsx:69-80 | the click opens the link only on the selected POI with a URL and the handler set, and then never picks; with `onClick` unset or a non-interactive POI it never picks; a pick reports the model's own POI |
| WebModel.ExternalWins | webMap/src/components/Models/Model.jsx:72-75 | the external-URL check comes first: it opens the URL even when `onClick` is null or the POI is non-interactive |
| WebModel.PrimitiveHandlers | webMap/src/components/Models/Model.jsx:100-102 | the model mesh's hover handlers come as a pair and only with its click handler; it never takes clicks together with the hit box, and one of the two takes clicks unless `hitboxScale` is set without `cameraTarget` |
| WebModel.Hitbox | webMap/src/components/Models/Model.jsx:105-119 | the extra hit box exists exactly when `hitboxScale` and `cameraTarget` are both set; in the world it sits at cameraTarget + (5, 31, -1), takes clicks, and has hover handlers (as a pair) only when the POI is interactive |
| WebModel.ClickReachable | webMap/src/components/Models/Model.jsx:100-119 | exactly one of the model mesh and the hit box takes clicks, unless `hitboxScale` is set without a `cameraTarget` (then neither does); the hit box's world position is cameraTarget + (5, 31, -1) |
| WebModel.PointerOver | webMap/src/components/Models/Model.jsx:82-88 | pointer-over never clears hover, leaves it unchanged on a non-interactive POI or before the intro, and sets it otherwise |
| WebModel.HoverStep | webMap/src/components/Models/Model.jsx:25-36 | a frame leaves a non-interactive model's intensity alone; otherwise it never moves the intensity away from the target, and an intensity in [0, 0.5] stays there |
| WebModel.HoverSettles | webMap/src/components/Models/Model.jsx:28-36 | the hover intensity reaches its target once 4 * delta per frame covers the gap |
| WebModel.EmissiveFor | webMap/src/components/Models/Model.jsx:38-51 | only the sparrow prince can glow gold, at its glow intensity while reviving; otherwise the glow is the hover intensity above 0.01 and stays within [0, 0.5] when the hover does, else black at 0 |
| WebModel.OpacityRules | webMap/src/components/Models/Model.jsx:54-67 | a shot sparrow prince is transparent at 0.4, an unshot one opaque at 1; other POIs' materials are untouched, and emissive settings never change |
| WebModel.ModelView.constructor | webMap/src/components/Models/Model.jsx:6-11 | a model starts unhovered at hover intensity 0 |
| WebModel.ModelView.HandlePointerOver | webMap/src/components/Models/Model.jsx:82-88 | hover becomes `PointerOver` of the old hover; the intensity is not touched |
| WebModel.ModelView.HandlePointerOut | webMap/src/components/Models/Model.jsx:90-93 | pointer-out always clears hover |
| WebModel.ModelView.Frame | webMap/src/components/Models/Model.jsx:25-52 | for an interactive model one frame steps the intensity by `HoverStep` and rewrites every material's emissive as `EmissiveFor` says; a non-interactive model is left unchanged; the intensity stays in [0, 0.5] |
| WebModel.ModelView.ApplyOpacity | webMap/src/components/Models/Model.jsx:54-67 | the opacity effect rewrites every material as `OpacityFor` says, and does nothing for a non-interactive model |
| LegacyModel.ClickIsNewerWithoutLinks | src/components/Models/Model.jsx:39-45 | the older `handleClick` reports the POI exactly when the newer model with no external-link handler picks it, and the newer one then never opens a link |
| LegacyModel.HoverHandlers | src/components/Models/Model.jsx:65-67 | hover handlers are attached exactly to interactive POIs, which are exactly those a single pointer-over hovers |
| LegacyModel.ModelView.constructor | src/components/Models/Model.jsx:8 | a model starts unhovered |
| LegacyModel.ModelView.HandlePointerOver | src/components/Models/Model.jsx:47-53 | pointer-over sets hover only for an interactive POI |
| LegacyModel.ModelView.HandlePointerOut | src/components/Models/Model.jsx:55-58 | pointer-out always clears hover |
| LegacyModel.ModelView.ApplyHover | src/components/Models/Model.jsx:23-37 | the hover effect rewrites every material as `HoverEmissive` says; a non-interactive POI's materials are left unchanged |
| LegacyModel.NeverHoveredIfInert | src/components/Models/Model.jsx:47-58 | a non-interactive model is never hovered, whatever the pointer does |
| LegacyModel.HoveredIffLastOver | src/components/Models/Model.jsx:47-58 | an interactive model is hovered exactly when the last pointer event was an over |
| LegacyModel.TintOfWritable | src/components/Models/Model.jsx:26-35 | each mesh material gets the hover colour and intensity and keeps its transparency and opacity |
| LegacyScene.Models | src/scenes/SouthParkScene.jsx:93-101 | one model per POI in registry order; with no selection none is marked, and with distinct ids at most one is |
| LegacyScene.SceneClickSelects | src/scenes/SouthParkScene.jsx:93-101 | every model gets the click handler, so a click on the model of POI i reports POI i exactly when it is interactive, and in the scene that report selects POI i |
| LegacyScene.OneSelectedModel | src/scenes/SouthParkScene.jsx:98 | with distinct ids at most one model is selected, and a selected model means there is a selection |
| PoiList.Filter | src/components/UI/PoiList.jsx:8-23 | a filter holds exactly the input's elements that pass the test, and is no longer than the input |
| PoiList.FilterConcat | src/components/UI/PoiList.jsx:8-23 | filtering distributes over concatenation, so each list keeps `poiData` order |
| PoiList.ListsExactly | src/components/UI/PoiList.jsx:8-23 | houses are the interactive POIs of category `'house'`. Buildings are the interactive POIs of the five building categories, except busstop, playground and starkspond. Landmarks are the four landmark ids, with no interactive check |
| PoiList.HousesBuildingsDisjoint | src/components/UI/PoiList.jsx:8-20 | no POI is both a house and a building, and an excluded id never appears among the buildings |
| PoiList.Items | src/components/UI/PoiList.jsx:37-57 | one item per listed POI in order; with no selection none is marked, with distinct ids at most one is, and a selected POI of the list marks a row |
| PoiList.ClickRowReportsPoi | src/components/UI/PoiList.jsx:31-33 | clicking row i of a list reports the i-th POI, and that row is highlighted exactly when its POI has the selected id |
| PoiList.FilterKeepsDistinct | src/components/UI/PoiList.jsx:8-23 | filtering a registry with distinct ids keeps them distinct |
| PoiList.AtMostOneMarked | src/components/UI/PoiList.jsx:48 | in any list of a registry with distinct ids, at most one item is marked selected |
| PoiList.Sidebar.constructor | src/components/UI/PoiList.jsx:6 | the list starts open |
| PoiList.Sidebar.Toggle | src/components/UI/PoiList.jsx:59-66 | the toggle flips open and closed |
| PoiList.Sidebar.Sections | src/components/UI/PoiList.jsx:37-57 | a closed list shows nothing; an open one shows the HOUSES, BUILDINGS and LANDMARKS sections in that order, every row a registry POI, no POI both a house and a building |
| InfoPanel.LastSegment | src/components/UI/InfoPanel.jsx:95 | `split('/').pop()`: the longest suffix of the path without '/', preceded by '/' unless it is the whole path |
| InfoPanel.LastSegmentOfJoin | src/components/UI/InfoPanel.jsx:95 | the file name of dir + "/" + name is name |
| InfoPanel.MappedPictureClick | src/components/UI/InfoPanel.jsx:94-100 | clicking a mapped picture anywhere under any directory plays its clip |
| InfoPanel.ChinpokomonClipLoud | src/components/UI/InfoPanel.jsx:63 | the Chinpokomon picture's clip plays at the loud volume 0.8 |
| InfoPanel.Render | src/components/UI/InfoPanel.jsx:84-255 | no POI renders nothing; otherwise one tile per image in order, the audio marker on exactly the tiles whose click plays a clip (that clip being the table's), no empty tile unless the image field is a list, and the crab grid exactly in the crab lair with crab images |
| InfoPanel.PanelState.constructor | src/components/UI/InfoPanel.jsx:76 | the local crab counter starts at 0 |
| InfoPanel.PanelState.PoiChanged | src/components/UI/InfoPanel.jsx:78-82 | a change to a non-null POI resets the counter; a change to null leaves it |
| InfoPanel.PanelState.ClickImage | src/components/UI/InfoPanel.jsx:94-109 | returns the `ImageClicked` decision and counts the click exactly on a crab POI |
| SnowSystem.NewFlake | src/components/Effects/SnowSystem.jsx:59-66 | with draws in [0, 1) a new flake starts with x and z in [-50, 50) and y in [50, 70) |
| SnowSystem.Spawned | src/components/Effects/SnowSystem.jsx:55-70 | a spawn keeps the old flakes in front in order, adds at most one, and never takes a buffer within the 1200 cap past it |
| SnowSystem.Cleaned | src/components/Effects/SnowSystem.jsx:72-74 | `slice(-1200)`: the newest min(length, 1200) flakes, as a suffix of the buffer |
| SnowSystem.CleanupLaws | src/components/Effects/SnowSystem.jsx:72-74 | cleanup changes nothing within the cap, is idempotent and never leaves more than 1200 |
| SnowSystem.RunBounded | src/components/Effects/SnowSystem.jsx:49-80 | however spawn and cleanup ticks interleave, a buffer within the cap stays within it, and the flakes it held stay at its front in order |
| SnowSystem.Snow.constructor | src/components/Effects/SnowSystem.jsx:45 | the buffer starts empty with snow off |
| SnowSystem.Snow.SetActive | src/components/Effects/SnowSystem.jsx:49-53 | turning snow off empties the buffer and stops the intervals; turning it on starts them and keeps the buffer |
| SnowSystem.Snow.SpawnTick | src/components/Effects/SnowSystem.jsx:55-70 | a running spawn tick changes the buffer exactly as `Spawned` says; the cap invariant is kept |
| SnowSystem.Snow.CleanupTick | src/components/Effects/SnowSystem.jsx:72-74 | a running cleanup tick changes the buffer exactly as `Cleaned` says; the cap invariant is kept |
| SnowSystem.Snow.Rendered | src/components/Effects/SnowSystem.jsx:82-90 | nothing is drawn while snow is off, every flake while on, and never more than 1200 in a valid state |
| SceneFog.FogBoxOf | webMap/src/scenes/SouthParkScene.jsx:148-156 | the box is inset 44/39 in x and 0/39 in z and lies inside the bounds when the map is at least 83 wide and 39 deep; the planes' height is 17.5 below the floor |
| SceneFog.FogPlanes | webMap/src/scenes/SouthParkScene.jsx:141-209 | no bounds give no planes; bounds give exactly four: left, right, front, back. The older scene (`src/scenes/SouthParkScene.jsx`) builds the same planes |
| SceneFog.FogEnclosesBox | webMap/src/scenes/SouthParkScene.jsx:148-206 | the planes close the box: left and right stand on its x edges and span its z extent about the midpoint; front and back stand on its z edges and span its x extent; all are 25 high at the same height |
| SceneFog.FogFacesInward | webMap/src/scenes/SouthParkScene.jsx:180-206 | opposite planes are turned half a turn apart |
| SceneFog.FogWidthsPositive | webMap/src/scenes/SouthParkScene.jsx:148-155 | a map more than 83 units wide and 39 deep gives every plane a positive width |
| WebScene.PropsFor | webMap/src/scenes/SouthParkScene.jsx:215-228 | a model is selected exactly when its id is the selected id; only the sparrow prince gets the shot, revive and glow props, so no other model can glow gold, and a reviving sparrow glows gold at the scene's level whatever the hover |
| WebScene.Models | webMap/src/scenes/SouthParkScene.jsx:215-228 | one model per POI in registry order, all with the scene's click handler and intro flag; none marked without a selection, at most one with distinct ids, and only the sparrow prince's carries the revive flag |
| WebScene.OnlySparrowRevives | webMap/src/scenes/SouthParkScene.jsx:220-225 | whatever the scene's flags, a model other than the sparrow prince shows only the hover glow and keeps its opacity |
| WebScene.SparrowGlowsWhileReviving | webMap/src/scenes/SouthParkScene.jsx:220-225 | while reviving, the sparrow prince glows gold at the scene's glow level, whatever its hover |
| WebScene.BloodPlacement | webMap/src/scenes/SouthParkScene.jsx:211-233 | nothing is drawn unless the effect is on and the registry has the sparrow prince; then the sphere sits on the ground under its camera target, and the render throws exactly when that record has no camera target |
| WebScene.BloodStep | webMap/src/scenes/SouthParkScene.jsx:12-16 | a frame grows the sphere by 20 * delta, capped at 2; a scale in [0.1, 2] stays there and never shrinks |
| WebScene.BloodStepApproaches | webMap/src/scenes/SouthParkScene.jsx:12-16 | the growth is the clamped approach to 2 |
| WebScene.BloodSphere.constructor | webMap/src/scenes/SouthParkScene.jsx:10 | the sphere starts at scale 0.1 |
| WebScene.BloodSphere.Frame | webMap/src/scenes/SouthParkScene.jsx:12-16 | one frame sets the scale to `BloodStep` of the old one and keeps it in [0.1, 2] |
| WebScene.BloodGrowsFull | webMap/src/scenes/SouthParkScene.jsx:12-16 | the sphere is at full size 2 once the frames' growth covers the gap |
| WebScene.BloodFramesAreMoves | webMap/src/scenes/SouthParkScene.jsx:12-16 | a run of growth frames is a run of clamped approaches to 2 |
| WebScene.GlowStepsApproach | webMap/src/scenes/SouthParkScene.jsx:33-45 | within range, the light and beam ramps are clamped approaches: to 10 at 4 per second and 0.7 at 0.7 per second while lit, and to 0 at 3 and 0.3 per second while fading |
| WebScene.HeavenlyGlow.constructor | webMap/src/scenes/SouthParkScene.jsx:28-29 | the light and beam start dark |
| WebScene.HeavenlyGlow.Frame | webMap/src/scenes/SouthParkScene.jsx:33-45 | one frame steps both values, keeps them within [0, 10] and [0, 0.7], and never raises them while fading or lowers them while lit |
| WebScene.FadeReachesDark | webMap/src/scenes/SouthParkScene.jsx:33-36 | a fading light is out once 3 * delta per frame covers its intensity |
| WebScene.FadeFramesAreMoves | webMap/src/scenes/SouthParkScene.jsx:33-36 | a run of fading frames is a run of clamped approaches to 0 |
| Clouds.CloudAt | webMap/src/components/Environment/Clouds.jsx:57-66 | with draws in [0, 1), cloud i starts with x in [-120 + i * spacing, +3), y in [25, 45), z in [-80, 80), scale in [4, 9) and speed in [0.015, 0.04) |
| Clouds.Layout | webMap/src/components/Environment/Clouds.jsx:51-69 | the layout loop produces 60 clouds with snow and 30 without, cloud i being `CloudAt` of its slot and the i-th draws |
| Clouds.Spacing | webMap/src/components/Environment/Clouds.jsx:52 | the slot width (4.5 with snow, 8 without) is wider than the 3-unit jitter, which `LayoutOrdered` needs |
| Clouds.LayoutOrdered | webMap/src/components/Environment/Clouds.jsx:56-67 | the jitter is smaller than the spacing, so the clouds start in key order from west to east |
| Clouds.LateCloudsWrapAtOnce | webMap/src/components/Environment/Clouds.jsx:23-26 | a cloud laid out past x = 100 jumps to -120 on its first frame |
| Clouds.Drifted | webMap/src/components/Environment/Clouds.jsx:23-26 | a frame moves x east by speed * delta * 60 or wraps it to -120; x never exceeds 100 afterwards, and stays at least -120 when it started there |
| Clouds.CloudMover.constructor | webMap/src/components/Environment/Clouds.jsx:39 | the group starts at the cloud's laid-out position |
| Clouds.CloudMover.Frame | webMap/src/components/Environment/Clouds.jsx:20-27 | one frame changes only x, as `Drifted` says, and keeps the cloud in its [-120, 100] band |
| Clouds.BlobCount | webMap/src/components/Environment/Clouds.jsx:8 | one to three blobs per cloud |
| Clouds.Centred | webMap/src/components/Environment/Clouds.jsx:12-14 | `(Math.random() - 0.5) * k` lies within k / 2 of 0 |
| Clouds.BlobScale | webMap/src/components/Environment/Clouds.jsx:16 | a blob is 0.6 to 1.2 times the cloud's scale |
| Clouds.BlobOf | webMap/src/components/Environment/Clouds.jsx:10-17 | a blob sits within half the cloud's scale of its centre (a quarter vertically) and is 0.6 to 1.2 times its scale |
| Clouds.Blobs | webMap/src/components/Environment/Clouds.jsx:9-18 | one blob per draw, in order, every blob of a unit draw within half the cloud's size of its centre (a quarter vertically) and 0.6 to 1.2 times its size |
| WebAppSpec.CrabImageFrom | webMap/src/App.jsx:518-523 | a crab image is 150 to 250 px, turned -20 to 20 degrees, and placed so that a 200 px box stays inside the window |
| WebAppSpec.GlowTimeline | webMap/src/App.jsx:785-797 | the revive interval makes 61 timers (their delays and actions are stated by `WebAppTimelines.GlowTimelineSorted`) |
| WebAppSpec.PoiClick | webMap/src/App.jsx:330-419 | any pick selects the POI and keeps the screen, the intro latch, `sparrowShot` and the curtain; re-picking the selected POI starts no timers and keeps the crab state and the audio; another POI is focused with a fresh crab state and no clip |
| WebAppSpec.FreshPick | webMap/src/App.jsx:336-419 | a new pick selects and focuses, clears the crab state and the clip, makes the Escape listener's shot flag current and keeps screen, latch, scope and curtain; the 1 s scope timer starts exactly for the sparrow prince in scope mode, the zoom-limit timer (1.5 s, 2.2 s in scope mode) exactly with a camera |
| WebAppSpec.CloseSeeing | webMap/src/App.jsx:421-463 | a close whose closure sees shot flag `shot` starts no timers, clears selection, focus, crab state, clip, scope, heavenly glow and church clip, leaves the birds alone when `shot` holds and plays them (when they exist) otherwise, and keeps `sparrowShot`, the screen and the latch |
| WebAppSpec.Close | webMap/src/App.jsx:421-463 | the close button starts no timers, clears the selection and resumes the birds exactly when the sparrow prince is alive; after closing a selection the Escape listener's flag is current |
| WebAppSpec.PressKeyAsWritten | webMap/src/App.jsx:198-206 | only Escape with a selection changes anything: it closes, resuming the birds by the listener's possibly stale flag; no timers |
| WebAppSpec.PressKey | webMap/src/App.jsx:198-206 | only Escape with a selection changes anything: it closes, resuming the birds by the current `sparrowShot`; no timers |
| WebAppSpec.JesusClickAsWritten | webMap/src/App.jsx:173-196 | as written the church clip starts with the heavenly glow and no character clip, and the birds play under it exactly when the sparrow prince is alive and there is a birds track |
| WebAppSpec.JesusClickFixed | webMap/src/App.jsx:173-196 | as intended the church clip starts with the heavenly glow and no character clip, and the birds never play under it (a track stays a track); selection and `sparrowShot` are kept |
| WebAppSpec.ChurchFinished | webMap/src/App.jsx:184-195 | when the church clip ends the glow starts fading, goes out after 2 s, and the birds resume unless the sparrow prince was shot at the click; with no clip playing nothing happens |
| WebAppSpec.ExternalUrlOutcome | webMap/src/App.jsx:465-498 | with a camera, a link click flies up over 2 s with zoom limit 3000 and schedules the URL for 2.8 s, opening nothing at once; every timer fires after the 2 s flight; without a camera nothing happens |
| WebAppSpec.ShootTimeline | webMap/src/App.jsx:905-927 | the shot starts four timers, all between 200 and 1500 ms, the hit landing at 500 and the scope dropping at 1500 |
| WebAppSpec.KillOrReviveOutcome | webMap/src/App.jsx:753-818 | revive sets reviving at glow 4, un-shoots at 500 ms and ends with the birds at 1 s; kill raises the curtain, raises the scope at 1 s whenever the sparrow prince is selected or listed, and ends with the curtain lifting at 1.5 s; both keep the screen and the latch |
| WebAppSpec.Available | webMap/src/App.jsx:584-975 | no click-raised event is available while the kill curtain or the white flash covers the page; a key press always is, and the end of the character clip exactly while one plays |
| WebAppSpec.Handle | webMap/src/App.jsx:584-975 | an event whose control is hidden or covered changes nothing and starts no timer, in particular every click under the curtain or the flash |
| WebAppSpec.Fire | webMap/src/App.jsx:186-927 | host timer-queue semantics (every `setTimeout` of the file): only the reveal starts timers of its own; no other callback changes the screen or the selection; the reveal shows the scene with the birds playing; the intro latch is set exactly by the descent's completion |
| WebAppSpec.ByDelay | webMap/src/App.jsx:186-927 | host timer-queue semantics (every `setTimeout` of the file): the queue holds as many timers as were started; its partner `WebAppTimelines.ByDelaySortedPermutation` proves it ordered by delay and a permutation of the started timers, and `WebAppTimelines.ByDelayOfSorted` that timers started in delay order keep it |
| WebAppSpec.DueBy | webMap/src/App.jsx:186-927 | host timer-queue semantics (every `setTimeout` of the file): when every queued timer is later than t, none is due by t; its partner `WebAppTimelines.DueByPrefix` proves the due timers are exactly the queue's prefix with delays up to t |
| WebAppSpec.Elapse | webMap/src/App.jsx:186-927 | host timer-queue semantics (every `setTimeout` of the file): until the first started timer is due, nothing has changed; its partners `WebAppTimelines.DueByPrefix` and `WebAppTimelines.ElapseOneDue` show that once a timer is due, it has fired |
| WebAppTimelines.ElapseOneDue | webMap/src/App.jsx:186-927 | host timer-queue semantics (every `setTimeout` of the file): a single timer other than the reveal has fired, and done exactly its callback, once its delay has passed |
| WebAppSpec.LightStep | webMap/src/App.jsx:53-67 | a lights frame never moves away from the target (0.3 dimmed, 1.2 otherwise) and either reaches it or moves by exactly 2·delta |
| WebAppLaws.ReselectKeepsSession | webMap/src/App.jsx:331-334 | picking the selected POI again only stores the record: no timers, and crab state, audio, focus and camera are untouched |
| WebAppLaws.NewSelectionResets | webMap/src/App.jsx:336-419 | picking another POI selects and focuses it, clears the crab state and the clip, and resumes the birds unless the sparrow prince is shot. With a camera it starts the focus move. The scope timer (1 s) starts exactly for the sparrow prince in scope mode, and the zoom-limit timer exactly when there is a camera. The screen, the intro latch, `sparrowShot` and the scope are kept |
| WebAppLaws.PoiClickFacts | webMap/src/App.jsx:330-419 | any pick keeps the state invariant, the screen and the intro latch, and starts only scope and focus timers |
| WebAppLaws.CloseResets | webMap/src/App.jsx:421-463 | close clears selection, focus, crab state, clip, scope, heavenly glow and church clip. With a camera it sets the zoom limit to 40 and flies to the overview ((0, 40, 50) looking at the origin) over 1.5 s. It starts no timers and keeps `sparrowShot` and the intro latch |
| WebAppLaws.CloseIdempotent | webMap/src/App.jsx:421-463 | closing twice is closing once |
| WebAppLaws.EscapeClosesIffSelected | webMap/src/App.jsx:198-206 | a key press changes the state exactly when it is Escape with a POI selected, and then it is the close; it starts no timers |
| WebAppLaws.CrabEventsCount | webMap/src/App.jsx:513-525 | while the panel takes clicks (scene, a selection, no overlay), a run of crab clicks changes only the crab state, exactly as the clicks fold |
| WebAppLaws.CrabAfterSelection | webMap/src/App.jsx:513-525 | from a fresh selection with the panel taking clicks, after n crab clicks the count is n and there are max(0, n - 4) images, those of the fifth click on |
| WebAppLaws.InitialConsistent | webMap/src/App.jsx:94-114 | the initial state satisfies the invariant (focus mirrors selection, images match the count) |
| WebAppLaws.GlowTimelineActions | webMap/src/App.jsx:785-797 | the revive interval only sets the glow level and ends reviving |
| WebAppLaws.Revive | webMap/src/App.jsx:754-801 | revive focuses the sparrow prince when the registry has one and glows at 4. Its last 63 timers are: un-shoot at 500 ms, the 61 glow timers, birds at 1 s. It keeps the invariant, the screen and the intro latch |
| WebAppLaws.ReviveTimers | webMap/src/App.jsx:781-801 | the revive timers end with un-shoot, the glow ramp and the birds, and never complete the intro |
| WebAppLaws.ReviveState | webMap/src/App.jsx:773-779 | revive leaves the sparrow reviving at glow 4 and keeps the invariant |
| WebAppLaws.ReviveFocuses | webMap/src/App.jsx:773-776 | revive selects the registry's sparrow prince |
| WebAppLaws.KillWhileSelected | webMap/src/App.jsx:803-815 | killing while the sparrow prince is selected only starts the black transition, with the scope at 1 s and the transition's end at 1.5 s |
| WebAppLaws.KillPicks | webMap/src/App.jsx:803-815 | otherwise kill starts the transition and focuses the sparrow prince in scope mode, which raises the scope at 1 s; the last timer ends the transition at 1.5 s, and without a sparrow prince only that happens |
| WebAppLaws.KillOrReviveFacts | webMap/src/App.jsx:751-817 | the kill/revive button keeps the invariant, the screen and the intro latch, and never completes the intro |
| WebAppLaws.HandleKeepsConsistent | webMap/src/App.jsx:330-525 | every input event keeps the invariant |
| WebAppLaws.OtherEventsKeepConsistent | webMap/src/App.jsx:421-511 | the events that neither pick nor count crabs keep the invariant |
| WebAppLaws.FireKeepsConsistent | webMap/src/App.jsx:208-927 | every timer keeps the invariant |
| WebAppLaws.RunKeepsConsistent | webMap/src/App.jsx:208-927 | any run of timers keeps the invariant |
| WebAppLaws.ScenePickGated | webMap/src/App.jsx:655 | a scene click does nothing while the scope is up, before the intro completes, or while the kill curtain (849-860) or the white flash (584-594) covers the canvas, and is a pick otherwise |
| WebAppLaws.ListPickGated | webMap/src/App.jsx:962 | a list pick does nothing unless the list is shown (scene and intro complete) and no overlay covers it, and is a pick otherwise |
| WebAppLaws.OverlaysSwallowClicks | webMap/src/App.jsx:849-860 | while the kill curtain or the white flash is up, every click-raised event (scene, list, panel, snow, kill/revive, shoot, links) changes nothing and starts no timer, while Escape, a window listener, still closes the panel |
| WebAppLaws.EventsKeepIntro | webMap/src/App.jsx:265-267 | no input event changes the intro latch or schedules its completion |
| WebAppLaws.StartupKeepsIntro | webMap/src/App.jsx:301-328 | the startup events leave the latch alone |
| WebAppLaws.ClosingKeepsIntro | webMap/src/App.jsx:421-463 | close and key presses leave the latch alone |
| WebAppLaws.EffectsKeepIntro | webMap/src/App.jsx:465-511 | the church end, the external URL and the shot leave the latch alone |
| WebAppLaws.ExternalKeepsIntro | webMap/src/App.jsx:465-511 | the external-URL sequence leaves the latch alone |
| WebAppLaws.ShootKeepsIntro | webMap/src/App.jsx:908-928 | the shot leaves the latch alone |
| WebAppLaws.ChurchKeepsIntro | webMap/src/App.jsx:184-193 | the church clip's end leaves the latch alone |
| WebAppLaws.PanelKeepsIntro | webMap/src/App.jsx:138-196 | the panel's events and the snow toggle leave the latch alone |
| WebAppLaws.IntroLatch | webMap/src/App.jsx:265-267 | after a timer the latch is set exactly when it was set before or the timer is the descent's completion: once set it stays set |
| WebAppLaws.IntroTimerOnlyFromReveal | webMap/src/App.jsx:208-271 | the only timer that schedules the intro's completion is the scene reveal with a camera |
| WebAppLaws.RevealTimers | webMap/src/App.jsx:238-269 | with a camera the reveal schedules the descent at 1.5 s and its completion at 6 s; without one, nothing |
| WebAppLaws.FireStartsNothing | webMap/src/App.jsx:186-927 | host timer-queue semantics (every `setTimeout` of the file): no timer callback other than the reveal starts timers |
| WebAppTimelines.InsertSorted | webMap/src/App.jsx:186-927 | host timer-queue semantics (every `setTimeout` of the file): inserting into the delay-ordered timer queue keeps it ordered |
| WebAppTimelines.InsertAdds | webMap/src/App.jsx:186-927 | host timer-queue semantics (every `setTimeout` of the file): inserting adds exactly the new timer to the queue |
| WebAppTimelines.InsertAtEnd | webMap/src/App.jsx:186-927 | host timer-queue semantics (every `setTimeout` of the file): a timer not earlier than every queued one goes last, so equal delays fire in start order |
| WebAppTimelines.ByDelaySortedPermutation | webMap/src/App.jsx:186-927 | host timer-queue semantics (every `setTimeout` of the file): the firing order is ordered by delay and a permutation of the started timers |
| WebAppTimelines.ByDelayOfSorted | webMap/src/App.jsx:785-797 | timers started in delay order fire in that order |
| WebAppTimelines.DueByPrefix | webMap/src/App.jsx:186-927 | host timer-queue semantics (every `setTimeout` of the file): the timers due by t are exactly the queue's prefix with delays up to t |
| WebAppTimelines.ShootOrder | webMap/src/App.jsx:916-927 | the shot's timers fire as blood on (200 ms), shot (500), blood off (1300), scope off (1500), although started in another order |
| WebAppTimelines.ShootAt | webMap/src/App.jsx:916-927 | the state t ms after the shot: nothing before 200, blood from 200, also shot from 500, blood gone from 1300, scope down from 1500 |
| WebAppTimelines.ShootBlood | webMap/src/App.jsx:916-918 | the first shot timer shows the blood |
| WebAppTimelines.ShootHit | webMap/src/App.jsx:922-924 | the second marks the sparrow prince shot |
| WebAppTimelines.ShootBloodGone | webMap/src/App.jsx:919-921 | the third hides the blood |
| WebAppTimelines.ShootScopeGone | webMap/src/App.jsx:925-927 | the fourth lowers the scope |
| WebAppTimelines.GlowLevelRange | webMap/src/App.jsx:790 | the glow 4 * (1 - k / 60) is in [0, 4], starts at 4 and reaches 0 at tick 60 |
| WebAppTimelines.GlowNonIncreasing | webMap/src/App.jsx:790 | the glow never rises from tick to tick |
| WebAppTimelines.GlowTimelineSorted | webMap/src/App.jsx:785-797 | tick i fires at 100 * (i + 1) ms; the last tick sets 0 at 6000 ms and reviving ends at that moment |
| WebAppTimelines.GlowTicks | webMap/src/App.jsx:788-791 | after k ticks the glow is the k-th level and nothing else has changed |
| WebAppTimelines.GlowAt | webMap/src/App.jsx:785-797 | t ms into the revive, the glow is untouched before 100 ms, at level t / 100 until 6 s, and 0 with reviving over from 6 s |
| WebAppTimelines.GlowBefore | webMap/src/App.jsx:785-788 | before the first tick nothing has changed |
| WebAppTimelines.GlowDuring | webMap/src/App.jsx:788-791 | between the first and last tick the glow is the level of the latest tick |
| WebAppTimelines.GlowAfter | webMap/src/App.jsx:792-796 | from 6 s on the glow is 0 and reviving is over |
| WebAppTimelines.ExternalFlash | webMap/src/App.jsx:485-486 | the launch's end flashes the screen |
| WebAppTimelines.ExternalOpen | webMap/src/App.jsx:487-488 | 800 ms later the URL is opened |
| WebAppTimelines.ExternalReset | webMap/src/App.jsx:489-495 | 500 ms after that the flash ends and the camera is back at the overview with zoom limit 40 |
| WebAppTimelines.ExternalAt | webMap/src/App.jsx:476-498 | the state t ms after the click: unchanged before 2 s, flashing from 2 s, URL opened from 2.8 s, reset from 3.3 s |
| WebAppTimelines.ScopeAfterClose | webMap/src/App.jsx:806-809 | timers outlive close: kill with the sparrow prince selected, and the close button is swallowed by the curtain, but Escape (a window keydown) closes the panel; the scope still comes up at 1 s over an empty selection |
| WebAppTimelines.FocusLimitAfterClose | webMap/src/App.jsx:405-407 | a pick then a close still sets the zoom limit to 15 at 1.5 s, over the overview with no selection |
| WebAppTimelines.LightsStayInRange | webMap/src/App.jsx:53-67 | the scene lights stay within [0.3, 1.2] |
| WebAppTimelines.LightsReachTarget | webMap/src/App.jsx:53-67 | the lights reach 0.3 (dimmed) or 1.2 once 2 * delta per frame covers the gap |
| WebAppFindings.JesusBirdsPlayAsWritten | webMap/src/App.jsx:173-196 | as written, the Jesus click with the sparrow prince alive leaves the birds playing under the church clip |
| WebAppFindings.JesusAgreeWhenShot | webMap/src/App.jsx:173-196 | with the sparrow prince shot, the as-written and corrected clicks agree |
| WebAppFindings.JesusClickQuiet | webMap/src/App.jsx:173-196 | corrected: the birds are silent and the clip slot empty while the church clip plays. When the clip ends, the glow fades, goes out 2 s later, and the birds come back exactly when the sparrow prince was alive at the click and a birds track exists |
| WebAppFindings.EscapeResumesAsWritten | webMap/src/App.jsx:198-206 | as written, an Escape listener that saw the sparrow prince alive resumes birds the shot paused, which the close button does not |
| WebAppFindings.EscapeStaleReachable | webMap/src/App.jsx:198-206 | that stale listener is reached by the kill button with the sparrow prince alive (a scope-mode pick under the curtain), the scope timer at 1 s, the curtain lifting at 1.5 s, the shot and the shot timer |
| WebAppFindings.EscapeAgreesWhenCurrent | webMap/src/App.jsx:198-206 | when the listener's view is current, as-written and corrected Escape agree |
| WebApp.GlowRampTimers | webMap/src/App.jsx:785-797 | the loop that schedules the revive interval's ticks yields exactly `GlowTimeline` |
| WebApp.App.constructor | webMap/src/App.jsx:94-121 | the app starts in the initial state |
| WebApp.App.Enter | webMap/src/App.jsx:301-304 | the intro screen gives way to loading |
| WebApp.App.CanvasCreated | webMap/src/App.jsx:617-631 | the camera and controls become available |
| WebApp.App.ModelsLoaded | webMap/src/App.jsx:306-313 | loading gives way to the intro audio |
| WebApp.App.IntroAudioEnded | webMap/src/App.jsx:314-327 | the intro audio fades out and the scene reveal is scheduled 1.5 s later |
| WebApp.App.HandlePoiClick | webMap/src/App.jsx:330-419 | the fields and timers change exactly as `PoiClick` says |
| WebApp.App.FreshSelection | webMap/src/App.jsx:336-419 | the fields and timers change exactly as for a new pick |
| WebApp.App.ResetSession | webMap/src/App.jsx:336-342 | a new pick stops the clip, clears the crab state, selects and focuses |
| WebApp.App.FocusCamera | webMap/src/App.jsx:350-418 | the camera move becomes `FocusTween` |
| WebApp.App.CloseInfo | webMap/src/App.jsx:421-463 | `handleCloseInfo` with the given `sparrowShot` view changes the fields exactly as `CloseSeeing` says |
| WebApp.App.ClearPanel | webMap/src/App.jsx:421-433 | close clears the session, scope, heavenly glow and church clip |
| WebApp.App.HideEffects | webMap/src/App.jsx:427-433 | scope, heavenly glow and church clip are cleared |
| WebApp.App.ReturnToOverview | webMap/src/App.jsx:439-461 | zoom limit 40 and the 1.5 s flight to the overview |
| WebApp.App.CloseButton | webMap/src/App.jsx:421-463 | the close button closes with the current `sparrowShot` |
| WebApp.App.KeyDown | webMap/src/App.jsx:198-206 | the key listener (intended form) changes the fields exactly as `PressKey` says |
| WebApp.App.HandleCrabClick | webMap/src/App.jsx:513-525 | a crab click changes only the crab state, as `CrabClicked` says |
| WebApp.App.PlayCharacterAudio | webMap/src/App.jsx:138-161 | only the audio changes, as `Played` says |
| WebApp.App.StopCharacterAudio | webMap/src/App.jsx:163-171 | only the audio changes, resuming the birds unless the sparrow prince is shot |
| WebApp.App.CharacterAudioEnded | webMap/src/App.jsx:157-160 | only the audio changes, as `Finished` says |
| WebApp.App.HandleJesusClick | webMap/src/App.jsx:173-196 | the corrected Jesus click: birds paused, clip stopped, church clip playing, heavenly glow on |
| WebApp.App.SilenceForChurch | webMap/src/App.jsx:174-175 | birds paused and the clip stopped without resuming |
| WebApp.App.StartChurch | webMap/src/App.jsx:177-195 | the church clip plays, remembering the `sparrowShot` its `onended` saw, and the glow is on |
| WebApp.App.ChurchAudioEnded | webMap/src/App.jsx:184-193 | the fields and timers change exactly as `ChurchFinished` says |
| WebApp.App.FadeHeavenly | webMap/src/App.jsx:185 | the glow starts fading and the church clip is over |
| WebApp.App.HandleExternalUrl | webMap/src/App.jsx:465-511 | with a camera: zoom limit 3000, a 2 s flight to (0, 2000, 5), and the flash, open and reset timers; without, nothing |
| WebApp.App.LaunchCamera | webMap/src/App.jsx:474-509 | zoom limit 3000 and the flight up |
| WebApp.App.ToggleSnow | webMap/src/App.jsx:711-712 | snow flips and nothing else changes |
| WebApp.App.Shoot | webMap/src/App.jsx:908-928 | the shot pauses the birds and starts the four shoot timers |
| WebApp.App.KillOrRevive | webMap/src/App.jsx:751-817 | the fields and timers change exactly as `KillOrReviveOutcome` says |
| WebApp.App.Revive | webMap/src/App.jsx:754-801 | revive picks the given sparrow prince, glows at 4 and starts un-shoot, the glow ramp and the birds timer |
| WebApp.App.StartGlow | webMap/src/App.jsx:778-779 | reviving with glow 4 |
| WebApp.App.Kill | webMap/src/App.jsx:802-816 | kill starts the transition, then scopes or picks the sparrow prince, and ends the transition after 1.5 s |
| WebApp.App.StartScopeTransition | webMap/src/App.jsx:803 | the black transition starts |
| WebApp.App.FireShowScene | webMap/src/App.jsx:316-326 | the reveal shows the scene, starts the birds and, with a camera, sets the intro pose and schedules the descent |
| WebApp.App.ShowSceneScreen | webMap/src/App.jsx:317-325 | the scene shows and a new birds track plays |
| WebApp.App.FireBeginDescent | webMap/src/App.jsx:238-262 | the descent to the overview over 4.5 s |
| WebApp.App.FireCompleteIntro | webMap/src/App.jsx:265-267 | the intro latch is set |
| WebApp.App.FireFocusDone | webMap/src/App.jsx:405-407 | the zoom limit becomes 15 |
| WebApp.App.FireScopeOn | webMap/src/App.jsx:344-348 | the scope comes up |
| WebApp.App.FireScopeOff | webMap/src/App.jsx:925-927 | the scope goes down |
| WebApp.App.FireScopeTransitionOff | webMap/src/App.jsx:813-815 | the transition ends |
| WebApp.App.FireBloodOn | webMap/src/App.jsx:916-918 | the blood shows |
| WebApp.App.FireBloodOff | webMap/src/App.jsx:919-921 | the blood hides |
| WebApp.App.FireShotOn | webMap/src/App.jsx:922-924 | the sparrow prince is shot |
| WebApp.App.FireShotOff | webMap/src/App.jsx:781-783 | the sparrow prince is no longer shot |
| WebApp.App.FireGlow | webMap/src/App.jsx:788-791 | one glow tick sets the level |
| WebApp.App.FireReviveDone | webMap/src/App.jsx:792-796 | reviving ends at glow 0 |
| WebApp.App.FireResumeBirds | webMap/src/App.jsx:799-801 | the birds resume |
| WebApp.App.FireFlashOn | webMap/src/App.jsx:485-486 | the teleport flash shows |
| WebApp.App.FireOpenUrl | webMap/src/App.jsx:487-488 | the URL is handed to `window.open` |
| WebApp.App.FireFlashOffReset | webMap/src/App.jsx:489-495 | the flash ends, the camera is put back at the overview and the zoom limit is 40 |
| WebApp.App.FireHeavenlyOff | webMap/src/App.jsx:186-189 | the heavenly glow goes out |
| WebApp.SceneLights.constructor | webMap/src/App.jsx:51 | the lights start at 1.2 |
| WebApp.SceneLights.Frame | webMap/src/App.jsx:53-67 | a frame steps the light level toward 0.3 (dimmed) or 1.2 at 2 per second and keeps it within [0.3, 1.2] |
| LegacyAppSpec.CrabImageFrom | src/App.jsx:329-333 | a crab image is 150 to 250 px and placed so that a 200 px box stays inside the window |
| LegacyAppSpec.PoiClick | src/App.jsx:210-287 | any pick selects the POI and keeps the screen; re-picking the selected one keeps crab state, audio and focus; another POI is focused with a fresh crab state, no clip and the birds playing exactly when they exist |
| LegacyAppSpec.Close | src/App.jsx:289-322 | close clears selection, focus, crab state and clip, plays the birds exactly when they exist and keeps the screen and the camera flag |
| LegacyAppSpec.PressKey | src/App.jsx:81-89 | only Escape with a selection changes anything, and it clears the selection and the focus |
| LegacyAppSpec.Available | src/App.jsx:339-553 | scene and list picks are available exactly in the scene (the loading screen and the audio-intro overlay cover the canvas before it), panel and snow controls never before the scene, and a picture click only on a picture the selected POI's panel shows |
| LegacyAppSpec.PictureClicked | src/components/UI/InfoPanel.jsx:94-109 | a picture click plays the table's clip exactly for a mapped picture, counts one crab click exactly on a crab POI (the lair, `crabpeople`, `dmobile`), and changes nothing else |
| LegacyAppSpec.Handle | src/App.jsx:339-553 | an event whose control is hidden or covered changes nothing; the only event that starts a timer is the end of the intro audio, and that timer is the reveal 1.5 s later |
| LegacyAppSpec.Fire | src/App.jsx:121-206 | the reveal shows the scene with the birds playing and schedules the descent exactly when there is a camera; the descent starts no timer and keeps the screen; neither changes the selection |
| LegacyAppLaws.ReselectKeepsSession | src/App.jsx:211-214 | picking the selected POI again only stores the record |
| LegacyAppLaws.NewSelectionResets | src/App.jsx:216-285 | another pick selects and focuses, clears the crab state and the clip, always resumes the birds, and with a camera starts the 1.5 s focus move |
| LegacyAppLaws.PicksUngated | src/App.jsx:453 | scene clicks are never gated by an intro latch or a scope, but the loading screen and the audio-intro overlay (340-367) cover the canvas before the scene: scene and list picks are picks exactly in the scene and do nothing before it |
| LegacyAppLaws.CloseResets | src/App.jsx:289-322 | close clears selection, focus, crab state and clip, resumes the birds and, with a camera, flies to the overview over 1.5 s |
| LegacyAppLaws.CloseIdempotent | src/App.jsx:289-322 | closing twice is closing once |
| LegacyAppLaws.EscapeClosesIffSelected | src/App.jsx:81-89 | a key press changes the state exactly when it is Escape with a POI selected, and then it is the close |
| LegacyAppLaws.StopAlwaysResumes | src/App.jsx:73-79 | the close and every fresh pick stop the clip with resume: the slot empties and the birds play exactly when they exist |
| LegacyAppLaws.PictureClicks | src/components/UI/InfoPanel.jsx:94-109 | a run of picture clicks changes only the crab state and the audio slot |
| LegacyAppLaws.PictureStep | src/components/UI/InfoPanel.jsx:94-109 | a click on a picture the open panel shows is `PictureClicked` and starts no timer |
| LegacyAppLaws.PictureRunHandled | src/components/UI/InfoPanel.jsx:94-109 | a run of clicks on pictures of the open panel is the fold of `PictureClicked` |
| LegacyAppLaws.PictureClicksCount | src/components/UI/InfoPanel.jsx:102-108 | on a crab POI every picture click is one crab click, in order |
| LegacyAppLaws.CrabEventsCount | src/App.jsx:324-335 | on the open panel of a crab POI, a run of picture clicks changes the crab state exactly as the clicks fold, and nothing besides it but the audio slot |
| LegacyAppLaws.NoCrabElsewhere | src/components/UI/InfoPanel.jsx:102-108 | picture clicks on the panel of any other POI never change the crab state |
| LegacyAppLaws.CrabAfterSelection | src/App.jsx:324-335 | after n picture clicks on a crab POI from a fresh selection the count is n and there are max(0, n - 4) images |
| LegacyAppLaws.InitialConsistent | src/App.jsx:16-25 | the initial state satisfies the invariant |
| LegacyAppLaws.HandleKeepsConsistent | src/App.jsx:210-335 | every event, picture clicks included, keeps the invariant |
| LegacyAppLaws.FireKeepsConsistent | src/App.jsx:91-151 | both timers keep the invariant |
| LegacyAppLaws.HandleAllKeepsConsistent | src/App.jsx:210-335 | any run of events keeps the invariant |
| LegacyAppLaws.StartupToOverview | src/App.jsx:181-208 | enter, canvas, load and intro audio end lead to the reveal 1.5 s later; the reveal shows the scene with birds playing at the intro pose, and the descent then flies to the overview over 4.5 s |
| LegacyApp.App.constructor | src/App.jsx:16-31 | the app starts in the initial state |
| LegacyApp.App.Enter | src/App.jsx:181-184 | the intro gives way to loading |
| LegacyApp.App.CanvasCreated | src/App.jsx:407-421 | the camera and controls become available |
| LegacyApp.App.ModelsLoaded | src/App.jsx:186-193 | loading gives way to the intro audio |
| LegacyApp.App.IntroAudioEnded | src/App.jsx:194-207 | the reveal is scheduled 1.5 s later |
| LegacyApp.App.HandlePoiClick | src/App.jsx:210-287 | the fields change exactly as `PoiClick` says |
| LegacyApp.App.CloseInfo | src/App.jsx:289-322 | the fields change exactly as `Close` says |
| LegacyApp.App.KeyDown | src/App.jsx:81-89 | the fields change exactly as `PressKey` says |
| LegacyApp.App.HandleCrabClick | src/App.jsx:324-335 | only the crab state changes, as `CrabClicked` says |
| LegacyApp.App.PlayCharacterAudio | src/App.jsx:48-71 | only the audio changes, as `Played` says |
| LegacyApp.App.StopCharacterAudio | src/App.jsx:73-79 | only the audio changes, always resuming the birds |
| LegacyApp.App.CharacterAudioEnded | src/App.jsx:67-70 | only the audio changes, as `Finished` says |
| LegacyApp.App.ToggleSnow | src/App.jsx:501-502 | snow flips |
| LegacyApp.App.FireShowScene | src/App.jsx:196-206 | the reveal shows the scene, starts the birds and, with a camera, sets the intro pose and schedules the descent |
| LegacyApp.App.FireBeginDescent | src/App.jsx:121-149 | the descent to the overview over 4.5 s |

## Left out

- `Math.tan`, `Math.random`, `Date.now`, the frame time `delta` and the window size are parameters. No property depends on what they return beyond the stated ranges of the draws.
- GSAP's tweening and easing are a library. A camera move is its end pose and duration (`Tween`). The descent is modelled as its interpolation formula at progress p, without the easing of p.
- Audio I/O is not modelled: `HTMLAudioElement` playback, autoplay rejections, volumes other than the clip volume, `currentTime = 0`, the whoosh, gun, revive and church sounds, and the revive audio fade (`webMap/src/App.jsx:759-771`). The two audio refs are an abstract slot (`Deck`), and the church clip is a three-state ref (`Church`).
- Real time: timers are `(delay, action)` lists whose delays count from the event that started them (for the scene reveal, from the reveal). Interleaving with later events is not modelled beyond `Elapse` over one list. The revive interval is its 60 ticks at nominal times, and nothing cancels a timer, as in the source.
- `window.open` is recorded as a list of opened URLs.
- Rendering: JSX layout (beyond which controls are on screen and which full-screen overlays swallow their clicks, which `Available` models), CSS styles, cursor styles, the fog texture and mist planes, the canvas camera, fog and clear colour, the light multipliers, the beam particles, `poi.scale`, the `originalMaterials` map and tile mouse-over styling are not modelled. So are the colour lerps of the sky (`webMap/src/App.jsx:273-299`, `src/App.jsx:153-179`) and the clouds (`webMap/src/components/Environment/Clouds.jsx:28-35`), whose convergence is floating point.
- Snowflake physics, size and rotation (`src/components/Effects/SnowSystem.jsx:5-42`) are Rapier physics. A flake is its id and start position.
- IntroScreen, LoadingScreen, GLTF loading and `Box3.setFromObject` are not part of this model. The map bounds are an input record.
- webMap/src/components/UI/InfoPanel.jsx is not part of this model. The newer app's panel events (Jesus click, picture clicks, crab clicks, links) are therefore available whenever a POI is selected in the scene and no overlay covers the page; the panel is taken to sit below the kill curtain (z-index 300) as the older panel does (z-index 200, `src/components/UI/InfoPanel.jsx:121`).
- WebScene.BloodPlacement: a render that throws (a sparrow prince record without `cameraTarget` while the blood effect shows) is the value `RenderThrows`; what React then does with the tree is not modelled.
- The older panel is handed `onStopAudio` (src/App.jsx:550) but never calls it, so the older model has no stop event; `LegacyApp.App.StopCharacterAudio` is reached only through a close or a fresh pick.
- The POI list's stylesheet is not part of this model. The list is taken to sit below the kill curtain and the white flash, so list picks are swallowed while either is up.
- The audio table lookup treats `characterAudioMap` as a map from file names. Keys inherited from `Object.prototype` (such as `constructor`) are not modelled.
- The `App` component's 20 pieces of state are held in five grouped record fields of `WebApp.App`. `State()` flattens them into the single snapshot the specification uses. Screen flags that the handlers keep mutually exclusive (`showIntro`, `startLoading`, `showAudioIntro`, `fadeOutAudio`, `showScene`) are one `Phase`.
- WebAppSpec.PoiClick: re-picking the selected POI is modelled as storing the same registry record again, so the Escape listener (keyed on `selectedPoi`) is not re-registered. A different object with the same id would re-register it.
- WebAppSpec.PressKey: `Handle` and `WebApp.App.KeyDown` use the corrected Escape listener (see Findings). The as-written one is `WebAppSpec.PressKeyAsWritten`.
- WebAppSpec.Handle: uses the corrected Jesus click, `WebAppSpec.JesusClickFixed` (see Findings). So does `WebApp.App.HandleJesusClick`. The as-written one is `WebAppSpec.JesusClickAsWritten`.
- WebApp.App.HandleJesusClick: runs the corrected Jesus click. The birds stay paused under the church clip, and the source's resume while the sparrow prince is alive (webMap/src/App.jsx:163-171, called at 173-196) is not reproduced; `WebAppFindings.JesusBirdsPlayAsWritten` states what the source does.

## Findings

| source | as written | input that shows it | evidently intended | confidence | as-written member | corrected member |
|---|---|---|---|---|---|---|
| webMap/src/App.jsx:173-196 | `handleJesusClick` pauses the birds, then calls `stopCharacterAudio`, which resumes them when `sparrowShot` is false | Jesus click with the sparrow prince alive and a birds track: the birds play on under the church clip | the birds stay paused while the church clip plays; its `onended` resumes them | not executed | WebAppFindings.JesusBirdsPlayAsWritten | WebAppFindings.JesusClickQuiet |
| webMap/src/App.jsx:198-206 | the Escape listener is re-registered only when `selectedPoi` changes, so it calls a `handleCloseInfo` whose `sparrowShot` may be stale | kill with the sparrow prince alive (he is picked in scope mode under the curtain), scope on at 1 s, curtain off at 1.5 s, shoot, shot timer, then Escape: the listener still sees `sparrowShot` false and resumes the birds the shot paused | Escape closes exactly as the close button does, with the current `sparrowShot` | not executed | WebAppFindings.EscapeResumesAsWritten | WebAppFindings.EscapeAgreesWhenCurrent |
