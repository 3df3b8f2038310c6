# Drivable town demo: layout, taxi controller, cameras and minimap passes

This project models the core of a three.js demo in which the player drives a
taxi through a small town (`main.js`). The model covers four parts:

- **The procedural road network.** A highway of flat road segments along z,
  a two-lane centre line, five dashed lane lines, a pedestrian crossing and
  two sidewalks. Each layout function is a method that appends placements to
  the shared road-network group in a counting loop, as the source does. Each
  one is proved against a function that gives the placements it appends, and
  lemmas state the layout rules: counts, spacing, symmetry, and staying on
  the road.
- **The building placement loops** that the house and apartment loader
  callbacks run. They walk z in steps of 30 and add a left and a right clone
  at every step. Both loops share one `PlacementRule` record that holds their
  constants.
- **The taxi's per-frame controller** (`Vehicle.Step`, `Vehicle.Taxi.Drive`)
  and the **two camera rigs**. The chase camera lerps 10% of the way toward a
  point behind the taxi. The minimap camera sits directly over the taxi with
  no lag.
- **The render passes of a frame.** The main view is drawn full-window with
  the scissor test off. The border backdrop and the minimap view are drawn
  into a 200 px square with 10 px padding, with the scissor test on. The
  scissor test is then switched off again.

Modules: `Counting` (trip counts of the real-valued `for` loops),
`SceneGraph` (vectors, placements and the append-only `Group` class),
`Layout`, `Buildings`, `Vehicle`, `Cameras`, `Render` (the renderer state and
its command log), and `App` (the `World` class: start-up, loader callbacks,
`animate`).

Modelling conventions:

- Coordinates are exact `real`s.
- Rotations of static placements are exact multiples of pi, so they are
  recorded in units of pi. For example, the houses' `-3 * Math.PI / 2` is
  `-1.5`.
- The taxi's heading is in radians. `sin` and `cos` are function parameters,
  so the proved facts hold for any values they may take.
- The chase camera's offset rotation is the rotation matrix about +y, written
  with those same parameters.
- Window size and the held-key map (`map<string, bool>`) are inputs of
  `World.Animate`. A key that was never pressed is absent from the map and
  counts as not held, as an `undefined` entry does in the source; a released
  key stays in the map with the value false.

Where the source's comments and its code differ, the model follows the code:

- The lane-line comment speaks of "4 lines between 5 lanes". The loop emits
  five lines at offsets -10, -5, 0, 5 and 10. Those are the centres of the
  five 5-unit lanes, and `Layout.LaneOffsets` proves exactly that.
- The crossing comment says "about 10 stripes". The formula gives 6 for a
  25-unit road.
- The building loops use an inclusive bound (`z <= end`). Their step count is
  therefore floor((end - start) / spacing) + 1, not a ceiling over a
  half-open range.

## Model

| member | source | states |
|---|---|---|
| `Counting.CountUpToSpec` | main.js:64-66 | iteration k of a `for (v = start; v <= end; v += step)` loop passes the test exactly when k < CountUpTo, so the loop runs floor((end-start)/step)+1 times (0 if end < start) |
| `Counting.CountBelowSpec` | main.js:72 | iteration k of a `for (v = start; v < end; v += step)` loop passes the test exactly when k < CountBelow (ceiling of (end-start)/step, 0 if end <= start) |
| `SceneGraph.Group.constructor` | main.js:48 | a new group has no children |
| `SceneGraph.Group.Add` | main.js:57 | adding appends the child at the end and changes nothing else |
| `Layout.AddRoadSegment` | main.js:52-59 | appends one flat road plane (25 x 50, rotated -pi/2 about x) at (x, 0, z) with the given z-rotation |
| `Layout.BuildHighway` | main.js:64-66 | the highway loop appends exactly the segments of `Highway()`, in order |
| `Layout.HighwayLayout` | main.js:63-66 | the highway has exactly 9 segments, all road planes at x = 0 with rotation 0, centred at z = -200, -150, ..., 200 |
| `Layout.HighwayTiles` | main.js:45-66 | consecutive segment centres are exactly one segment length apart, so each segment's far edge is the next one's near edge (no gap, no overlap) |
| `Layout.AddTwoLaneCenterLine` | main.js:68-78 | appends exactly the centre-line dashes for [startX, endX) at zPos, in order |
| `Layout.CenterLineBounds` | main.js:72-76 | every centre-line dash has startX <= x < endX, z = zPos and y = 0.01; consecutive dashes are 10 apart |
| `Layout.SourceCenterLine` | main.js:68-79 | the one centre line in the scene has 8 dashes, at x = 20, 30, ..., 90 on z = -50 |
| `Layout.AddLaneLines` | main.js:82-97 | the nested lane-line loops append exactly the five dashed lines for i = -2 .. 2, in order |
| `Layout.DashesPerLineIs40` | main.js:91 | each lane line has 40 dashes |
| `Layout.LaneMarkingsAt` | main.js:89-96 | dash j of lines lo .. hi-1 is dash j % 40 of line lo + j / 40; there are 40 dashes per line |
| `Layout.LaneLinesLayout` | main.js:86-96 | the lane markings are 200 dashes; dash j is at x = LaneOffset(j/40 - 2), y = 0.01, z = -200 + 10*(j%40), so every dash has -200 <= z < 200 |
| `Layout.LaneOffsets` | main.js:86-90 | the line offsets are exactly {-10, -5, 0, 5, 10}; the set is closed under negation, each offset is strictly inside ±roadWidth/2, and each is the centre of one of the five lanes |
| `Layout.AddPedestrianCrossing` | main.js:100-122 | appends one group child at the origin that holds exactly the crossing stripes for road width 25, stripe width 2.5 and gap 1.5 |
| `Layout.SourceStripeCount` | main.js:103-111 | for the scene's values, `numStripes` is 6 and the crossing has 6 stripes |
| `Layout.StripeWithinRoad` | main.js:111-117 | for any road width, stripe width > 0 and gap >= 0, every stripe's extent [x - w/2, x + w/2] lies within [-roadWidth/2, roadWidth/2] |
| `Layout.StripeSpacing` | main.js:116 | consecutive stripe centres are exactly stripeWidth + stripeGap apart, leaving exactly stripeGap between stripes |
| `Layout.StripesIffWideEnough` | main.js:111-113 | some stripe is emitted if and only if roadWidth >= stripeWidth + stripeGap; a narrower road gets no stripes |
| `Layout.AddSidewalks` | main.js:126-144 | appends the left sidewalk and then the right sidewalk (4 x 0.2 x 450 boxes) |
| `Layout.SidewalksFlankRoad` | main.js:127-143 | the sidewalks are mirror images across x = 0; each inner face is flush with a road edge; the bottoms rest on y = 0; along z they span exactly the highway's extent [-225, 225] |
| `Layout.BuildRoadNetwork` | main.js:61-147 | the top-level layout code appends exactly the highway, centre line, lane lines, crossing and sidewalks, in source order |
| `Layout.RoadNetworkSize` | main.js:64-147 | the road network holds 220 children: 9 + 8 + 200 + 1 + 2 |
| `Buildings.PlaceClones` | main.js:210-222 | a loader loop appends exactly the clones of its rule: a left and a right clone per step, while z <= end |
| `Buildings.ClonePairs` | main.js:210-222 | after k steps there are 2k clones, and step j's left clone is at index 2j and its right clone at 2j+1 |
| `Buildings.ClonesInRange` | main.js:228-240 | every clone's z lies in [start, end]; the two clones of a step share z, height and scale, and are mirror images in x when the rule's offsets are |
| `Buildings.HouseLayout` | main.js:210-222 | the house loop runs 15 steps (z = -215 + 30k, the last at 205 <= 220) and adds 30 clones, at x = -20 and x = 20, y = -1.5, scale 2 |
| `Buildings.ApartmentLayout` | main.js:228-240 | the apartment loop runs 16 steps (z = -230 + 30k, the last at 220 <= 230) and adds 32 clones, at x = -26 and x = 26, y = -0.7, scale 0.03 |
| `Vehicle.Taxi.Load` | main.js:200-204 | the loaded taxi starts at (0, 0, 230) with heading 0 and scale 0.5 |
| `Vehicle.Taxi.Drive` | main.js:292-306 | the in-place update of the taxi's transform leaves it at `Step` of its old pose |
| `Vehicle.StepClosedForm` | main.js:293-306 | one frame moves the taxi by Speed·(down - up) along (sin, cos) of the start-of-frame heading, turns it by TurnSpeed·(left - right), and keeps its height |
| `Vehicle.IdleStep` | main.js:293-306 | with no arrow key held the pose is unchanged |
| `Vehicle.TurnOnlyChangesYaw` | main.js:301-306 | without up or down, a frame changes only the heading, by TurnSpeed·(left - right) |
| `Vehicle.LeftRightCancel` | main.js:301-306 | holding left and right together leaves the heading unchanged |
| `Vehicle.UpDownCancel` | main.js:293-300 | holding up and down together leaves the position unchanged |
| `Vehicle.ForwardAtZeroHeading` | main.js:293-296 | forward at heading 0 lowers z by exactly Speed and keeps x |
| `Vehicle.DriveStraight` | main.js:293-296 | n frames of forward only move the taxi n·Speed along its fixed heading |
| `Vehicle.SpinInPlace` | main.js:301-306 | n frames without up or down leave the position fixed and turn the heading by n·TurnSpeed·(left - right) |
| `Cameras.LerpShrinksGap` | main.js:319 | one chase-camera lerp leaves 0.9 of the gap to the goal on every axis; a camera at its goal stays there |
| `Cameras.Decay` | main.js:319 | 0.9^n lies in (0, 1], and is below 1 for n > 0 |
| `Cameras.ApproachGap` | main.js:317-319 | after n lerps toward a fixed goal, the gap is 0.9^n times the first gap |
| `Cameras.ApproachNeverArrives` | main.js:319 | after any number of lerps, the camera is at its goal if and only if it started there |
| `Cameras.ChaseGoalBehindTaxi` | main.js:317-318 | the chase goal is (10 sin yaw, 5, 10 cos yaw) from the taxi; horizontally it is 50 reverse steps behind the taxi |
| `Cameras.ChaseGoalDistance` | main.js:317-318 | when sin² + cos² = 1 at the heading, the goal is exactly 10 from the taxi horizontally |
| `Cameras.MinimapOverTaxi` | main.js:308-314 | the minimap camera is at the taxi's (x, z) at height 100 and looks straight down |
| `Render.Renderer.constructor` | main.js:11-13 | a fresh renderer has full-window viewport and scissor, scissor test off and no commands issued |
| `Render.Renderer.SetViewport` | main.js:324 | sets the viewport only |
| `Render.Renderer.SetScissor` | main.js:337-342 | sets the scissor rectangle only |
| `Render.Renderer.SetScissorTest` | main.js:325 | sets the scissor test flag only |
| `Render.Renderer.ClearBuffers` | main.js:326 | logs a clear under the current scissor flag |
| `Render.Renderer.Render` | main.js:327 | logs a draw together with the viewport, scissor and scissor flag it ran under |
| `Render.RenderFrame` | main.js:323-351 | a frame issues a clear, the chase view, the border backdrop and the minimap view; afterwards the scissor test is off and viewport and scissor are both the minimap rectangle |
| `Render.FrameIsScissored` | main.js:324-351 | the clear and the chase view run full-window with the scissor test off; the border and minimap views run with viewport = scissor = the minimap rectangle and the test on; the border is drawn before the minimap |
| `Render.MinimapRectEdges` | main.js:330-342 | the minimap rectangle is 200 x 200 with its right edge at W - 10 and its top edge at H - 10 |
| `Render.MinimapRectInWindow` | main.js:330-342 | the minimap rectangle lies inside the window if and only if W >= 210 and H >= 210 |
| `Render.BorderFillsMinimapView` | main.js:275-285 | the border scene's constants: the 210-unit border plane covers the border camera's 200-unit view and lies between its near and far planes (a fact about the constants only; the border pass itself is an opaque `Draw`) |
| `App.FrameTracksTaxi` | main.js:292-320 | after a frame the minimap camera is exactly over the new taxi position looking down; the chase camera looks at the taxi, and its gap to the new goal is 0.9 of what it was |
| `App.ParkedTaxiChase` | main.js:292-320 | with no arrow key held (whether never pressed or released and stored as false) the taxi stays put, and after n frames the chase camera's gap to its fixed goal is 0.9^n of the first gap; it reaches the goal only if it started there |
| `App.World.Start` | main.js:243-252 | start-up builds the road network, has no taxi, places the chase camera at the origin and the minimap camera 100 above the origin looking down; the renderer starts with full-window viewport and scissor, the test off and nothing issued |
| `App.World.TaxiLoaded` | main.js:200-205 | the taxi callback creates the taxi at (0, 0, 230), scale 0.5, adds it to the scene, and leaves the cameras and the road network alone |
| `App.World.HouseLoaded` | main.js:208-223 | the house callback appends exactly the house clones to the scene |
| `App.World.ApartmentLoaded` | main.js:226-241 | the apartment callback appends exactly the apartment clones to the scene |
| `App.World.Animate` | main.js:288-352 | before the taxi loads, a frame changes no camera and only issues the render passes; afterwards the taxi and both cameras advance by `Frame`; the frame's clears and draws are exactly `FrameCommands`, and the renderer ends with viewport and scissor on the minimap rectangle and the test off |

## Left out

- Meshes, materials, colours and lights, and the renderer's real drawing. Placements record only geometry, position, rotation and scale. Renderer calls are an abstract command log.
- `scene.add(roadNetwork)`: the scene holds the road-network group by reference. The model keeps that group as its own `Group` object and does not copy it into the scene's child list.
- `scene.add(taxi)` adds the live taxi object. The scene's child list records the taxi as placed at load time, and its current transform is the `Vehicle.Taxi` object's fields.
- The traffic-light composite (main.js:150-194). It is fixed constants with no logic.
- Asynchronous loading. The loader callbacks are methods the environment may call at any time, each once. Load failures only log, so they are left out. Whether `clone()` shares state with its source is a library matter and is not modelled.
- `requestAnimationFrame` scheduling and the keydown/keyup listeners. The held-key map is an input to `World.Animate`.
- `navigate` and `destinations` (main.js:19-34). This is DOM/alert UI, and its helpers `showMarker` and `setTargetDestination` are not part of this model.
- The resize handler (main.js:255-262) and the minimap camera's orthographic bounds. They depend on window events and do not affect the modelled state.
- `minimapCamera.up` takes effect only at the next `lookAt` in three.js. The model records the up vector as a field and does not model its effect on orientation.
- The actual values of `Math.sin`/`Math.cos` and three.js's `applyAxisAngle` internals, and IEEE floating-point rounding. The model uses exact reals, so for example "up and down cancel" holds exactly here but may be off by rounding in the browser.
- The commented-out `createHouse`/`createTree` (main.js:358-386).
