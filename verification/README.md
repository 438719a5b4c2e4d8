# Orbits, spins and pointer arithmetic of three three.js demo scenes

This project models the per-frame arithmetic of two three.js demos in Dafny, using
`real` as an idealisation of JavaScript doubles.

- **Solar system** (`solarsystem.dfy`, module `SolarSystem`). `createPlanete`
  builds a pivot node at the sun with the planet mesh as its only child. The mesh
  is offset by `distanceFromSun` along x. The factory returns an update closure,
  modelled as the pure function `Update`. The closure sets the pivot's y-rotation
  (revolution) to `time * 0.001 * 20 / distanceFromSun`. It sets the mesh's
  y-rotation (spin) to `time * 0.001 * 2π`. `animate` spins the sun at
  `time * 0.001`, then calls the eight planet updates in creation order. The
  method `Animate` returns the new scene and a log of the calls it made. The
  function `Run` folds frames over a sequence of times.
- **Primitives showground** (`primitives.dfy`, module `Primitives`). It covers
  the mousemove handler's conversion to normalised device coordinates and the
  green box's time-driven rotation. It also covers the `step` accumulator, which
  grows by the speed slider's value each frame. The last part is the hover loop
  over the raycaster's hits: a hit on the sphere turns it red, and a hit on the
  object named `"box"` turns that object 0.01 rad further about x and y.
- `geometry.dfy` (module `Geometry`) holds the part of a scene-graph node these
  demos touch: a local position and a local Euler rotation.

The frame time, window size, speed slider and raycaster output are parameters.
They come from the browser, dat.GUI and three.js, which are not part of this model.

## Model

| member | source | states |
|---|---|---|
| SolarSystem.SunAngle | solarsystem/main.js:156 | the sun turns one radian per 1000 ms of animation time |
| SolarSystem.RevolutionAngle | solarsystem/main.js:183-184 | revolution angle × distance is the same for every distance (sun angle × 20), so a planet at Earth's distance keeps pace with the sun; it is 0 at time 0 and positive for positive time and distance |
| SolarSystem.SpinAngle | solarsystem/main.js:185 | spin is 2π times the sun's angle (one full turn per second), 0 at time 0 |
| SolarSystem.CreatePlanete | solarsystem/main.js:172-181 | the pivot sits at the sun; the mesh sits at exactly (distanceFromSun, 0, 0) from it, so the offset has length distanceFromSun; both start unrotated |
| SolarSystem.Update | solarsystem/main.js:182-186 | the update writes only the pivot's and the mesh's y-rotation, to the revolution and spin angles of `time`; positions, x/z rotations and the descriptor stay unchanged |
| SolarSystem.UpdateAll | solarsystem/main.js:157-164 | every planet receives its own update once with the same time, and the planet count is unchanged |
| SolarSystem.SceneAt | solarsystem/main.js:155-164 | a frame replaces every planet by its own update at the frame's time, sets the sun's y-rotation to the sun angle, and leaves the sun's position and x/z rotations unchanged |
| SolarSystem.Animate | solarsystem/main.js:155-168 | the loop's result equals the frame reference and is exactly what replaying its call log gives; the log calls each planet's update exactly once, in creation order, all with the frame's time |
| SolarSystem.Run | solarsystem/main.js:155-170 | any run of frames keeps the planet count and every planet updatable |
| SolarSystem.CreateScene | solarsystem/main.js:86-153 | the sun starts at the origin, unrotated; the set-up scene holds the eight configured planets in creation order, each exactly as `createPlanete` builds it from its table entry |
| SolarSystem.UpdateIsAbsolute | solarsystem/main.js:182-186 | an update forgets every earlier update: angles are assigned, not accumulated |
| SolarSystem.CreatedPlanetAtTimeZero | solarsystem/main.js:178-186 | a freshly created planet is exactly its own pose at time 0 |
| SolarSystem.SpinIndependentOfPlanet | solarsystem/main.js:185 | any two planets spin identically at any time, and the spin state does not affect the revolution |
| SolarSystem.NearerIsFaster | solarsystem/main.js:183-184 | for positive time, a strictly nearer orbit has a strictly larger revolution angle |
| SolarSystem.RevolutionDecreasing | solarsystem/main.js:183-184 | for positive time and distances, d1 < d2 if and only if the d1 angle exceeds the d2 angle |
| SolarSystem.RevolutionRatio | solarsystem/main.js:183-184 | angular speeds are in the inverse ratio of the distances |
| SolarSystem.MercuryFastestSaturnSlowest | solarsystem/main.js:98-153 | in the configured table, Mercury (10) revolves strictly faster and Saturn (180) strictly slower than every other planet |
| SolarSystem.EarthMatchesSun | solarsystem/main.js:96-101 | Earth's pivot angle equals the sun's rotation at every time, also in the animated scene |
| SolarSystem.EarthSpeedRatios | solarsystem/main.js:98-153 | Earth's pivot angle is exactly 5 times Jupiter's and 2 times Venus's |
| SolarSystem.EarthAfterOneSecond | solarsystem/main.js:183-184 | at time 1000 Earth's pivot has turned exactly 1 radian |
| SolarSystem.SceneAtIsAbsolute | solarsystem/main.js:155-164 | a frame at t after a frame at t0 gives the same scene as the frame at t alone |
| SolarSystem.FirstFrameAtZeroIsSetUp | solarsystem/main.js:172-186 | at time 0 every angle is 0: the first frame leaves the set-up scene unchanged |
| SolarSystem.RunIsAbsolute | solarsystem/main.js:155-170 | any non-empty run of frames ends in the state of its last frame alone |
| SolarSystem.FrameIdempotent | solarsystem/main.js:155-164 | repeating a frame with the same time changes nothing |
| SolarSystem.RunKeepsOrbitRadius | solarsystem/main.js:178-186 | after any run of frames every pivot is still at the sun and every mesh is still at its creation offset (distanceFromSun, 0, 0) |
| Primitives.PointerToNdc | first-project/main.js:159-162 | device x relates to client x by (x + 1)·width = 2·clientX; device y by (1 − y)·height = 2·clientY |
| Primitives.PointerRoundTrip | first-project/main.js:160-161 | client → device → client and device → client → device are both the identity |
| Primitives.PointerLandmarks | first-project/main.js:160-161 | client (0,0) maps to (−1, 1), (width, height) to (1, −1), and the window centre to (0, 0) |
| Primitives.PointerMonotone | first-project/main.js:160-161 | device x is strictly increasing in client x, and device y strictly decreasing in client y (both directions of each if-and-only-if) |
| Primitives.PointerInWindow | first-project/main.js:159-162 | a client coordinate is inside the window exactly when its device coordinate is in [−1, 1] |
| Primitives.ReactToHit | first-project/main.js:201-208 | one hit: the sphere's id turns the object red, the name "box" adds 0.01 to its x- and y-rotation, and no other object changes |
| Primitives.React | first-project/main.js:200-209 | after the loop the sphere is red exactly when some hit is the sphere (otherwise its colour is unchanged); every object's x- and y-rotation grow by 0.01 per hit that names it "box"; z-rotations, names and the object set are unchanged |
| Primitives.NoBoxHits | first-project/main.js:204-208 | an object not named "box" is never turned by the hover loop |
| Primitives.SpinBox | first-project/main.js:186-187 | the green box's x-rotation is time/2000, and its y-rotation is exactly twice that |
| Primitives.Animate | first-project/main.js:185-209 | a frame advances `step` by the speed, sets the green box's rotation from time alone (y = 2x, z kept), reddens the sphere exactly when hit, turns other objects by the hover rule, and leaves every other object's colour unchanged |
| Primitives.Run | first-project/main.js:185-227 | a run of frames keeps the object set, the names and the scene's validity |
| Primitives.StepAccumulates | first-project/main.js:194 | after a run of frames `step` has grown by the sum of the frames' speeds |
| Primitives.StepAtConstantSpeed | first-project/main.js:194 | n frames at constant speed s grow `step` by exactly n·s |
| Primitives.GreenBoxAbsolute | first-project/main.js:186-187 | after any non-empty run the green box's rotation depends only on the last frame's time |
| Primitives.CreateScene | first-project/main.js:25-180 | the set-up scene holds exactly the eight children a ray can hit (axes, green box, floor, grid, sphere, spotlight helper, textured cube, wave plane); only the textured cube is named "box"; the sphere starts blue; `step` starts at 0 |
| Primitives.FrameKeepsRotation | first-project/main.js:204-208 | one frame leaves alone the rotation of every object other than the green box that is not named "box" |
| Primitives.NotBoxNeverTurns | first-project/main.js:204-208 | over any run of frames, an object other than the green box that is not named "box" keeps its rotation |
| Primitives.SphereRedOnceTouched | first-project/main.js:200-203 | after any run the sphere is red exactly when some frame hit it, and otherwise keeps its colour |
| Primitives.CreatedSceneRun | first-project/main.js:185-209 | from the set-up scene, whatever is hit, only the green box and the textured cube ever turn, and the sphere is red if some frame hit it and blue otherwise |

## Left out

- `model-importing/main.js` is not part of this model. It only loads a glTF file asynchronously, logs loader errors and runs a bare render loop.
- Renderer, camera, lights, `OrbitControls`, `Stats`, resize listeners and the `Scene` bootstrap class: thin wrappers over external libraries.
- Texture and cube-texture loading and the Saturn ring: asset I/O and scene dressing. The texture is kept only as an opaque token in `PlanetDescriptor`.
- The raycaster (`setFromCamera`, `intersectObjects`). Its output is the abstract hit sequence. Each hit must be an object of the scene and carry that object's name, which is what holding a reference to the object guarantees in the source.
- The sphere bounce `10*|sin(step)|+4`, the plane's vertex wave `sin(x)+cos(y)`, and world-space positions of planets composed through the pivot's rotation. These are transcendental floating-point numerics. The orbit-radius property is therefore stated on the mesh's fixed local offset and the pivot's fixed position, not on the rotated world position.
- Object ids are assigned by three.js at run time; the model takes them as parameters (`SceneIds`) that must be distinct. The spotlight helper's cone is modelled as one hittable object. The two lights have no geometry and are never hit. The colour of the line helpers is their material's default white; only the sphere's colour is ever read or changed.
- The spotlight helper's cone aim: `SpotLightHelper` points the cone at the light's fixed target on construction and again through `sLightHelper.update()` every frame. The target never moves, so the cone's rotation is constant; the model gives it the fixed rotation zero and leaves `sLightHelper.update()` out.
- The dat.GUI controls (sphere colour and wireframe callbacks, spotlight angle, penumbra and intensity). The speed slider enters only as a per-frame `speed` input.
- `setAnimationLoop` scheduling and the frame clock. Frame times are parameters.
- JavaScript double rounding. Reals are exact: after n hover hits the rotation has grown by exactly n·0.01, and `step` by exactly the sum of speeds.
- `Math.PI` is the real 3.141592653589793. No property depends on its value beyond the arithmetic shown.
- SolarSystem.RevolutionAngle: requires a non-zero distance. In JavaScript, a zero distance gives Infinity (or NaN at time 0), which reals cannot express. Every configured distance is positive.
- Primitives.PointerToNdc: requires a positive window width and height, for the same reason (division by the window size).
- The source does not validate planet radius or distance when a planet is created. The model accepts any descriptor, and only the update needs a non-zero distance.
- The spin uses the source's fixed factor 2π rather than a per-planet spin constant. The revolution formula is the source's inverse-distance ratio, not Kepler's law.
