/**
 The solar-system demo: every planet is a pivot node at the sun with the planet
 mesh as its only child, offset along x by the planet's distance from the sun.
 Each frame the pivot's y-rotation (revolution) and the mesh's y-rotation (spin)
 are set from the frame time alone; the sun spins at the base rate.
 */
module SolarSystem {
  import opened Geometry

  /** Radians of sun rotation per millisecond of animation time. */
  const TimeCoefficient: real := 0.001
  /** Earth's orbit radius, the reference distance for every revolution speed. */
  const EarthDistanceFromSun: real := 20.0

  /** The argument of the planet factory: an opaque texture token, a size and an orbit radius. */
  datatype PlanetDescriptor = PlanetDescriptor(texture: string, radius: real, distanceFromSun: real)

  /** A created planet: its descriptor, captured by the update, and its two nodes. */
  datatype Planet = Planet(descriptor: PlanetDescriptor, orbit: Node, mesh: Node)

  /** The animated part of the scene: the sun mesh and the planets in creation order. */
  datatype Scene = Scene(sun: Node, planets: seq<Planet>)

  /** One invocation of a planet's update: which planet, with which time. */
  datatype Call = Call(planet: nat, time: real)

  // The configured planets, in the order they are created and animated.
  const Earth: nat := 0
  const Jupiter: nat := 1
  const Mars: nat := 2
  const Mercury: nat := 3
  const Neptune: nat := 4
  const Saturn: nat := 5
  const Uranus: nat := 6
  const Venus: nat := 7

  const PlanetTable: seq<PlanetDescriptor> := [
    PlanetDescriptor("/earth.jpg", 1.0, EarthDistanceFromSun),
    PlanetDescriptor("/jupiter.jpg", 2.0, EarthDistanceFromSun * 5.0),
    PlanetDescriptor("/mars.jpg", 1.0, EarthDistanceFromSun * 1.5),
    PlanetDescriptor("/mercury.jpg", 0.5, EarthDistanceFromSun * 0.5),
    PlanetDescriptor("/neptune.jpg", 1.5, EarthDistanceFromSun * 7.0),
    PlanetDescriptor("/saturn.jpg", 2.0, EarthDistanceFromSun * 9.0),
    PlanetDescriptor("/uranus.jpg", 1.5, EarthDistanceFromSun * 8.0),
    PlanetDescriptor("/venus.jpg", 1.0, EarthDistanceFromSun * 2.0)
  ]

  // ---------------------------------------------------------------------------
  // Angles

  /** The sun's rotation: one radian per second of animation time. */
  function SunAngle(time: real): (a: real)
    ensures a * 1000.0 == time
  {
    time * TimeCoefficient
  }

  /** The revolution angle of a planet at `distance`: inversely proportional to the
      distance, normalised so that a planet at Earth's distance keeps pace with the sun. */
  function RevolutionAngle(time: real, distance: real): (a: real)
    requires distance != 0.0
    ensures a * distance == SunAngle(time) * EarthDistanceFromSun
    ensures distance == EarthDistanceFromSun ==> a == SunAngle(time)
    ensures time == 0.0 ==> a == 0.0
    ensures time > 0.0 && distance > 0.0 ==> a > 0.0
  {
    time * TimeCoefficient * EarthDistanceFromSun / distance
  }

  /** The spin angle of every planet: one full turn per second, whatever the planet. */
  function SpinAngle(time: real): (a: real)
    ensures a == 2.0 * Pi * SunAngle(time)
    ensures time == 0.0 ==> a == 0.0
  {
    time * TimeCoefficient * 2.0 * Pi
  }

  // ---------------------------------------------------------------------------
  // Planet factory and per-planet update

  /** A planet whose update is defined: the division by its distance is by a non-zero number. */
  predicate Orbiting(p: Planet)
  {
    p.descriptor.distanceFromSun != 0.0
  }

  predicate AllOrbiting(planets: seq<Planet>)
  {
    forall i :: 0 <= i < |planets| ==> Orbiting(planets[i])
  }

  /** Builds the pivot/mesh pair: the pivot at the sun, unrotated; the mesh offset
      by the orbit radius along x, unrotated. */
  function CreatePlanete(d: PlanetDescriptor): (p: Planet)
    ensures p.descriptor == d
    ensures p.orbit.position == Zero
    ensures p.mesh.position == Vec3(d.distanceFromSun, 0.0, 0.0)
    ensures NormSq(p.mesh.position) == d.distanceFromSun * d.distanceFromSun
    ensures p.orbit.rotation == Zero && p.mesh.rotation == Zero
  {
    Planet(d, Node(Zero, Zero), Node(Vec3(d.distanceFromSun, 0.0, 0.0), Zero))
  }

  /** The planet's update closure applied at `time`: it writes the pivot's y-rotation
      and the mesh's y-rotation, both computed from `time` alone, and nothing else. */
  function Update(p: Planet, time: real): (r: Planet)
    requires Orbiting(p)
    ensures r.descriptor == p.descriptor
    ensures r.orbit.position == p.orbit.position && r.mesh.position == p.mesh.position
    ensures r.orbit.rotation.x == p.orbit.rotation.x && r.orbit.rotation.z == p.orbit.rotation.z
    ensures r.mesh.rotation.x == p.mesh.rotation.x && r.mesh.rotation.z == p.mesh.rotation.z
    ensures r.orbit.rotation.y == RevolutionAngle(time, p.descriptor.distanceFromSun)
    ensures r.mesh.rotation.y == SpinAngle(time)
  {
    p.(orbit := SetRotationY(p.orbit, RevolutionAngle(time, p.descriptor.distanceFromSun)),
       mesh := SetRotationY(p.mesh, SpinAngle(time)))
  }

  // ---------------------------------------------------------------------------
  // Frames

  /** Every planet's update applied once with the same `time`. */
  function UpdateAll(planets: seq<Planet>, time: real): (r: seq<Planet>)
    requires AllOrbiting(planets)
    ensures |r| == |planets|
    ensures forall i :: 0 <= i < |planets| ==> r[i] == Update(planets[i], time)
  {
    if planets == [] then []
    else [Update(planets[0], time)] + UpdateAll(planets[1..], time)
  }

  /** The state one frame at `time` leaves the scene in. */
  function SceneAt(s: Scene, time: real): (r: Scene)
    requires AllOrbiting(s.planets)
    ensures AllOrbiting(r.planets) && |r.planets| == |s.planets|
    ensures forall i :: 0 <= i < |s.planets| ==> r.planets[i] == Update(s.planets[i], time)
    ensures r.sun.position == s.sun.position
    ensures r.sun.rotation.x == s.sun.rotation.x && r.sun.rotation.z == s.sun.rotation.z
    ensures r.sun.rotation.y == SunAngle(time)
  {
    Scene(SetRotationY(s.sun, SunAngle(time)), UpdateAll(s.planets, time))
  }

  /** The planets after a log of update calls is carried out, first call first;
      a call naming no planet changes nothing. */
  function Replay(planets: seq<Planet>, log: seq<Call>): (r: seq<Planet>)
    requires AllOrbiting(planets)
    ensures AllOrbiting(r) && |r| == |planets|
    decreases |log|
  {
    if log == [] then planets
    else
      var before := Replay(planets, log[..|log| - 1]);
      var c := log[|log| - 1];
      if c.planet < |before| then before[c.planet := Update(before[c.planet], c.time)] else before
  }

  /** One call of the render-loop callback: the sun's spin, then each planet's update
      exactly once, in creation order, all with the same `time`; `log` records the calls. */
  method Animate(s: Scene, time: real) returns (r: Scene, log: seq<Call>)
    requires AllOrbiting(s.planets)
    ensures r == SceneAt(s, time)
    ensures r.planets == Replay(s.planets, log)
    ensures |log| == |s.planets|
    ensures forall i :: 0 <= i < |log| ==> log[i] == Call(i, time)
  {
    var sun := SetRotationY(s.sun, SunAngle(time));
    var planets := s.planets;
    log := [];
    var i := 0;
    while i < |planets|
      invariant 0 <= i <= |planets| == |s.planets|
      invariant forall k :: 0 <= k < i ==> planets[k] == Update(s.planets[k], time)
      invariant forall k :: i <= k < |planets| ==> planets[k] == s.planets[k]
      invariant |log| == i
      invariant forall k :: 0 <= k < i ==> log[k] == Call(k, time)
      invariant planets == Replay(s.planets, log)
    {
      planets := planets[i := Update(planets[i], time)];
      var extended := log + [Call(i, time)];
      assert extended[..|extended| - 1] == log;
      log := extended;
      i := i + 1;
    }
    assert planets == UpdateAll(s.planets, time);
    r := Scene(sun, planets);
  }

  /** The scene after a run of frames at the given times, oldest first. */
  function Run(s: Scene, times: seq<real>): (r: Scene)
    requires AllOrbiting(s.planets)
    ensures AllOrbiting(r.planets) && |r.planets| == |s.planets|
    decreases |times|
  {
    if times == [] then s
    else SceneAt(Run(s, times[..|times| - 1]), times[|times| - 1])
  }

  /** The scene as set up before the first frame: the sun at the origin, unrotated,
      and one freshly created planet per table entry, in creation order. */
  function CreateScene(): (s: Scene)
    ensures s.sun == Node(Zero, Zero)
    ensures AllOrbiting(s.planets)
    ensures |s.planets| == |PlanetTable|
    ensures forall i :: 0 <= i < |PlanetTable| ==> s.planets[i] == CreatePlanete(PlanetTable[i])
    ensures forall i :: 0 <= i < |PlanetTable| ==> s.planets[i].descriptor == PlanetTable[i]
  {
    Scene(Node(Zero, Zero),
          seq(|PlanetTable|, i requires 0 <= i < |PlanetTable| => CreatePlanete(PlanetTable[i])))
  }

  // ---------------------------------------------------------------------------
  // Properties of a single update

  /** Angles are assigned, never accumulated: the previous update is forgotten. */
  lemma UpdateIsAbsolute(p: Planet, t0: real, t: real)
    requires Orbiting(p)
    ensures Update(Update(p, t0), t) == Update(p, t)
  {
  }

  /** A freshly created planet is exactly in its pose for time zero. */
  lemma CreatedPlanetAtTimeZero(d: PlanetDescriptor)
    requires d.distanceFromSun != 0.0
    ensures Update(CreatePlanete(d), 0.0) == CreatePlanete(d)
  {
  }

  /** Spin does not depend on the planet: any two planets spin identically at any time. */
  lemma SpinIndependentOfPlanet(p: Planet, q: Planet, time: real)
    requires Orbiting(p) && Orbiting(q)
    ensures Update(p, time).mesh.rotation.y == Update(q, time).mesh.rotation.y
    ensures Update(p, time).orbit.rotation.y == Update(p.(mesh := q.mesh), time).orbit.rotation.y
  {
  }

  /** A positive quantity shared out over a larger divisor gives a smaller share. */
  lemma DivisionDecreasing(c: real, d1: real, d2: real)
    requires c > 0.0 && 0.0 < d1 < d2
    ensures c / d1 > c / d2
  {
  }

  /** For positive time, a strictly nearer orbit has the strictly larger angle. */
  lemma NearerIsFaster(time: real, d1: real, d2: real)
    requires time > 0.0 && 0.0 < d1 < d2
    ensures RevolutionAngle(time, d1) > RevolutionAngle(time, d2)
  {
    var c := time * TimeCoefficient * EarthDistanceFromSun;
    assert RevolutionAngle(time, d1) == c / d1 && RevolutionAngle(time, d2) == c / d2;
    DivisionDecreasing(c, d1, d2);
  }

  /** For positive time and distances, a nearer orbit has the strictly larger angle, and conversely. */
  lemma RevolutionDecreasing(time: real, d1: real, d2: real)
    requires time > 0.0 && d1 > 0.0 && d2 > 0.0
    ensures d1 < d2 <==> RevolutionAngle(time, d1) > RevolutionAngle(time, d2)
  {
    if d1 < d2 {
      NearerIsFaster(time, d1, d2);
    } else if d2 < d1 {
      NearerIsFaster(time, d2, d1);
    }
  }

  /** Angular speeds are in the inverse ratio of the distances. */
  lemma RevolutionRatio(time: real, d1: real, d2: real)
    requires d1 != 0.0 && d2 != 0.0
    ensures RevolutionAngle(time, d1) * d1 == RevolutionAngle(time, d2) * d2
  {
  }

  // ---------------------------------------------------------------------------
  // Properties of the configured planets

  /** The revolution angle of the i-th configured planet. */
  function TableAngle(time: real, i: nat): real
    requires i < |PlanetTable|
  {
    RevolutionAngle(time, PlanetTable[i].distanceFromSun)
  }

  /** Mercury, the nearest planet, revolves fastest; Saturn, the farthest, slowest. */
  lemma MercuryFastestSaturnSlowest(time: real, i: nat)
    requires time > 0.0 && i < |PlanetTable|
    ensures i != Mercury ==> TableAngle(time, Mercury) > TableAngle(time, i)
    ensures i != Saturn ==> TableAngle(time, Saturn) < TableAngle(time, i)
  {
  }

  /** Earth's pivot turns in lock-step with the sun. */
  lemma EarthMatchesSun(time: real)
    ensures TableAngle(time, Earth) == SunAngle(time)
    ensures SceneAt(CreateScene(), time).planets[Earth].orbit.rotation.y
         == SceneAt(CreateScene(), time).sun.rotation.y
  {
  }

  /** Earth revolves exactly five times as fast as Jupiter and twice as fast as Venus. */
  lemma EarthSpeedRatios(time: real)
    ensures TableAngle(time, Earth) == 5.0 * TableAngle(time, Jupiter)
    ensures TableAngle(time, Earth) == 2.0 * TableAngle(time, Venus)
  {
  }

  /** One second in, Earth's pivot has turned exactly one radian. */
  lemma EarthAfterOneSecond()
    ensures TableAngle(1000.0, Earth) == 1.0
  {
  }

  // ---------------------------------------------------------------------------
  // Properties of frames

  /** A frame forgets every earlier frame: only the latest time matters. */
  lemma SceneAtIsAbsolute(s: Scene, t0: real, t: real)
    requires AllOrbiting(s.planets)
    ensures SceneAt(SceneAt(s, t0), t) == SceneAt(s, t)
  {
  }

  /** At time zero every angle is zero, so the set-up scene is its own first frame. */
  lemma FirstFrameAtZeroIsSetUp()
    ensures SceneAt(CreateScene(), 0.0) == CreateScene()
  {
  }

  /** Any run of frames ends in the state of its last frame alone. */
  lemma {:induction false} RunIsAbsolute(s: Scene, times: seq<real>)
    requires AllOrbiting(s.planets) && times != []
    ensures Run(s, times) == SceneAt(s, times[|times| - 1])
    decreases |times|
  {
    var init := times[..|times| - 1];
    if init != [] {
      RunIsAbsolute(s, init);
      assert init[|init| - 1] == times[|times| - 2];
      SceneAtIsAbsolute(s, times[|times| - 2], times[|times| - 1]);
    }
  }

  /** Running the same frame twice changes nothing. */
  lemma FrameIdempotent(s: Scene, time: real)
    requires AllOrbiting(s.planets)
    ensures SceneAt(SceneAt(s, time), time) == SceneAt(s, time)
  {
    SceneAtIsAbsolute(s, time, time);
  }

  /** Orbit radii never change: after any run of frames every pivot is still at the
      sun and every mesh still sits at its creation offset. */
  lemma RunKeepsOrbitRadius(times: seq<real>, i: nat)
    requires i < |PlanetTable|
    ensures Run(CreateScene(), times).planets[i].orbit.position == Zero
    ensures Run(CreateScene(), times).planets[i].mesh.position
         == Vec3(PlanetTable[i].distanceFromSun, 0.0, 0.0)
  {
    if times != [] {
      RunIsAbsolute(CreateScene(), times);
    }
  }
}
