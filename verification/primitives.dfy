/**
 The primitives demo's per-frame arithmetic: the pointer's conversion to
 normalised device coordinates, the time-driven spin of the green box, the
 `step` accumulator behind the sphere's bounce, and the reaction to the objects
 under the pointer (the raycaster itself is outside the model; its output is a
 sequence of hit records).
 */
module Primitives {
  import opened Geometry

  // ---------------------------------------------------------------------------
  // Pointer to normalised device coordinates

  datatype Vec2 = Vec2(x: real, y: real)

  /** The mousemove handler: x maps [0, width] onto [-1, 1]; y maps [0, height]
      onto [1, -1], since device y points up and client y points down. */
  function PointerToNdc(clientX: real, clientY: real, width: real, height: real): (p: Vec2)
    requires width > 0.0 && height > 0.0
    ensures (p.x + 1.0) * width == 2.0 * clientX
    ensures (1.0 - p.y) * height == 2.0 * clientY
  {
    Vec2(clientX / width * 2.0 - 1.0, -(clientY / height) * 2.0 + 1.0)
  }

  /** The client coordinates a device point comes from. */
  function NdcToPointer(p: Vec2, width: real, height: real): (c: Vec2)
    requires width > 0.0 && height > 0.0
    ensures 2.0 * c.x == (p.x + 1.0) * width
    ensures 2.0 * c.y == (1.0 - p.y) * height
  {
    Vec2((p.x + 1.0) * width / 2.0, (1.0 - p.y) * height / 2.0)
  }

  /** The conversion loses nothing, in either direction. */
  lemma PointerRoundTrip(clientX: real, clientY: real, p: Vec2, width: real, height: real)
    requires width > 0.0 && height > 0.0
    ensures NdcToPointer(PointerToNdc(clientX, clientY, width, height), width, height)
         == Vec2(clientX, clientY)
    ensures PointerToNdc(NdcToPointer(p, width, height).x, NdcToPointer(p, width, height).y,
                         width, height) == p
  {
  }

  /** The window's corners and centre land on the corners and centre of the device square. */
  lemma PointerLandmarks(width: real, height: real)
    requires width > 0.0 && height > 0.0
    ensures PointerToNdc(0.0, 0.0, width, height) == Vec2(-1.0, 1.0)
    ensures PointerToNdc(width, height, width, height) == Vec2(1.0, -1.0)
    ensures PointerToNdc(width / 2.0, height / 2.0, width, height) == Vec2(0.0, 0.0)
  {
  }

  /** Device x strictly increases with client x; device y strictly decreases with client y. */
  lemma PointerMonotone(x1: real, y1: real, x2: real, y2: real, width: real, height: real)
    requires width > 0.0 && height > 0.0
    ensures x1 < x2 <==> PointerToNdc(x1, y1, width, height).x < PointerToNdc(x2, y2, width, height).x
    ensures y1 < y2 <==> PointerToNdc(x1, y1, width, height).y > PointerToNdc(x2, y2, width, height).y
  {
  }

  /** A pointer inside the window, and only such a pointer, lands in the device square. */
  lemma PointerInWindow(clientX: real, clientY: real, width: real, height: real)
    requires width > 0.0 && height > 0.0
    ensures 0.0 <= clientX <= width <==> -1.0 <= PointerToNdc(clientX, clientY, width, height).x <= 1.0
    ensures 0.0 <= clientY <= height <==> -1.0 <= PointerToNdc(clientX, clientY, width, height).y <= 1.0
  {
    PointerLandmarks(width, height);
    PointerMonotone(0.0, 0.0, clientX, clientY, width, height);
    PointerMonotone(clientX, clientY, width, height, width, height);
  }

  // ---------------------------------------------------------------------------
  // Scene objects and the objects under the pointer

  type ObjectId = nat
  /** A colour as the 24-bit hexadecimal number three.js accepts. */
  type Color = nat

  const Red: Color := 0xff0000
  /** The name given to the textured cube, the only object the hover turns. */
  const BoxName: string := "box"
  /** Radians the hover adds to each of the cube's x- and y-rotations per hit. */
  const HoverTurn: real := 0.01

  /** A scene object as the demo sees it: its name, its material colour and its rotation. */
  datatype Obj = Obj(name: string, color: Color, rotation: Vec3)

  /** One raycaster intersection: the id and the name of the object hit. */
  datatype Hit = Hit(id: ObjectId, name: string)

  /** Every hit is an object of the scene and carries that object's name. */
  predicate HitsInScene(objects: map<ObjectId, Obj>, hits: seq<Hit>)
  {
    forall i :: 0 <= i < |hits| ==> hits[i].id in objects && objects[hits[i].id].name == hits[i].name
  }

  /** How many hits name object `id` and are called "box". */
  function BoxHits(hits: seq<Hit>, id: ObjectId): nat
  {
    if hits == [] then 0
    else BoxHits(hits[..|hits| - 1], id)
         + (if hits[|hits| - 1].id == id && hits[|hits| - 1].name == BoxName then 1 else 0)
  }

  /** Whether some hit is the object `id`. */
  predicate Touched(hits: seq<Hit>, id: ObjectId)
  {
    exists i :: 0 <= i < |hits| && hits[i].id == id
  }

  /** The body of the hover loop for one hit: the sphere turns red; an object
      called "box" turns a little further about x and y; nothing else happens. */
  function ReactToHit(objects: map<ObjectId, Obj>, h: Hit, sphereId: ObjectId): (r: map<ObjectId, Obj>)
    requires h.id in objects
    ensures r.Keys == objects.Keys
    ensures forall id :: id in objects && id != h.id ==> r[id] == objects[id]
    ensures r[h.id].name == objects[h.id].name
    ensures r[h.id].color == if h.id == sphereId then Red else objects[h.id].color
    ensures r[h.id].rotation
         == if h.name == BoxName
            then Vec3(objects[h.id].rotation.x + HoverTurn, objects[h.id].rotation.y + HoverTurn,
                      objects[h.id].rotation.z)
            else objects[h.id].rotation
  {
    var o := objects[h.id];
    var recoloured := if h.id == sphereId then o.(color := Red) else o;
    var turned := if h.name == BoxName
                  then recoloured.(rotation := Vec3(o.rotation.x + HoverTurn, o.rotation.y + HoverTurn, o.rotation.z))
                  else recoloured;
    objects[h.id := turned]
  }

  /** The hover loop over all hits, first to last. The sphere is red afterwards
      exactly when it was hit (or was red already); every object's x- and
      y-rotation grow by HoverTurn per hit that names it "box"; nothing else changes. */
  function React(objects: map<ObjectId, Obj>, hits: seq<Hit>, sphereId: ObjectId): (r: map<ObjectId, Obj>)
    requires HitsInScene(objects, hits)
    ensures r.Keys == objects.Keys
    ensures forall id :: id in objects ==> r[id].name == objects[id].name
    ensures forall id :: id in objects ==>
      r[id].color == if id == sphereId && Touched(hits, id) then Red else objects[id].color
    ensures forall id :: id in objects ==>
      r[id].rotation == Vec3(objects[id].rotation.x + HoverTurn * BoxHits(hits, id) as real,
                             objects[id].rotation.y + HoverTurn * BoxHits(hits, id) as real,
                             objects[id].rotation.z)
    decreases |hits|
  {
    if hits == [] then objects
    else
      var init := hits[..|hits| - 1];
      assert HitsInScene(objects, init) by {
        forall i | 0 <= i < |init| ensures init[i] == hits[i] { }
      }
      ReactToHit(React(objects, init, sphereId), hits[|hits| - 1], sphereId)
  }

  /** A hit carries its object's name, so an object not called "box" is never turned. */
  lemma {:induction false} NoBoxHits(objects: map<ObjectId, Obj>, hits: seq<Hit>, id: ObjectId)
    requires HitsInScene(objects, hits)
    requires id in objects && objects[id].name != BoxName
    ensures BoxHits(hits, id) == 0
    decreases |hits|
  {
    if hits != [] {
      var init := hits[..|hits| - 1];
      assert HitsInScene(objects, init) by {
        forall i | 0 <= i < |init| ensures init[i] == hits[i] { }
      }
      NoBoxHits(objects, init, id);
    }
  }

  // ---------------------------------------------------------------------------
  // Frames

  /** The animated state: the scene objects, the ids of the green box and the
      sphere, and the bounce accumulator `step`. */
  datatype Scene = Scene(objects: map<ObjectId, Obj>, boxId: ObjectId, sphereId: ObjectId, step: real)

  /** What a frame receives from outside: the clock, the speed slider, the raycaster's hits. */
  datatype FrameInput = FrameInput(time: real, speed: real, hits: seq<Hit>)

  /** The green box and the sphere are two distinct objects of the scene, and the
      green box is not the one called "box". */
  predicate Valid(s: Scene)
  {
    && s.boxId in s.objects
    && s.sphereId in s.objects
    && s.boxId != s.sphereId
    && s.objects[s.boxId].name != BoxName
  }

  /** The green box's rotation, set from the frame time: y turns twice as fast as x. */
  function SpinBox(box: Obj, time: real): (r: Obj)
    ensures r.rotation.x * 2000.0 == time
    ensures r.rotation.y == 2.0 * r.rotation.x
    ensures r.rotation.z == box.rotation.z
    ensures r.name == box.name && r.color == box.color
  {
    box.(rotation := Vec3(time / 2000.0, time / 1000.0, box.rotation.z))
  }

  /** One call of the render-loop callback: spin the green box, advance `step`
      by the current speed, then react to the hits. */
  function Animate(s: Scene, f: FrameInput): (r: Scene)
    requires Valid(s) && HitsInScene(s.objects, f.hits)
    ensures Valid(r)
    ensures r.boxId == s.boxId && r.sphereId == s.sphereId
    ensures r.objects.Keys == s.objects.Keys
    ensures forall id :: id in s.objects ==> r.objects[id].name == s.objects[id].name
    ensures r.step == s.step + f.speed
    ensures r.objects[r.boxId].rotation.x * 2000.0 == f.time
    ensures r.objects[r.boxId].rotation.y == 2.0 * r.objects[r.boxId].rotation.x
    ensures r.objects[r.sphereId].color
         == if Touched(f.hits, s.sphereId) then Red else s.objects[s.sphereId].color
    ensures forall id :: id in s.objects && id != s.boxId ==>
      r.objects[id].rotation == Vec3(s.objects[id].rotation.x + HoverTurn * BoxHits(f.hits, id) as real,
                                     s.objects[id].rotation.y + HoverTurn * BoxHits(f.hits, id) as real,
                                     s.objects[id].rotation.z)
    ensures forall id :: id in s.objects && id != s.sphereId ==> r.objects[id].color == s.objects[id].color
    ensures r.objects[r.boxId].rotation.z == s.objects[s.boxId].rotation.z
  {
    var objects := s.objects[s.boxId := SpinBox(s.objects[s.boxId], f.time)];
    assert HitsInScene(objects, f.hits);
    NoBoxHits(objects, f.hits, s.boxId);
    s.(objects := React(objects, f.hits, s.sphereId), step := s.step + f.speed)
  }

  /** Every frame's hits are objects of the scene (the object set never changes). */
  predicate FramesInScene(objects: map<ObjectId, Obj>, frames: seq<FrameInput>)
  {
    forall j :: 0 <= j < |frames| ==> HitsInScene(objects, frames[j].hits)
  }

  /** The scene after a run of frames, oldest first. */
  function Run(s: Scene, frames: seq<FrameInput>): (r: Scene)
    requires Valid(s) && FramesInScene(s.objects, frames)
    ensures Valid(r)
    ensures r.boxId == s.boxId && r.sphereId == s.sphereId
    ensures r.objects.Keys == s.objects.Keys
    ensures forall id :: id in s.objects ==> r.objects[id].name == s.objects[id].name
    decreases |frames|
  {
    if frames == [] then s
    else
      var init := frames[..|frames| - 1];
      assert FramesInScene(s.objects, init) by {
        forall j | 0 <= j < |init| ensures init[j] == frames[j] { }
      }
      var before := Run(s, init);
      assert HitsInScene(before.objects, frames[|frames| - 1].hits);
      Animate(before, frames[|frames| - 1])
  }

  /** The sum of the speeds of a run of frames. */
  function TotalSpeed(frames: seq<FrameInput>): real
  {
    if frames == [] then 0.0 else TotalSpeed(frames[..|frames| - 1]) + frames[|frames| - 1].speed
  }

  /** `step` is never reset: after a run it has grown by the sum of the frames' speeds. */
  lemma {:induction false} StepAccumulates(s: Scene, frames: seq<FrameInput>)
    requires Valid(s) && FramesInScene(s.objects, frames)
    ensures Run(s, frames).step == s.step + TotalSpeed(frames)
    decreases |frames|
  {
    if frames != [] {
      var init := frames[..|frames| - 1];
      assert FramesInScene(s.objects, init) by {
        forall j | 0 <= j < |init| ensures init[j] == frames[j] { }
      }
      StepAccumulates(s, init);
    }
  }

  /** n frames at a constant speed grow `step` by n times that speed. */
  lemma {:induction false} StepAtConstantSpeed(s: Scene, frames: seq<FrameInput>, speed: real)
    requires Valid(s) && FramesInScene(s.objects, frames)
    requires forall j :: 0 <= j < |frames| ==> frames[j].speed == speed
    ensures Run(s, frames).step == s.step + |frames| as real * speed
  {
    StepAccumulates(s, frames);
    ConstantTotal(frames, speed);
  }

  lemma {:induction false} ConstantTotal(frames: seq<FrameInput>, speed: real)
    requires forall j :: 0 <= j < |frames| ==> frames[j].speed == speed
    ensures TotalSpeed(frames) == |frames| as real * speed
    decreases |frames|
  {
    if frames != [] {
      var init := frames[..|frames| - 1];
      assert forall j :: 0 <= j < |init| ==> init[j] == frames[j];
      ConstantTotal(init, speed);
    }
  }

  /** The green box's pose is absolute: after any non-empty run it depends only on
      the last frame's time, so replaying a frame leaves it where it was. */
  lemma GreenBoxAbsolute(s: Scene, frames: seq<FrameInput>)
    requires Valid(s) && FramesInScene(s.objects, frames) && frames != []
    ensures Run(s, frames).objects[s.boxId].rotation.x == frames[|frames| - 1].time / 2000.0
    ensures Run(s, frames).objects[s.boxId].rotation.y == frames[|frames| - 1].time / 1000.0
  {
  }

  /** A non-empty run is its shorter run followed by one more frame. */
  lemma RunLastFrame(s: Scene, frames: seq<FrameInput>)
    requires Valid(s) && FramesInScene(s.objects, frames) && frames != []
    ensures FramesInScene(s.objects, frames[..|frames| - 1])
    ensures HitsInScene(Run(s, frames[..|frames| - 1]).objects, frames[|frames| - 1].hits)
    ensures Run(s, frames) == Animate(Run(s, frames[..|frames| - 1]), frames[|frames| - 1])
  {
    var init := frames[..|frames| - 1];
    assert FramesInScene(s.objects, init) by {
      forall j | 0 <= j < |init| ensures init[j] == frames[j] { }
    }
    var before := Run(s, init);
    assert HitsInScene(s.objects, frames[|frames| - 1].hits);
    HitsStayInScene(s.objects, before.objects, frames[|frames| - 1].hits);
  }

  /** Hits on one object set are hits on any object set with the same ids and names. */
  lemma HitsStayInScene(a: map<ObjectId, Obj>, b: map<ObjectId, Obj>, hits: seq<Hit>)
    requires HitsInScene(a, hits)
    requires a.Keys == b.Keys && forall id :: id in a ==> b[id].name == a[id].name
    ensures HitsInScene(b, hits)
  {
  }

  /** One frame leaves the rotation of an object other than the green box and not called "box" alone. */
  lemma FrameKeepsRotation(s: Scene, f: FrameInput, id: ObjectId)
    requires Valid(s) && HitsInScene(s.objects, f.hits)
    requires id in s.objects && id != s.boxId && s.objects[id].name != BoxName
    ensures Animate(s, f).objects[id].rotation == s.objects[id].rotation
  {
    NoBoxHits(s.objects, f.hits, id);
  }

  /** A hover hit on an object not called "box" never turns it, over any run. */
  lemma {:induction false} NotBoxNeverTurns(s: Scene, frames: seq<FrameInput>, id: ObjectId)
    requires Valid(s) && FramesInScene(s.objects, frames)
    requires id in s.objects && id != s.boxId && s.objects[id].name != BoxName
    ensures Run(s, frames).objects[id].rotation == s.objects[id].rotation
    decreases |frames|
  {
    if frames != [] {
      var init, last := frames[..|frames| - 1], frames[|frames| - 1];
      RunLastFrame(s, frames);
      FrameKeepsRotation(Run(s, init), last, id);
      NotBoxNeverTurns(s, init, id);
    }
  }

  /** Whether the object `id` was under the pointer in some frame. */
  predicate EverTouched(frames: seq<FrameInput>, id: ObjectId)
  {
    exists j :: 0 <= j < |frames| && Touched(frames[j].hits, id)
  }

  /** Absent the colour picker, nothing turns the sphere back: after a run it is
      red exactly when it was hit in some frame, and otherwise keeps its colour. */
  lemma {:induction false} SphereRedOnceTouched(s: Scene, frames: seq<FrameInput>)
    requires Valid(s) && FramesInScene(s.objects, frames)
    ensures Run(s, frames).objects[s.sphereId].color
         == if EverTouched(frames, s.sphereId) then Red else s.objects[s.sphereId].color
    decreases |frames|
  {
    if frames != [] {
      var init, last := frames[..|frames| - 1], frames[|frames| - 1];
      RunLastFrame(s, frames);
      SphereRedOnceTouched(s, init);
      EverTouchedLast(frames, s.sphereId);
    }
  }

  /** An object was touched in a run exactly when it was touched before the last
      frame or in the last frame. */
  lemma EverTouchedLast(frames: seq<FrameInput>, id: ObjectId)
    requires frames != []
    ensures EverTouched(frames, id)
        <==> EverTouched(frames[..|frames| - 1], id) || Touched(frames[|frames| - 1].hits, id)
  {
  }

  // ---------------------------------------------------------------------------
  // The set-up scene

  /** The ids of the scene's children a ray can hit, in the order they are added:
      the axes helper, the green box, the floor plane, the grid helper, the sphere,
      the spotlight helper's cone, the textured cube and the wave plane. The two
      lights have no geometry and are never hit. */
  datatype SceneIds = SceneIds(axes: ObjectId, box: ObjectId, plane: ObjectId, grid: ObjectId,
                               sphere: ObjectId, spotLightCone: ObjectId, box2: ObjectId, plane2: ObjectId)

  function IdList(ids: SceneIds): seq<ObjectId>
  {
    [ids.axes, ids.box, ids.plane, ids.grid, ids.sphere, ids.spotLightCone, ids.box2, ids.plane2]
  }

  /** Every object has its own id. */
  predicate DistinctIds(ids: SceneIds)
  {
    var l := IdList(ids);
    forall i, j :: 0 <= i < j < |l| ==> l[i] != l[j]
  }

  const White: Color := 0xffffff

  /** The set-up scene: every hittable child with its initial colour and rotation;
      only the textured cube is called "box"; `step` starts at 0. */
  function CreateScene(ids: SceneIds): (s: Scene)
    requires DistinctIds(ids)
    ensures Valid(s)
    ensures s.boxId == ids.box && s.sphereId == ids.sphere && s.step == 0.0
    ensures forall id :: id in s.objects <==> id in IdList(ids)
    ensures forall id :: id in s.objects ==> (s.objects[id].name == BoxName <==> id == ids.box2)
    ensures s.objects[ids.sphere].color == 0x0000ff
  {
    var l := IdList(ids);
    assert l[1] != l[4] && l[1] != l[6] && l[4] != l[6];
    Scene(map id | id in l :: InitialObj(ids, id), ids.box, ids.sphere, 0.0)
  }

  /** The object with id `id` as created: the green box, the blue sphere, the red
      wave plane, the floor turned flat by -pi/2 about x, the cube called "box";
      the helpers keep their materials' default white. */
  function InitialObj(ids: SceneIds, id: ObjectId): Obj
  {
    var name := if id == ids.box2 then BoxName else "";
    var color := if id == ids.box then 0x00ff00
                 else if id == ids.sphere then 0x0000ff
                 else if id == ids.plane2 then 0xff0000
                 else White;
    var rotation := if id == ids.plane then Vec3(-Pi / 2.0, 0.0, 0.0) else Zero;
    Obj(name, color, rotation)
  }

  /** From the set-up scene, whatever the pointer passes over: only the green box
      (by the clock) and the textured cube (by the hover) ever turn, and, absent the
      colour picker, the sphere is red exactly when it was hit in some frame, blue
      otherwise. */
  lemma CreatedSceneRun(ids: SceneIds, frames: seq<FrameInput>)
    requires DistinctIds(ids) && FramesInScene(CreateScene(ids).objects, frames)
    ensures forall id :: id in CreateScene(ids).objects && id != ids.box && id != ids.box2 ==>
      Run(CreateScene(ids), frames).objects[id].rotation == CreateScene(ids).objects[id].rotation
    ensures Run(CreateScene(ids), frames).objects[ids.sphere].color
         == if EverTouched(frames, ids.sphere) then Red else 0x0000ff
  {
    var s := CreateScene(ids);
    forall id | id in s.objects && id != ids.box && id != ids.box2
      ensures Run(s, frames).objects[id].rotation == s.objects[id].rotation
    {
      NotBoxNeverTurns(s, frames, id);
    }
    SphereRedOnceTouched(s, frames);
  }
}
