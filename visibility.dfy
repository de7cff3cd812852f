/** The `light-frustum` system and the `offscreen-respawn` component.

    Both copies of the component (Components/random-compositions.js and
    Components/random-compositions-frustum-backup.js) share the tracker, the
    bounding-sphere tiers and the visibility transitions; they differ in the
    respawn placement, so one class carries a `version` and implements both
    placements. */
module Visibility {
  import opened Geometry

  datatype Event = EnterView | ExitView | RespawnedOffscreen

  /** Current: random-compositions.js; Backup: random-compositions-frustum-backup.js. */
  datatype Version = Current | Backup

  /** The component's schema. */
  datatype Config = Config(
    radius: real, minDist: real, maxDist: real, marginDeg: real,
    lockY: bool, yMin: real, yMax: real, randomYawOnly: bool)

  /** The system's default throttle, in milliseconds. */
  const DefaultThrottleMs: real := 60.0

  /** The geometry bounding sphere cached by _setupBoundsOnce, in mesh space. */
  datatype MeshSphere = MeshSphere(center: Vec3, radius: real)

  /** What the scene graph reports for the entity in a given pose: its world
      position, the mesh's matrixWorld applied to a mesh-space point, the
      mesh's world scale, and Box3.setFromObject of its subtree. */
  datatype WorldView = WorldView(position: Vec3, meshToWorld: Vec3 -> Vec3, meshScale: Vec3, box: Box)

  /** object3D.position and object3D.rotation (radians). */
  datatype Pose = Pose(position: Vec3, rotation: Vec3)

  /** The scene camera: world position, unit forward, vertical FOV in degrees,
      clip distances, and the frustum its projection and view matrices span. */
  datatype Camera = Camera(position: Vec3, forward: Vec3, fov: real, near: real, far: real, frustum: Frustum)

  /** A candidate placement: unit direction from the camera, distance, pose. */
  datatype Candidate = Candidate(dir: Vec3, dist: real, pose: Pose)

  /** One counted placement attempt of __respawnOffscreen: the candidate, the
      vector its cone test was taken against (what `camFwd`, an alias of the
      scratch vector `_tmpV1`, held at that moment) and its frustum test. */
  datatype Trial = Trial(candidate: Candidate, reference: Vec3, visible: bool)

  /** What a call of __respawnOffscreen did. `Exhausted` means the random
      oracle ran out before the call finished (the source would go on drawing). */
  datatype Respawn = NotCalled | Skipped | Placed | FellBack(dirIndex: nat) | Exhausted
  {
    predicate Committed() { Placed? || FellBack? }
  }

  /** __getWorldSphere: fixed radius, else the cached mesh sphere carried to
      world space and scaled by the largest world-scale component, else the
      sphere around the subtree's box, or radius 0.5 when that box is empty. */
  function WorldSphere(radius: real, cached: Option<MeshSphere>, w: WorldView, sqrt: real -> real): (s: Sphere)
    requires IsSqrt(sqrt)
    ensures radius > 0.0 ==> s == Sphere(w.position, radius)
    ensures radius <= 0.0 && cached.Some? ==>
      s == Sphere(w.meshToWorld(cached.value.center), cached.value.radius * Max3(w.meshScale.x, w.meshScale.y, w.meshScale.z))
    ensures radius <= 0.0 && cached.None? && IsEmpty(w.box) ==> s == Sphere(w.position, 0.5)
    ensures radius <= 0.0 && cached.None? && !IsEmpty(w.box) ==> s == BoxSphere(w.box, sqrt)
    ensures radius <= 0.0 && cached.None? && !IsEmpty(w.box) ==>
      forall p :: InBox(w.box, p) ==> DistSq(p, s.center) <= s.radius * s.radius
    ensures (cached.Some? ==> cached.value.radius >= 0.0 && Max3(w.meshScale.x, w.meshScale.y, w.meshScale.z) >= 0.0)
      ==> s.radius >= 0.0
  {
    if radius > 0.0 then Sphere(w.position, radius)
    else if cached.Some? then
      var scale := Max3(w.meshScale.x, w.meshScale.y, w.meshScale.z);
      assert cached.value.radius >= 0.0 && scale >= 0.0 ==> cached.value.radius * scale >= 0.0 by {
        if cached.value.radius >= 0.0 && scale >= 0.0 { NonNegativeProduct(cached.value.radius, scale); }
      }
      Sphere(w.meshToWorld(cached.value.center), cached.value.radius * scale)
    else if IsEmpty(w.box) then Sphere(w.position, 0.5)
    else
      var s := BoxSphere(w.box, sqrt);
      assert forall p :: InBox(w.box, p) ==> DistSq(p, s.center) <= s.radius * s.radius by {
        forall p | InBox(w.box, p) ensures DistSq(p, s.center) <= s.radius * s.radius {
          BoxSphereContainsBox(w.box, p, sqrt);
        }
      }
      assert LengthSq(Sub(w.box.hi, w.box.lo)) >= 0.0;
      s
  }

  /** What __getWorldSphere leaves in the scratch vector `_tmpV1`: the world
      position in the fixed-radius and empty-box tiers, the mesh centre carried
      to world space in the cached tier, and `prev` untouched in the box tier
      (Box3.getBoundingSphere writes only into the sphere). */
  function AliasAfter(radius: real, cached: Option<MeshSphere>, w: WorldView, prev: Vec3): Vec3
  {
    if radius > 0.0 then w.position
    else if cached.Some? then w.meshToWorld(cached.value.center)
    else if IsEmpty(w.box) then w.position
    else prev
  }

  /** Except in the box tier, what __getWorldSphere leaves in `_tmpV1` is the
      centre of the sphere it returns; in the box tier it is what was there. */
  lemma AliasIsCentre(radius: real, cached: Option<MeshSphere>, w: WorldView, prev: Vec3, sqrt: real -> real)
    requires IsSqrt(sqrt)
    ensures radius > 0.0 || cached.Some? || IsEmpty(w.box) ==>
      AliasAfter(radius, cached, w, prev) == WorldSphere(radius, cached, w, sqrt).center
    ensures radius <= 0.0 && cached.None? && !IsEmpty(w.box) ==> AliasAfter(radius, cached, w, prev) == prev
  {
  }

  /** What `_tmpV1` holds after the counted attempts `trials`, which started
      with `start` there. */
  function LeftInTmp(trials: seq<Trial>, start: Vec3, radius: real, cached: Option<MeshSphere>, world: Pose -> WorldView): Vec3
  {
    if |trials| == 0 then start
    else AliasAfter(radius, cached, world(trials[|trials| - 1].candidate.pose), trials[|trials| - 1].reference)
  }

  /** The cone test of the first counted attempt is taken against `start`
      (the camera's forward vector), and that of every later one against what
      the previous attempt's __getWorldSphere left in `_tmpV1`. */
  ghost predicate Chained(trials: seq<Trial>, start: Vec3, radius: real, cached: Option<MeshSphere>, world: Pose -> WorldView)
  {
    && (|trials| > 0 ==> trials[0].reference == start)
    && forall k :: 0 < k < |trials| ==>
        trials[k].reference == LeftInTmp(trials[..k], start, radius, cached, world)
  }

  /** Recording one more counted attempt, tested against what `_tmpV1` held,
      keeps the chain. */
  lemma ChainedPush(trials: seq<Trial>, t: Trial, start: Vec3, radius: real, cached: Option<MeshSphere>, world: Pose -> WorldView)
    requires Chained(trials, start, radius, cached, world)
    requires t.reference == LeftInTmp(trials, start, radius, cached, world)
    ensures Chained(trials + [t], start, radius, cached, world)
  {
    var s := trials + [t];
    assert s[..|trials|] == trials;
    forall k | 0 < k < |trials|
      ensures s[k].reference == LeftInTmp(s[..k], start, radius, cached, world)
    {
      assert s[..k] == trials[..k];
    }
  }

  /** With a fixed radius (as every composition has), the cone test of every
      attempt after the first is taken against the previous candidate's world
      position, wherever the camera looks. */
  lemma {:induction false} ReferenceIsPreviousPosition(trials: seq<Trial>, start: Vec3, radius: real, cached: Option<MeshSphere>, world: Pose -> WorldView)
    requires radius > 0.0 && Chained(trials, start, radius, cached, world)
    ensures forall k :: 0 < k < |trials| ==> trials[k].reference == world(trials[k - 1].candidate.pose).position
  {
    forall k | 0 < k < |trials|
      ensures trials[k].reference == world(trials[k - 1].candidate.pose).position
    {
      assert trials[..k][k - 1] == trials[k - 1];
    }
  }

  /** The vector _randUnit normalises: three samples mapped to [-1, 1),
      replaced by +x when its squared length is below 1e-6. */
  function RawDirection(a: real, b: real, c: real): (v: Vec3)
    ensures LengthSq(v) >= 0.000001
  {
    var v := Vec3(a * 2.0 - 1.0, b * 2.0 - 1.0, c * 2.0 - 1.0);
    if LengthSq(v) < 0.000001 then Vec3(1.0, 0.0, 0.0) else v
  }

  /** _randUnit: a unit vector pointing along RawDirection. */
  method RandUnit(a: real, b: real, c: real, m: MathLib) returns (d: Vec3)
    requires m.Valid()
    ensures LengthSq(d) == 1.0 && PositiveMultiple(d, RawDirection(a, b, c))
  {
    var v := RawDirection(a, b, c);
    d := Normalize(v, m.sqrt(LengthSq(v)));
    NormalizeUnit(v, m.sqrt);
  }

  /** cos(half the FOV plus the margin): directions whose dot product with the
      camera's forward exceeds this lie in the exclusion cone. */
  function ConeLimit(cam: Camera, marginDeg: real, m: MathLib): real
  {
    m.cos(DegToRad(cam.fov * 0.5) + DegToRad(marginDeg))
  }

  /** The near edge of the respawn band in each version. */
  function MinBand(v: Version, data: Config, cam: Camera): real
  {
    match v
    case Current => Max3(data.minDist, 20.0, cam.near + 0.5)
    case Backup => Max(data.minDist, cam.near + 0.5)
  }

  /** The far edge of the respawn band (both versions). */
  function MaxBand(data: Config, cam: Camera): real
  {
    Min(data.maxDist, cam.far * 0.9)
  }

  /** Attempt budget of each version. */
  function Attempts(v: Version): nat
  {
    match v
    case Current => 20
    case Backup => 12
  }

  /** dir * dist + camPos, with the height clamped into [yMin, yMax] under lockY. */
  function CandidatePosition(camPos: Vec3, dir: Vec3, dist: real, data: Config): Vec3
  {
    var p := Add(Scale(dir, dist), camPos);
    if data.lockY then Vec3(p.x, Clamp(p.y, data.yMin, data.yMax), p.z) else p
  }

  /** Without lockY a candidate lies exactly `dist` from the camera; with it,
      its height lies in [yMin, yMax]; either way the planar offset is dir's
      planar part scaled by dist. */
  lemma CandidateDistance(camPos: Vec3, dir: Vec3, dist: real, data: Config)
    requires LengthSq(dir) == 1.0
    ensures !data.lockY ==> DistSq(CandidatePosition(camPos, dir, dist, data), camPos) == dist * dist
    ensures data.lockY && data.yMin <= data.yMax ==>
      data.yMin <= CandidatePosition(camPos, dir, dist, data).y <= data.yMax
    ensures PlanarDistSq(CandidatePosition(camPos, dir, dist, data), camPos)
      == dist * dist * (dir.x * dir.x + dir.z * dir.z)
  {
    var p := Add(Scale(dir, dist), camPos);
    assert Sub(p, camPos) == Scale(dir, dist);
    LengthSqScale(dir, dist);
  }

  /** A counted attempt: a unit direction whose dot product with `fwd` (the
      vector in `_tmpV1`) does not exceed the cone limit, a
      distance in the band, the candidate built from them, yaw only when
      randomYawOnly, and (Current only) at least 20 from the camera in the plane. */
  ghost predicate GoodCandidate(v: Version, t: Candidate, fwd: Vec3, cam: Camera, data: Config, m: MathLib)
  {
    && LengthSq(t.dir) == 1.0
    && Dot(fwd, t.dir) <= ConeLimit(cam, data.marginDeg, m)
    && Min(MinBand(v, data, cam), MaxBand(data, cam)) <= t.dist <= Max(MinBand(v, data, cam), MaxBand(data, cam))
    && t.pose.position == CandidatePosition(cam.position, t.dir, t.dist, data)
    && (data.randomYawOnly ==> t.pose.rotation.x == 0.0 && t.pose.rotation.z == 0.0)
    && (v == Current ==> PlanarDistSq(t.pose.position, cam.position) >= 400.0)
  }

  /** The record of counted attempts __respawnOffscreen keeps, tested against
      frustum `f`: each is a good candidate for the vector its cone test used,
      those vectors are chained through `_tmpV1`, and each visibility flag is
      the frustum test of the candidate's world sphere. */
  ghost predicate Recorded(v: Version, trials: seq<Trial>, cam: Camera, data: Config, m: MathLib, f: Frustum,
                           cached: Option<MeshSphere>, world: Pose -> WorldView)
  {
    && m.Valid()
    && Chained(trials, cam.forward, data.radius, cached, world)
    && forall k :: 0 <= k < |trials| ==>
      GoodCandidate(v, trials[k].candidate, trials[k].reference, cam, data, m)
      && trials[k].visible == IntersectsSphere(f, WorldSphere(data.radius, cached, world(trials[k].candidate.pose), m.sqrt))
  }

  /** One more counted attempt keeps the record. */
  lemma RecordedPush(v: Version, trials: seq<Trial>, t: Trial, cam: Camera, data: Config, m: MathLib, f: Frustum,
                     cached: Option<MeshSphere>, world: Pose -> WorldView)
    requires Recorded(v, trials, cam, data, m, f, cached, world)
    requires t.reference == LeftInTmp(trials, cam.forward, data.radius, cached, world)
    requires GoodCandidate(v, t.candidate, t.reference, cam, data, m)
    requires t.visible == IntersectsSphere(f, WorldSphere(data.radius, cached, world(t.candidate.pose), m.sqrt))
    ensures Recorded(v, trials + [t], cam, data, m, f, cached, world)
    ensures LeftInTmp(trials + [t], cam.forward, data.radius, cached, world)
      == AliasAfter(data.radius, cached, world(t.candidate.pose), t.reference)
  {
    ChainedPush(trials, t, cam.forward, data.radius, cached, world);
  }

  /** The eight planar fallback directions of random-compositions.js. */
  const FallbackDirections: seq<(real, real)> :=
    [(1.0, 0.0), (-1.0, 0.0), (0.0, 1.0), (0.0, -1.0), (1.0, 1.0), (-1.0, -1.0), (1.0, -1.0), (-1.0, 1.0)]

  function CurrentFallback(cam: Camera, data: Config, k: nat): Vec3
    requires k < 8
  {
    var safe := Max(30.0, MaxBand(data, cam));
    var d := FallbackDirections[k];
    Vec3(cam.position.x + d.0 * safe,
         if data.lockY then Clamp(cam.position.y, data.yMin, data.yMax) else cam.position.y,
         cam.position.z + d.1 * safe)
  }

  /** The Current fallback is at least 30 from the camera in the plane. */
  lemma CurrentFallbackFar(cam: Camera, data: Config, k: nat)
    requires k < 8
    ensures PlanarDistSq(CurrentFallback(cam, data, k), cam.position) >= 900.0
  {
    var safe := Max(30.0, MaxBand(data, cam));
    var d := FallbackDirections[k];
    var p := CurrentFallback(cam, data, k);
    assert p.x - cam.position.x == d.0 * safe && p.z - cam.position.z == d.1 * safe;
    assert PlanarDistSq(p, cam.position) == (d.0 * d.0 + d.1 * d.1) * (safe * safe);
    assert d.0 * d.0 + d.1 * d.1 >= 1.0;
    SquareMonotoneWeak(30.0, safe);
  }

  /** The Backup fallback as written: camPos + camFwd * -maxD, height clamped
      under lockY, where `camFwd` is whatever `_tmpV1` holds by then. */
  function BackupFallback(cam: Camera, data: Config, camFwd: Vec3): Vec3
  {
    var p := Add(cam.position, Scale(camFwd, -MaxBand(data, cam)));
    if data.lockY then Vec3(p.x, Clamp(p.y, data.yMin, data.yMax), p.z) else p
  }

  /** The fallback the backup copy evidently intends ("directly behind camera
      at maxD"): the same formula with the camera's own forward vector. */
  function IntendedBackupFallback(cam: Camera, data: Config): Vec3
  {
    BackupFallback(cam, data, cam.forward)
  }

  /** Without lockY the intended fallback lies straight behind a unit forward
      vector, at distance maxD. */
  lemma BackupFallbackBehind(cam: Camera, data: Config)
    requires LengthSq(cam.forward) == 1.0 && !data.lockY
    ensures Dot(cam.forward, Sub(IntendedBackupFallback(cam, data), cam.position)) == -MaxBand(data, cam)
    ensures DistSq(IntendedBackupFallback(cam, data), cam.position) == MaxBand(data, cam) * MaxBand(data, cam)
  {
    var k := -MaxBand(data, cam);
    var p := IntendedBackupFallback(cam, data);
    assert Sub(p, cam.position) == Scale(cam.forward, k);
    LengthSqScale(cam.forward, k);
    assert Dot(cam.forward, Scale(cam.forward, k)) == k * LengthSq(cam.forward);
  }

  /** The respawn settings a composition of the backup driver gets under the
      driver's defaults (random-compositions-frustum-backup.js:76-85). */
  const BackupComposition: Config := Config(3.0, 20.0, 60.0, 15.0, true, 0.0, 2.0, true)

  /** As written, after twelve visible attempts the backup fallback is built
      from what the last attempt left in `_tmpV1`. With the settings a
      composition of the backup driver gets under its defaults (radius 3,
      maxDist 60, lockY with heights [0, 2]), a camera at (100, 0, 0) looking
      along -z whose twelfth candidate stood at (100, 0, -30) gets the entity
      placed at (-5900, 0, 1800), nowhere near maxD from the camera; the
      intended fallback is (100, 0, 60), exactly maxD behind it. */
  lemma AliasedFallbackFarAway(cam: Camera, trials: seq<Trial>, cached: Option<MeshSphere>, world: Pose -> WorldView)
    requires cam.position == Vec3(100.0, 0.0, 0.0) && cam.forward == Vec3(0.0, 0.0, -1.0) && cam.far == 1000.0
    requires |trials| == 12 && world(trials[11].candidate.pose).position == Vec3(100.0, 0.0, -30.0)
    ensures LeftInTmp(trials, cam.forward, BackupComposition.radius, cached, world) == Vec3(100.0, 0.0, -30.0)
    ensures BackupFallback(cam, BackupComposition, LeftInTmp(trials, cam.forward, BackupComposition.radius, cached, world)) == Vec3(-5900.0, 0.0, 1800.0)
    ensures DistSq(BackupFallback(cam, BackupComposition, LeftInTmp(trials, cam.forward, BackupComposition.radius, cached, world)), cam.position) != 3600.0
    ensures IntendedBackupFallback(cam, BackupComposition) == Vec3(100.0, 0.0, 60.0)
    ensures DistSq(IntendedBackupFallback(cam, BackupComposition), cam.position) == 3600.0
  {
    assert MaxBand(BackupComposition, cam) == 60.0;
    var v := LeftInTmp(trials, cam.forward, BackupComposition.radius, cached, world);
    assert v == Vec3(100.0, 0.0, -30.0);
    assert Add(cam.position, Scale(v, -60.0)) == Vec3(-5900.0, 0.0, 1800.0);
    assert Add(cam.position, Scale(cam.forward, -60.0)) == Vec3(100.0, 0.0, 60.0);
  }

  /** The cone test the code evidently intends, against the camera's forward
      vector: it never admits the centre of the view. */
  predicate OutsideViewCone(cam: Camera, dir: Vec3, data: Config, m: MathLib)
  {
    Dot(cam.forward, dir) <= ConeLimit(cam, data.marginDeg, m)
  }

  lemma ViewCentreExcluded(cam: Camera, data: Config, m: MathLib)
    requires LengthSq(cam.forward) == 1.0 && ConeLimit(cam, data.marginDeg, m) < 1.0
    ensures !OutsideViewCone(cam, cam.forward, data, m)
  {
  }

  /** As written, the second attempt's cone test is taken against the first
      candidate's world position: with that at (0, 0, 20) the camera's own
      forward (0, 0, -1) passes the test. */
  lemma AliasedConeAdmitsViewCentre(cam: Camera, data: Config, m: MathLib, first: Trial, cached: Option<MeshSphere>, world: Pose -> WorldView)
    requires cam.forward == Vec3(0.0, 0.0, -1.0) && ConeLimit(cam, data.marginDeg, m) >= -1.0
    requires data.radius > 0.0 && world(first.candidate.pose).position == Vec3(0.0, 0.0, 20.0)
    ensures Dot(LeftInTmp([first], cam.forward, data.radius, cached, world), cam.forward) <= ConeLimit(cam, data.marginDeg, m)
  {
  }

  /** Where a __respawnOffscreen call that had a camera and a system leaves
      the entity, from `before` to `after`, with its record of counted
      attempts: placed at the last attempt when that one was hidden; at the
      version's fallback after a full budget of visible attempts; and, when
      the random samples ran out, at the last attempt made (or where it was,
      if none was made). */
  ghost predicate RespawnedTo(v: Version, o: Respawn, trials: seq<Trial>, cam: Camera, data: Config, m: MathLib, f: Frustum,
                              cached: Option<MeshSphere>, world: Pose -> WorldView, before: Pose, after: Pose)
  {
    && Recorded(v, trials, cam, data, m, f, cached, world)
    && |trials| <= Attempts(v)
    && (forall k :: 0 <= k < |trials| - 1 ==> trials[k].visible)
    && (o.Placed? <==> |trials| > 0 && !trials[|trials| - 1].visible)
    && (o.Placed? || o.Exhausted? ==> after == if |trials| == 0 then before else trials[|trials| - 1].candidate.pose)
    && (o.FellBack? && v == Current ==>
          o.dirIndex < 8 && |trials| == 20
          && after == Pose(CurrentFallback(cam, data, o.dirIndex), trials[19].candidate.pose.rotation))
    && (o.FellBack? && v == Backup ==>
          o.dirIndex == 0 && |trials| == 12
          && after == Pose(BackupFallback(cam, data, LeftInTmp(trials, cam.forward, data.radius, cached, world)),
                           trials[11].candidate.pose.rotation))
  }

  /** What a respawn achieves: a placed entity is out of the frustum, at a
      good candidate for the vector its cone test used and, in
      random-compositions.js, at least 20 from the camera in the plane; a
      fallback follows a full budget of visible attempts and, in
      random-compositions.js, is at least 30 away in the plane. */
  lemma RespawnedSafe(v: Version, o: Respawn, trials: seq<Trial>, cam: Camera, data: Config, m: MathLib, f: Frustum,
                      cached: Option<MeshSphere>, world: Pose -> WorldView, before: Pose, after: Pose)
    requires RespawnedTo(v, o, trials, cam, data, m, f, cached, world, before, after)
    ensures o.Placed? ==>
      && !IntersectsSphere(f, WorldSphere(data.radius, cached, world(after), m.sqrt))
      && GoodCandidate(v, trials[|trials| - 1].candidate, trials[|trials| - 1].reference, cam, data, m)
      && after == trials[|trials| - 1].candidate.pose
    ensures o.Placed? && v == Current ==> PlanarDistSq(after.position, cam.position) >= 400.0
    ensures o.FellBack? ==> |trials| == Attempts(v) && forall k :: 0 <= k < |trials| ==> trials[k].visible
    ensures o.FellBack? && v == Current ==> PlanarDistSq(after.position, cam.position) >= 900.0
  {
    if o.FellBack? && v == Current {
      CurrentFallbackFar(cam, data, o.dirIndex);
    }
  }

  /** The per-target effect of one __checkVisible call: enter on becoming
      visible, exit (with at most the respawn event after it) on leaving view,
      nothing when visibility matches the flag. */
  ghost predicate Transitioned(wasInView: bool, visible: bool, before: seq<Event>, after: seq<Event>, poseBefore: Pose, poseAfter: Pose)
  {
    if visible && !wasInView then after == before + [EnterView] && poseAfter == poseBefore
    else if !visible && wasInView then after == before + [ExitView] || after == before + [ExitView, RespawnedOffscreen]
    else after == before && poseAfter == poseBefore
  }

  /** Events a respawn outcome appends. */
  function RespawnEvents(r: Respawn): seq<Event>
  {
    if r.Committed() then [RespawnedOffscreen] else []
  }

  /** The `offscreen-respawn` component. */
  class OffscreenRespawn {
    const version: Version
    const data: Config
    /** How the scene graph sees this entity in each pose (THREE's matrices and bounds). */
    const world: Pose -> WorldView
    var lf: LightFrustum?
    var pose: Pose
    var inView: bool
    var cached: Option<MeshSphere>
    var lastDistanceCheck: real
    var events: seq<Event>

    /** init: not in view, no cached mesh sphere, registered with the system
        when there is one. When the entity already has a mesh, init goes on to
        call _setupBoundsOnce, which a caller models by calling SetupBoundsOnce
        right after construction (as it does on `object3dset` and
        `model-loaded`). */
    constructor (version: Version, data: Config, world: Pose -> WorldView, system: LightFrustum?, pose: Pose)
      requires system != null ==> system.Valid()
      modifies system
      ensures this.version == version && this.data == data && this.world == world
      ensures lf == system && this.pose == pose && !inView && cached == None
      ensures lastDistanceCheck == 0.0 && events == []
      ensures system != null ==>
        system.Valid() && system.targets == old(system.targets) + [this]
        && system.frustum == old(system.frustum) && system.last == old(system.last)
    {
      this.version := version;
      this.data := data;
      this.world := world;
      lf := system;
      this.pose := pose;
      inView := false;
      cached := None;
      lastDistanceCheck := 0.0;
      events := [];
      new;
      if system != null {
        system.Register(this);
      }
    }

    /** remove: unregister from the system. */
    method Remove()
      requires lf != null ==> lf.Valid()
      modifies lf
      ensures lf != null ==>
        lf.Valid() && lf.Members() == old(lf.Members()) - {this}
        && lf.frustum == old(lf.frustum) && lf.last == old(lf.last)
    {
      if lf != null {
        lf.Unregister(this);
      }
    }

    /** The world sphere in a given pose. */
    function SphereAt(p: Pose, sqrt: real -> real): Sphere
      requires IsSqrt(sqrt)
      reads this
    {
      WorldSphere(data.radius, cached, world(p), sqrt)
    }

    function CurrentSphere(sqrt: real -> real): Sphere
      requires IsSqrt(sqrt)
      reads this
    {
      SphereAt(pose, sqrt)
    }

    /** _setupBoundsOnce: `found` is the bounding sphere of the first mesh of
        the subtree that has geometry, if any. */
    method SetupBoundsOnce(found: Option<MeshSphere>)
      modifies this`cached
      ensures data.radius > 0.0 || found.None? ==> cached == old(cached)
      ensures data.radius <= 0.0 && found.Some? ==> cached == found
    {
      if data.radius > 0.0 { return; }
      if found.None? { return; }
      cached := found;
    }

    /** __checkVisible. */
    method CheckVisible(frustum: Frustum, cam: Option<Camera>, m: MathLib, rand: seq<Sample>)
      returns (rest: seq<Sample>, outcome: Respawn, ghost trials: seq<Trial>)
      requires m.Valid()
      modifies this
      ensures Suffix(rest, rand)
      ensures inView == IntersectsSphere(frustum, old(CurrentSphere(m.sqrt)))
      ensures Transitioned(old(inView), inView, old(events), events, old(pose), pose)
      ensures !outcome.NotCalled? <==> old(inView) && !inView
      ensures outcome.NotCalled? ==> rest == rand
      ensures !outcome.NotCalled? ==> events == old(events) + [ExitView] + RespawnEvents(outcome)
      ensures !outcome.NotCalled? ==> (outcome.Skipped? <==> cam.None? || lf == null)
      ensures outcome.Skipped? ==> pose == old(pose)
      ensures !outcome.NotCalled? && cam.Some? && lf != null ==>
        RespawnedTo(version, outcome, trials, cam.value, data, m, lf.frustum, cached, world, old(pose), pose)
      ensures outcome.Placed? ==> lf != null && !IntersectsSphere(lf.frustum, CurrentSphere(m.sqrt))
      ensures outcome.FellBack? && version == Current ==>
        cam.Some? && PlanarDistSq(pose.position, cam.value.position) >= 900.0
      ensures cached == old(cached) && lf == old(lf) && lastDistanceCheck == old(lastDistanceCheck)
    {
      trials := [];
      var s := CurrentSphere(m.sqrt);
      var visible := IntersectsSphere(frustum, s);
      rest, outcome := rand, NotCalled;
      if visible && !inView {
        inView := true;
        events := events + [EnterView];
      } else if !visible && inView {
        inView := false;
        events := events + [ExitView];
        rest, outcome, trials := RespawnOffscreen(cam, m, rand);
        if cam.Some? && lf != null {
          RespawnedSafe(version, outcome, trials, cam.value, data, m, lf.frustum, cached, world, old(pose), pose);
        }
      }
    }

    /** _checkDistanceFromCamera (random-compositions.js only): every 2000 ms,
        force a respawn of an entity closer than minDist in the plane. */
    method CheckDistanceFromCamera(time: real, cam: Option<Camera>, m: MathLib, rand: seq<Sample>)
      returns (rest: seq<Sample>, outcome: Respawn, ghost trials: seq<Trial>)
      requires version == Current
      requires m.Valid()
      modifies this
      ensures Suffix(rest, rand)
      ensures lf == null || time - old(lastDistanceCheck) < 2000.0 ==>
        lastDistanceCheck == old(lastDistanceCheck) && outcome.NotCalled?
      ensures lf != null && time - old(lastDistanceCheck) >= 2000.0 ==> lastDistanceCheck == time
      ensures outcome.NotCalled? ==> pose == old(pose) && inView == old(inView) && events == old(events) && rest == rand
      ensures !outcome.NotCalled? <==>
        lf != null && time - old(lastDistanceCheck) >= 2000.0 && cam.Some?
        && SqrtBelow(PlanarDistSq(world(old(pose)).position, cam.value.position), data.minDist)
      ensures !outcome.NotCalled? ==> !inView && events == old(events) + RespawnEvents(outcome)
      ensures !outcome.NotCalled? ==>
        RespawnedTo(version, outcome, trials, cam.value, data, m, lf.frustum, cached, world, old(pose), pose)
      ensures outcome.Placed? ==>
        !IntersectsSphere(lf.frustum, CurrentSphere(m.sqrt)) && PlanarDistSq(pose.position, cam.value.position) >= 400.0
      ensures outcome.FellBack? ==> PlanarDistSq(pose.position, cam.value.position) >= 900.0
      ensures cached == old(cached) && lf == old(lf)
    {
      rest, outcome, trials := rand, NotCalled, [];
      if lf == null || time - lastDistanceCheck < 2000.0 { return; }
      lastDistanceCheck := time;
      if cam.None? { return; }
      var objPos := world(pose).position;
      if SqrtBelow(PlanarDistSq(objPos, cam.value.position), data.minDist) {
        inView := false;
        rest, outcome, trials := RespawnOffscreen(cam, m, rand);
        RespawnedSafe(version, outcome, trials, cam.value, data, m, lf.frustum, cached, world, old(pose), pose);
      }
    }

    /** __respawnOffscreen. Without a camera or a system it does nothing.
        Otherwise it searches for a hidden candidate (at most
        Attempts(version) counted attempts), falls back when none is found,
        and emits `respawned-offscreen`. The version decides the band, the
        planar distance check and the fallback. */
    method RespawnOffscreen(cam: Option<Camera>, m: MathLib, rand: seq<Sample>)
      returns (rest: seq<Sample>, outcome: Respawn, trials: seq<Trial>)
      requires m.Valid()
      modifies this`pose, this`events
      ensures Suffix(rest, rand)
      ensures outcome.Skipped? || outcome.Committed() || outcome.Exhausted?
      ensures outcome.Skipped? <==> cam.None? || lf == null
      ensures outcome.Skipped? ==> pose == old(pose) && rest == rand && trials == []
      ensures events == old(events) + RespawnEvents(outcome)
      ensures cam.Some? && lf != null ==>
        RespawnedTo(version, outcome, trials, cam.value, data, m, lf.frustum, cached, world, old(pose), pose)
      ensures outcome.Exhausted? ==> |rest| < 7
    {
      rest, trials := rand, [];
      if cam.None? || lf == null {
        outcome := Skipped;
        return;
      }
      var c := cam.value;
      var exhausted;
      rest, trials, exhausted := Search(c, m, rand);
      if exhausted {
        outcome := Exhausted;
        return;
      }
      if |trials| > 0 && !trials[|trials| - 1].visible {
        outcome := Placed;
      } else if version == Current {
        if |rest| < 1 {
          outcome := Exhausted;
          return;
        }
        var k := Pick(rest[0], 8);
        rest := rest[1..];
        pose := pose.(position := CurrentFallback(c, data, k));
        CurrentFallbackFar(c, data, k);
        outcome := FellBack(k);
      } else {
        pose := pose.(position := BackupFallback(c, data, LeftInTmp(trials, c.forward, data.radius, cached, world)));
        outcome := FellBack(0);
      }
      events := events + [RespawnedOffscreen];
    }

    /** The attempt loop of __respawnOffscreen: each counted attempt moves the
        entity to its candidate and tests the candidate's sphere against the
        system's frustum; the loop stops at the first hidden candidate or after
        Attempts(version) counted attempts. `exhausted` reports that the random
        oracle ran out first. */
    method Search(c: Camera, m: MathLib, rand: seq<Sample>)
      returns (rest: seq<Sample>, trials: seq<Trial>, exhausted: bool)
      requires m.Valid() && lf != null
      modifies this`pose
      ensures Suffix(rest, rand)
      ensures |trials| <= Attempts(version)
      ensures Recorded(version, trials, c, data, m, lf.frustum, cached, world)
      ensures forall k :: 0 <= k < |trials| - 1 ==> trials[k].visible
      ensures exhausted ==> |rest| < 7 && (|trials| == 0 || trials[|trials| - 1].visible)
      ensures !exhausted && (|trials| == 0 || trials[|trials| - 1].visible) ==> |trials| == Attempts(version)
      ensures |trials| == 0 ==> pose == old(pose)
      ensures |trials| > 0 ==> pose == trials[|trials| - 1].candidate.pose
    {
      rest, trials, exhausted := rand, [], false;
      var placed := false;
      var camFwd := c.forward;
      var f := lf.frustum;
      while |trials| < Attempts(version) && !placed
        invariant |trials| <= Attempts(version)
        invariant Suffix(rest, rand)
        invariant placed <==> |trials| > 0 && !trials[|trials| - 1].visible
        invariant forall k :: 0 <= k < |trials| - 1 ==> trials[k].visible
        invariant Recorded(version, trials, c, data, m, f, cached, world)
        invariant camFwd == LeftInTmp(trials, c.forward, data.radius, cached, world)
        invariant |trials| == 0 ==> pose == old(pose)
        invariant |trials| > 0 ==> pose == trials[|trials| - 1].candidate.pose
        decreases |rest|
      {
        if |rest| < 7 {
          exhausted := true;
          return;
        }
        var rest', candidate := DrawCandidate(c, camFwd, m, rest);
        SuffixTrans(rest', rest, rand);
        rest := rest';
        if candidate.Some? {
          trials, camFwd := Record(c, m, f, trials, candidate.value, camFwd);
          placed := !trials[|trials| - 1].visible;
        }
      }
    }

    /** A counted attempt: move the entity to the candidate, test its world
        sphere against the frustum, and note what __getWorldSphere leaves in
        `_tmpV1` for the next cone test. */
    method Record(c: Camera, m: MathLib, f: Frustum, trials: seq<Trial>, candidate: Candidate, camFwd: Vec3)
      returns (trials': seq<Trial>, camFwd': Vec3)
      requires Recorded(version, trials, c, data, m, f, cached, world)
      requires camFwd == LeftInTmp(trials, c.forward, data.radius, cached, world)
      requires GoodCandidate(version, candidate, camFwd, c, data, m)
      modifies this`pose
      ensures pose == candidate.pose
      ensures trials' == trials + [Trial(candidate, camFwd, IntersectsSphere(f, WorldSphere(data.radius, cached, world(pose), m.sqrt)))]
      ensures Recorded(version, trials', c, data, m, f, cached, world)
      ensures camFwd' == LeftInTmp(trials', c.forward, data.radius, cached, world)
    {
      pose := candidate.pose;
      var visible := IntersectsSphere(f, SphereAt(pose, m.sqrt));
      RecordedPush(version, trials, Trial(candidate, camFwd, visible), c, data, m, f, cached, world);
      trials' := trials + [Trial(candidate, camFwd, visible)];
      camFwd' := AliasAfter(data.radius, cached, world(pose), camFwd);
    }

    /** One pass of the attempt loop's body: a random unit direction (three
        samples); in the exclusion cone it yields nothing; else a distance in
        the band (one sample) and the candidate position; in
        random-compositions.js a candidate nearer than 20 in the plane yields
        nothing; else a random rotation (one or three samples). */
    method DrawCandidate(c: Camera, camFwd: Vec3, m: MathLib, rand: seq<Sample>)
      returns (rest: seq<Sample>, candidate: Option<Candidate>)
      requires m.Valid() && |rand| >= 7
      ensures Suffix(rest, rand) && |rest| < |rand|
      ensures candidate.Some? ==> GoodCandidate(version, candidate.value, camFwd, c, data, m)
      ensures candidate.Some? ==> PositiveMultiple(candidate.value.dir, RawDirection(rand[0], rand[1], rand[2]))
    {
      var dir := RandUnit(rand[0], rand[1], rand[2], m);
      rest := rand[3..];
      candidate := None;
      if Dot(camFwd, dir) > ConeLimit(c, data.marginDeg, m) { return; }
      var rest';
      rest', candidate := PlaceAlong(c, camFwd, m, dir, rest);
      SuffixTrans(rest', rest, rand);
      rest := rest';
    }

    /** The rest of an attempt once the direction passed the cone test: the
        distance (one sample), the candidate position, the planar check of
        random-compositions.js, and the rotation. */
    method PlaceAlong(c: Camera, camFwd: Vec3, m: MathLib, dir: Vec3, rand: seq<Sample>)
      returns (rest: seq<Sample>, candidate: Option<Candidate>)
      requires |rand| >= 4
      requires LengthSq(dir) == 1.0 && Dot(camFwd, dir) <= ConeLimit(c, data.marginDeg, m)
      ensures Suffix(rest, rand) && |rest| < |rand|
      ensures candidate.Some? ==> GoodCandidate(version, candidate.value, camFwd, c, data, m) && candidate.value.dir == dir
      ensures candidate.None? ==>
        version == Current
        && PlanarDistSq(CandidatePosition(c.position, dir, Lerp(MinBand(version, data, c), MaxBand(data, c), rand[0]), data), c.position) < 400.0
    {
      var u := rand[0];
      assert 0.0 <= u < 1.0;
      var dist := Lerp(MinBand(version, data, c), MaxBand(data, c), u);
      rest := rand[1..];
      var pos := CandidatePosition(c.position, dir, dist, data);
      candidate := None;
      if version == Current && SqrtBelow(PlanarDistSq(pos, c.position), 20.0) { return; }
      var rot, rest' := RandomRotation(rest);
      rest := rest';
      candidate := Some(Candidate(dir, dist, Pose(pos, rot)));
    }

    /** Draw the rotation of an attempt: yaw only, or all three axes. */
    method RandomRotation(rand: seq<Sample>) returns (rot: Vec3, rest: seq<Sample>)
      requires |rand| >= 3
      ensures Suffix(rest, rand) && |rest| < |rand|
      ensures data.randomYawOnly ==> rot.x == 0.0 && rot.z == 0.0 && 0.0 <= rot.y < DegToRad(360.0)
      ensures !data.randomYawOnly ==> |rest| == |rand| - 3
      ensures data.randomYawOnly ==> |rest| == |rand| - 1
    {
      if data.randomYawOnly {
        rot := Vec3(0.0, DegToRad(rand[0] as real * 360.0), 0.0);
        rest := rand[1..];
      } else {
        rot := Vec3(DegToRad(rand[0] as real * 360.0), DegToRad(rand[1] as real * 360.0), DegToRad(rand[2] as real * 360.0));
        rest := rand[3..];
      }
    }

  }

  /** No element occurs twice (a JS Set's insertion-ordered contents). */
  ghost predicate Distinct<T>(s: seq<T>)
  {
    forall a, b :: 0 <= a < b < |s| ==> s[a] != s[b]
  }

  lemma DistinctPush<T>(s: seq<T>, x: T)
    requires Distinct(s) && forall i :: 0 <= i < |s| ==> s[i] != x
    ensures Distinct(s + [x])
  {
  }

  /** Set.delete on the insertion-ordered contents. */
  function Without<T(==)>(s: seq<T>, x: T): (r: seq<T>)
    ensures forall i :: 0 <= i < |r| ==> r[i] in s && r[i] != x
    ensures forall i :: 0 <= i < |s| && s[i] != x ==> s[i] in r
    ensures Distinct(s) ==> Distinct(r)
    ensures x !in s ==> r == s
  {
    if s == [] then []
    else if s[0] == x then Without(s[1..], x)
    else [s[0]] + Without(s[1..], x)
  }

  /** The tail of distinct contents is distinct and lacks the head. */
  lemma DistinctTail<T>(s: seq<T>)
    requires Distinct(s) && |s| > 0
    ensures Distinct(s[1..]) && s[0] !in s[1..]
  {
    forall a, b | 0 <= a < b < |s[1..]| ensures s[1..][a] != s[1..][b] {
      assert s[1..][a] == s[a + 1] && s[1..][b] == s[b + 1];
    }
    forall k | 0 <= k < |s[1..]| ensures s[1..][k] != s[0] {
      assert s[1..][k] == s[k + 1];
    }
  }

  /** Set.delete keeps insertion order: on distinct contents, deleting the
      element at index i leaves the elements before it and those after it,
      in order. */
  lemma {:induction false} WithoutAt<T>(s: seq<T>, x: T, i: nat)
    requires Distinct(s) && i < |s| && s[i] == x
    ensures Without(s, x) == s[..i] + s[i + 1..]
  {
    DistinctTail(s);
    if i > 0 {
      WithoutAt(s[1..], x, i - 1);
      assert s[1..][..i - 1] == s[1..i] && s[1..][i - 1 + 1..] == s[i + 1..];
      assert s[..i] == [s[0]] + s[1..i];
    }
  }

  /** What one __checkVisible call did to a target: its flag now says
      whether its sphere (as it stood before) meets the frustum, and its
      events and pose moved as Transitioned says, and its system is the
      same. On leaving view, the
      respawn's outcome `o` decides the events after the exit, and with a
      camera and a system the entity ends where RespawnedTo says, given the
      respawn's attempts `trials`. */
  twostate predicate Swept(c: OffscreenRespawn, f: Frustum, cam: Option<Camera>, m: MathLib, o: Respawn, trials: seq<Trial>)
    requires m.Valid()
    reads c, c.lf
  {
    && c.lf == old(c.lf)
    && c.inView == IntersectsSphere(f, old(c.CurrentSphere(m.sqrt)))
    && Transitioned(old(c.inView), c.inView, old(c.events), c.events, old(c.pose), c.pose)
    && (old(c.inView) && !c.inView ==> c.events == old(c.events) + [ExitView] + RespawnEvents(o))
    && (old(c.inView) && !c.inView && cam.Some? && c.lf != null ==>
          RespawnedTo(c.version, o, trials, cam.value, c.data, m, c.lf.frustum, c.cached, c.world, old(c.pose), c.pose))
  }

  /** The `light-frustum` system. */
  class LightFrustum {
    const throttleMs: real
    var targets: seq<OffscreenRespawn>
    var frustum: Frustum
    var last: real

    /** The targets are distinct, and each is ticked by the system its
        `lf` names: the scene has a single light-frustum system. */
    ghost predicate Valid()
      reads this, targets
    {
      Distinct(targets) && forall c :: c in targets ==> c.lf == this
    }

    function Members(): set<OffscreenRespawn>
      reads this
    {
      set c | c in targets
    }

    constructor (throttleMs: real)
      ensures Valid() && this.throttleMs == throttleMs && targets == [] && last == 0.0
    {
      this.throttleMs := throttleMs;
      targets := [];
      frustum := Frustum([]);
      last := 0.0;
    }

    /** register: Set.add, which keeps an existing member in place. */
    method Register(c: OffscreenRespawn)
      requires Valid() && c.lf == this
      modifies this`targets
      ensures Valid() && Members() == old(Members()) + {c}
      ensures targets == if c in old(targets) then old(targets) else old(targets) + [c]
    {
      if c !in targets {
        targets := targets + [c];
      }
    }

    /** unregister: Set.delete, a no-op for a non-member. */
    method Unregister(c: OffscreenRespawn)
      requires Valid()
      modifies this`targets
      ensures Valid() && Members() == old(Members()) - {c}
      ensures c !in old(targets) ==> targets == old(targets)
      ensures forall i :: 0 <= i < |old(targets)| && old(targets)[i] == c ==>
        targets == old(targets)[..i] + old(targets)[i + 1..]
    {
      forall i | 0 <= i < |targets| && targets[i] == c {
        WithoutAt(targets, c, i);
      }
      targets := Without(targets, c);
    }

    /** tick: without a camera, or within throttleMs of the last run, nothing
        happens; otherwise the frustum is rebuilt from the camera, `last`
        becomes t and every target, in registration order, is checked once.
        `completed` is false only when a respawn exhausted the random oracle,
        which stops the sweep after that target. */
    method Tick(t: real, cam: Option<Camera>, m: MathLib, rand: seq<Sample>)
      returns (rest: seq<Sample>, checked: seq<OffscreenRespawn>, completed: bool,
               ghost outcomes: seq<Respawn>, ghost trialsOf: seq<seq<Trial>>)
      requires Valid() && m.Valid()
      modifies this, targets
      ensures Valid() && targets == old(targets)
      ensures Suffix(rest, rand)
      ensures cam.None? || t - old(last) < throttleMs ==>
        last == old(last) && frustum == old(frustum) && rest == rand && checked == [] && completed
        && outcomes == [] && trialsOf == []
        && forall j :: 0 <= j < |targets| ==> unchanged(targets[j])
      ensures cam.Some? && t - old(last) >= throttleMs ==>
        && last == t && frustum == cam.value.frustum
        && |checked| <= |targets| && checked == targets[..|checked|]
        && |outcomes| == |checked| && |trialsOf| == |checked|
        && (completed ==> checked == targets)
        && (forall j :: 0 <= j < |checked| ==> Swept(checked[j], frustum, cam, m, outcomes[j], trialsOf[j]))
        && (forall j :: |checked| <= j < |targets| ==> unchanged(targets[j]))
    {
      rest, checked, completed, outcomes, trialsOf := rand, [], true, [], [];
      if cam.None? { return; }
      if t - last < throttleMs { return; }
      last := t;
      frustum := cam.value.frustum;
      rest, checked, completed, outcomes, trialsOf := Sweep(targets, frustum, cam, m, rand);
    }
  }

  /** One target of the sweep: __checkVisible, reporting whether its
      respawn ran out of random samples. */
  method Visit(c: OffscreenRespawn, frustum: Frustum, cam: Option<Camera>, m: MathLib, rand: seq<Sample>)
    returns (rest: seq<Sample>, exhausted: bool, ghost outcome: Respawn, ghost trials: seq<Trial>)
    requires m.Valid()
    modifies c
    ensures Suffix(rest, rand) && Swept(c, frustum, cam, m, outcome, trials)
    ensures exhausted == outcome.Exhausted?
  {
    var o;
    rest, o, trials := c.CheckVisible(frustum, cam, m, rand);
    outcome, exhausted := o, o.Exhausted?;
  }

  /** The loop of tick: __checkVisible on each target in order, stopping
      after a target whose respawn exhausted the random oracle. */
  method Sweep(targets: seq<OffscreenRespawn>, frustum: Frustum, cam: Option<Camera>, m: MathLib, rand: seq<Sample>)
    returns (rest: seq<Sample>, checked: seq<OffscreenRespawn>, completed: bool,
             ghost outcomes: seq<Respawn>, ghost trialsOf: seq<seq<Trial>>)
    requires Distinct(targets) && m.Valid()
    modifies targets
    ensures Suffix(rest, rand)
    ensures |checked| <= |targets| && checked == targets[..|checked|]
    ensures |outcomes| == |checked| && |trialsOf| == |checked|
    ensures completed ==> checked == targets
    ensures !completed ==> |checked| > 0 && outcomes[|checked| - 1].Exhausted?
    ensures forall j :: 0 <= j < |checked| ==> Swept(checked[j], frustum, cam, m, outcomes[j], trialsOf[j])
    ensures forall j :: |checked| <= j < |targets| ==> unchanged(targets[j])
  {
    rest, checked, completed, outcomes, trialsOf := rand, [], true, [], [];
    var i := 0;
    while i < |targets|
      invariant 0 <= i <= |targets|
      invariant checked == targets[..i] && completed
      invariant |outcomes| == i && |trialsOf| == i
      invariant Suffix(rest, rand)
      invariant forall j :: 0 <= j < i ==> Swept(targets[j], frustum, cam, m, outcomes[j], trialsOf[j])
      invariant forall j :: i <= j < |targets| ==> unchanged(targets[j])
    {
      var c := targets[i];
      var rest', exhausted, o, tr := Visit(c, frustum, cam, m, rest);
      SuffixTrans(rest', rest, rand);
      rest := rest';
      checked := checked + [c];
      outcomes := outcomes + [o];
      trialsOf := trialsOf + [tr];
      i := i + 1;
      if exhausted {
        completed := false;
        break;
      }
    }
  }
}
