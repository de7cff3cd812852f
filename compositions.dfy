/** The `random-compositions` component of Components/random-compositions.js
    and of Components/random-compositions-frustum-backup.js: placement of the
    compositions in a ground-plane annulus around the camera, the Pamats base
    of each composition, the yaw given on regeneration, the periodic safety
    sweep and the scroll-driven rotation of the Pamats bases.

    The `version` of a driver says which file it follows: the backup copy builds
    its tower purely from decorative primitives (no Pamats, no safety sweep, no
    scroll rotation). */
module Compositions {
  import opened Geometry
  import Visibility

  /** The schema fields that the placement logic reads. */
  datatype Settings = Settings(
    count: nat, spread: real, minRadius: real, maxRadius: real,
    minDist: real, maxDist: real, marginDeg: real)

  /** The schema defaults of the backup copy. */
  const BackupDefaults: Settings := Settings(20, 50.0, 20.0, 50.0, 20.0, 60.0, 15.0)

  const SafetyIntervalMs: real := 5000.0
  const ScrollStepDeg: real := 5.0
  const RotationLimit: real := 45.0
  /** Minimum planar spacing between Pamats bases of one composition. */
  const BaseSpacing: real := 15.0
  const BaseAttempts: nat := 50
  /** Side of the square the Pamats base is drawn from: 20 * globalScale (0.5). */
  const BaseSquare: real := 10.0

  /** The offscreen-respawn settings each composition is given. */
  function RespawnConfig(s: Settings): Visibility.Config
  {
    Visibility.Config(3.0, s.minDist, s.maxDist, s.marginDeg, true, 0.0, 2.0, true)
  }

  /** Where (Math.random() - 0.5) * width can land: [-width/2, width/2) for a
      non-negative width, the mirrored (width/2, -width/2] for a negative one. */
  predicate Centred(v: real, width: real)
  {
    if width >= 0.0 then -width / 2.0 <= v && (width > 0.0 ==> v < width / 2.0)
    else width / 2.0 < v <= -width / 2.0
  }

  /** Under its defaults, the backup driver gives every composition the
      respawn settings Visibility.BackupComposition. */
  lemma BackupCompositionSettings()
    ensures RespawnConfig(BackupDefaults) == Visibility.BackupComposition
  {
  }

  /** A sample mapped as (Math.random() - 0.5) * width. */
  function Offset(r: Sample, width: real): (v: real)
    ensures Centred(v, width)
  {
    OffsetBound(r, width);
    (r as real - 0.5) * width
  }

  lemma OffsetBound(r: Sample, width: real)
    ensures Centred((r as real - 0.5) * width, width)
  {
    if width >= 0.0 {
      assert (r as real - 0.5) * width + width / 2.0 == r as real * width;
      NonNegativeProduct(r as real, width);
      if width > 0.0 {
        assert width / 2.0 - (r as real - 0.5) * width == (1.0 - r as real) * width;
        PositiveProduct(1.0 - r as real, width);
      }
    } else {
      assert (r as real - 0.5) * width - width / 2.0 == (1.0 - r as real) * -width;
      PositiveProduct(1.0 - r as real, -width);
      assert -width / 2.0 - (r as real - 0.5) * width == r as real * -width;
      NonNegativeProduct(r as real, -width);
    }
  }

  /** The j-th pair of samples, each mapped by Offset. */
  function PairAt(rand: seq<Sample>, j: nat, width: real): (real, real)
    requires 2 * j + 1 < |rand|
  {
    (Offset(rand[2 * j], width), Offset(rand[2 * j + 1], width))
  }

  /** The centre randomizeCompositionPosition measures from: the camera's
      position attribute when there is one, else the origin. */
  function AnnulusCentre(cam: Option<Vec3>): Vec3
  {
    if cam.Some? then cam.value else Zero
  }

  function PlanarSq(p: (real, real), c: Vec3): real
  {
    (p.0 - c.x) * (p.0 - c.x) + (p.1 - c.z) * (p.1 - c.z)
  }

  /** The do/while exit test: neither `distance < minRadius` nor
      `distance > maxRadius`, with distance the planar distance to c. */
  predicate InAnnulus(p: (real, real), c: Vec3, minR: real, maxR: real)
  {
    !SqrtBelow(PlanarSq(p, c), minR) && !SqrtAbove(PlanarSq(p, c), maxR)
  }

  /** For a proper annulus the exit test is exactly
      minRadius^2 <= distance^2 <= maxRadius^2. */
  lemma InAnnulusSquares(p: (real, real), c: Vec3, minR: real, maxR: real)
    requires 0.0 <= minR && 0.0 <= maxR
    ensures InAnnulus(p, c, minR, maxR) <==> minR * minR <= PlanarSq(p, c) <= maxR * maxR
  {
    assert PlanarSq(p, c) >= 0.0;
  }

  /** Squared planar distance between two (x, z) pairs. */
  function PairDistSq(p: (real, real), q: (real, real)): real
  {
    (p.0 - q.0) * (p.0 - q.0) + (p.1 - q.1) * (p.1 - q.1)
  }

  /** The inner loop's verdict: no earlier base lies closer than BaseSpacing. */
  ghost predicate ClearOf(p: (real, real), existing: seq<(real, real)>)
  {
    forall i :: 0 <= i < |existing| ==> !SqrtBelow(PairDistSq(p, existing[i]), BaseSpacing)
  }

  /** The base rotation of a Pamats object: (r - 0.5) * 30 degrees per axis. */
  function BaseRotation(a: Sample, b: Sample, c: Sample): (rot: Vec3)
    ensures WithinLimits(rot)
  {
    Vec3(Offset(a, 30.0), Offset(b, 30.0), Offset(c, 30.0))
  }

  predicate InLimit(v: real) { -RotationLimit <= v <= RotationLimit }

  predicate WithinLimits(rot: Vec3) { InLimit(rot.x) && InLimit(rot.y) && InLimit(rot.z) }

  /** One scroll step on one axis: add `amount`; at or beyond ±45 the result
      is clamped and the direction is to be reversed. Returns the new angle
      and whether the direction flips. */
  function StepAngle(angle: real, amount: real): (r: (real, bool))
    ensures InLimit(r.0)
    ensures r.1 <==> angle + amount >= RotationLimit || angle + amount <= -RotationLimit
    ensures !r.1 ==> r.0 == angle + amount
    ensures r.1 ==> r.0 == RotationLimit || r.0 == -RotationLimit
  {
    var n := angle + amount;
    if n >= RotationLimit || n <= -RotationLimit then (Max(-RotationLimit, Min(RotationLimit, n)), true)
    else (n, false)
  }

  function Component(v: Vec3, axis: nat): real
  {
    if axis == 0 then v.x else if axis == 1 then v.y else v.z
  }

  function WithComponent(v: Vec3, axis: nat, a: real): Vec3
  {
    if axis == 0 then v.(x := a) else if axis == 1 then v.(y := a) else v.(z := a)
  }

  /** The scroll sign: deltaY > 0 scrolls up, anything else down. */
  function ScrollSign(deltaY: real): int
  {
    if deltaY > 0.0 then 1 else -1
  }

  /** The effect of one wheel event on one Pamats object: its rotation and
      its rotation direction afterwards. */
  function Scrolled(rot: Vec3, axis: nat, direction: int, deltaY: real): (r: (Vec3, int))
    requires axis < 3
    ensures Component(r.0, axis) == StepAngle(Component(rot, axis), ScrollStepDeg * (ScrollSign(deltaY) * direction) as real).0
    ensures forall other :: 0 <= other < 3 && other != axis ==> Component(r.0, other) == Component(rot, other)
    ensures r.1 == if StepAngle(Component(rot, axis), ScrollStepDeg * (ScrollSign(deltaY) * direction) as real).1 then -direction else direction
    ensures WithinLimits(rot) ==> WithinLimits(r.0)
    ensures direction == 1 || direction == -1 ==> r.1 == 1 || r.1 == -1
  {
    var step := StepAngle(Component(rot, axis), ScrollStepDeg * (ScrollSign(deltaY) * direction) as real);
    (WithComponent(rot, axis, step.0), if step.1 then -direction else direction)
  }

  /** An entry of pamatObjects: the base element's rotation and position,
      its randomly chosen axis and its current rotation direction. */
  class Pamat {
    var rotation: Vec3
    const position: Vec3
    const randomAxis: nat
    var rotationDirection: int

    ghost predicate Valid()
      reads this
    {
      randomAxis < 3 && (rotationDirection == 1 || rotationDirection == -1) && WithinLimits(rotation)
    }

    constructor (rotation: Vec3, position: Vec3, randomAxis: nat)
      requires randomAxis < 3 && WithinLimits(rotation)
      ensures Valid()
      ensures this.rotation == rotation && this.position == position && this.randomAxis == randomAxis
      ensures rotationDirection == 1
    {
      this.rotation := rotation;
      this.position := position;
      this.randomAxis := randomAxis;
      rotationDirection := 1;
    }

    /** The body of the wheel handler for this object. */
    method Scroll(deltaY: real)
      requires Valid()
      modifies this
      ensures Valid()
      ensures (rotation, rotationDirection) == Scrolled(old(rotation), randomAxis, old(rotationDirection), deltaY)
    {
      var step := StepAngle(Component(rotation, randomAxis), ScrollStepDeg * (ScrollSign(deltaY) * rotationDirection) as real);
      if step.1 {
        rotationDirection := -rotationDirection;
      }
      rotation := WithComponent(rotation, randomAxis, step.0);
    }
  }

  /** A composition entity: its position attribute (absent until placed),
      rotation, whether it is in the scene, its Pamats base (random-compositions.js
      only) and the respawn settings it carries. */
  class Composition {
    var position: Option<Vec3>
    var rotation: Vec3
    var attached: bool
    var base: Pamat?
    const respawn: Visibility.Config

    constructor (respawn: Visibility.Config)
      ensures position == None && rotation == Zero && !attached && base == null && this.respawn == respawn
    {
      position := None;
      rotation := Zero;
      attached := false;
      base := null;
      this.respawn := respawn;
    }
  }

  /** The do/while of randomizeCompositionPosition, drawing pairs until one
      lies in the annulus around c. `found` is false only when the samples
      ran out first; `tries` counts the pairs drawn. */
  method SampleAnnulus(spread: real, minR: real, maxR: real, c: Vec3, rand: seq<Sample>)
    returns (rest: seq<Sample>, found: bool, p: (real, real), ghost tries: nat)
    ensures 2 * tries <= |rand| && rest == rand[2 * tries..]
    ensures found ==> tries >= 1 && p == PairAt(rand, tries - 1, spread) && InAnnulus(p, c, minR, maxR)
    ensures found ==> forall j :: 0 <= j < tries - 1 ==> !InAnnulus(PairAt(rand, j, spread), c, minR, maxR)
    ensures !found ==> |rest| < 2 && forall j :: 0 <= j < tries ==> !InAnnulus(PairAt(rand, j, spread), c, minR, maxR)
  {
    rest, found, p, tries := rand, false, (0.0, 0.0), 0;
    while |rest| >= 2
      invariant 2 * tries <= |rand| && rest == rand[2 * tries..]
      invariant forall j :: 0 <= j < tries ==> !InAnnulus(PairAt(rand, j, spread), c, minR, maxR)
      decreases |rest|
    {
      p := (Offset(rest[0], spread), Offset(rest[1], spread));
      assert p == PairAt(rand, tries, spread);
      rest := rest[2..];
      tries := tries + 1;
      if InAnnulus(p, c, minR, maxR) {
        found := true;
        return;
      }
    }
  }

  /** The inner loop of the Pamats placement: is p at least BaseSpacing from
      every earlier base? */
  method IsClear(p: (real, real), existing: seq<(real, real)>) returns (ok: bool)
    ensures ok == ClearOf(p, existing)
  {
    ok := true;
    var i := 0;
    while i < |existing|
      invariant 0 <= i <= |existing|
      invariant forall k :: 0 <= k < i ==> !SqrtBelow(PairDistSq(p, existing[k]), BaseSpacing)
    {
      if SqrtBelow(PairDistSq(p, existing[i]), BaseSpacing) {
        ok := false;
        return;
      }
      i := i + 1;
    }
  }

  /** The bounded do/while of createTowerComposition: draw a base position
      in the 10 x 10 square until it is clear of `existing` or 50 attempts
      were made, then keep the last one. `placed` is false only when the
      samples ran out first. */
  method PlaceBase(existing: seq<(real, real)>, rand: seq<Sample>)
    returns (rest: seq<Sample>, placed: bool, p: (real, real), attempts: nat)
    ensures 2 * attempts <= |rand| && rest == rand[2 * attempts..]
    ensures attempts <= BaseAttempts
    ensures placed ==> attempts >= 1 && p == PairAt(rand, attempts - 1, BaseSquare)
    ensures placed ==> ClearOf(p, existing) || attempts == BaseAttempts
    ensures forall j :: 0 <= j < attempts - 1 ==> !ClearOf(PairAt(rand, j, BaseSquare), existing)
    ensures !placed ==>
      |rest| < 2 && attempts < BaseAttempts
      && forall j :: 0 <= j < attempts ==> !ClearOf(PairAt(rand, j, BaseSquare), existing)
    ensures existing == [] && |rand| >= 2 ==> placed && attempts == 1
  {
    rest, placed, p, attempts := rand, false, (0.0, 0.0), 0;
    while !placed
      invariant 2 * attempts <= |rand| && rest == rand[2 * attempts..]
      invariant attempts <= BaseAttempts
      invariant placed ==> attempts >= 1 && p == PairAt(rand, attempts - 1, BaseSquare)
      invariant placed ==> ClearOf(p, existing) || attempts == BaseAttempts
      invariant forall j :: 0 <= j < attempts - 1 ==> !ClearOf(PairAt(rand, j, BaseSquare), existing)
      invariant !placed ==>
        attempts < BaseAttempts
        && forall j :: 0 <= j < attempts ==> !ClearOf(PairAt(rand, j, BaseSquare), existing)
      invariant existing == [] && |rand| >= 2 ==> attempts <= 1 && (attempts == 1 ==> placed)
      decreases BaseAttempts - attempts, !placed
    {
      if |rest| < 2 {
        return;
      }
      p := (Offset(rest[0], BaseSquare), Offset(rest[1], BaseSquare));
      assert p == PairAt(rand, attempts, BaseSquare);
      rest := rest[2..];
      placed := IsClear(p, existing);
      attempts := attempts + 1;
      if attempts >= BaseAttempts {
        placed := true;
      }
    }
  }

  /** The scene-level `random-compositions` component. */
  class Driver {
    const version: Visibility.Version
    const settings: Settings
    var compositions: seq<Composition>
    var pamatObjects: seq<Pamat>
    /** registerWithFrustumSystem found the camera element. */
    var cameraFound: bool
    var lastSafetyCheck: real

    ghost predicate Valid()
      reads this, pamatObjects
    {
      && Visibility.Distinct(compositions)
      && Visibility.Distinct(pamatObjects)
      && (forall i :: 0 <= i < |pamatObjects| ==> pamatObjects[i].Valid())
      && (version == Visibility.Backup ==> pamatObjects == [])
    }

    constructor (version: Visibility.Version, settings: Settings)
      ensures Valid() && this.version == version && this.settings == settings
      ensures compositions == [] && pamatObjects == [] && !cameraFound && lastSafetyCheck == 0.0
    {
      this.version := version;
      this.settings := settings;
      compositions := [];
      pamatObjects := [];
      cameraFound := false;
      lastSafetyCheck := 0.0;
    }

    /** createCompositions: `count` new entities, each placed, given its
        tower and its respawn settings, attached to the scene and recorded, in
        order. `cam` is the camera's position attribute as
        randomizeCompositionPosition finds it. Fewer than `count` are made
        only when the samples run out. */
    method CreateCompositions(cam: Option<Vec3>, rand: seq<Sample>)
      returns (rest: seq<Sample>, made: seq<Composition>)
      requires Valid()
      modifies this`compositions, this`pamatObjects
      ensures Valid()
      ensures Suffix(rest, rand)
      ensures compositions == old(compositions) + made
      ensures |made| <= settings.count
      ensures |made| < settings.count ==> |rest| < 6
      ensures forall j :: 0 <= j < |made| ==> Created(made[j], AnnulusCentre(cam), settings)
      ensures old(pamatObjects) <= pamatObjects
      ensures version == Visibility.Current ==>
        |pamatObjects| == |old(pamatObjects)| + |made|
        && forall j :: 0 <= j < |made| ==> made[j].base == pamatObjects[|old(pamatObjects)| + j]
    {
      rest, made := rand, [];
      while |made| < settings.count
        invariant Valid()
        invariant Suffix(rest, rand)
        invariant compositions == old(compositions) + made
        invariant |made| <= settings.count
        invariant forall j :: 0 <= j < |made| ==> Created(made[j], AnnulusCentre(cam), settings)
        invariant old(pamatObjects) <= pamatObjects
        invariant version == Visibility.Current ==>
          |pamatObjects| == |old(pamatObjects)| + |made|
          && forall j :: 0 <= j < |made| ==> made[j].base == pamatObjects[|old(pamatObjects)| + j]
        decreases settings.count - |made|
      {
        var rest', e := NewComposition(cam, rest);
        SuffixTrans(rest', rest, rand);
        rest := rest';
        if e == null { return; }
        Visibility.DistinctPush(compositions, e);
        compositions := compositions + [e];
        made := made + [e];
      }
    }

    /** One pass of createCompositions' loop up to the push: a new entity,
        placed, given its tower and its respawn settings, in the scene. `e` is
        null only when the samples ran out. */
    method NewComposition(cam: Option<Vec3>, rand: seq<Sample>)
      returns (rest: seq<Sample>, e: Composition?)
      requires Valid()
      modifies this`pamatObjects
      ensures Valid()
      ensures Suffix(rest, rand)
      ensures e == null ==> |rest| < 6
      ensures e != null ==> fresh(e) && Created(e, AnnulusCentre(cam), settings)
      ensures old(pamatObjects) <= pamatObjects
      ensures version == Visibility.Current && e != null ==> pamatObjects == old(pamatObjects) + [e.base]
      ensures version == Visibility.Backup || e == null ==> pamatObjects == old(pamatObjects)
    {
      var c := new Composition(RespawnConfig(settings));
      e := null;
      var rest', found := Randomize(c, cam, rand);
      rest := rest';
      if !found { return; }
      var ok;
      rest', ok := CreateTowerComposition(c, rest);
      SuffixTrans(rest', rest, rand);
      rest := rest';
      if !ok { return; }
      c.attached := true;
      e := c;
    }

    /** The scene's `loaded` handler: createCompositions, then
        registerWithFrustumSystem, which looks the camera element up.
        `cameraElement` says whether that element exists and `camPos` is its
        position attribute. */
    method OnLoaded(cameraElement: bool, camPos: Option<Vec3>, rand: seq<Sample>)
      returns (rest: seq<Sample>, made: seq<Composition>)
      requires Valid()
      modifies this`compositions, this`pamatObjects, this`cameraFound
      ensures Valid() && cameraFound == cameraElement
      ensures Suffix(rest, rand)
      ensures compositions == old(compositions) + made
      ensures |made| < settings.count ==> |rest| < 6
      ensures forall j :: 0 <= j < |made| ==>
        OnGround(made[j], AnnulusCentre(if cameraElement then camPos else None), settings)
    {
      rest, made := CreateCompositions(if cameraElement then camPos else None, rand);
      cameraFound := cameraElement;
    }

    /** randomizeCompositionPosition: y is 0 and (x, z) is the first sampled
        pair around the camera (or the origin) that lies in the annulus. */
    method Randomize(entity: Composition, cam: Option<Vec3>, rand: seq<Sample>)
      returns (rest: seq<Sample>, found: bool)
      modifies entity`position
      ensures Suffix(rest, rand)
      ensures found ==>
        entity.position.Some? && entity.position.value.y == 0.0
        && InAnnulus((entity.position.value.x, entity.position.value.z), AnnulusCentre(cam), settings.minRadius, settings.maxRadius)
      ensures found ==> exists j :: 0 <= j < (|rand| - |rest|) / 2 && (entity.position.value.x, entity.position.value.z) == PairAt(rand, j, settings.spread)
      ensures !found ==> entity.position == old(entity.position) && |rest| < 2
    {
      var p;
      ghost var tries;
      rest, found, p, tries := SampleAnnulus(settings.spread, settings.minRadius, settings.maxRadius, AnnulusCentre(cam), rand);
      if found {
        entity.position := Some(Vec3(p.0, 0.0, p.1));
        assert (|rand| - |rest|) / 2 == tries;
      }
    }

    /** The modelled part of createTowerComposition in random-compositions.js:
        the base's rotation, the placement loop (with an empty list of earlier
        bases, as the composition has exactly one) and the random axis; the
        new base is recorded in pamatObjects with direction 1. The backup
        copy's tower is decorative and draws nothing that is modelled. */
    method CreateTowerComposition(entity: Composition, rand: seq<Sample>)
      returns (rest: seq<Sample>, ok: bool)
      requires Valid()
      modifies this`pamatObjects, entity`base
      ensures Valid()
      ensures Suffix(rest, rand)
      ensures version == Visibility.Backup ==> ok && rest == rand && pamatObjects == old(pamatObjects) && entity.base == old(entity.base)
      ensures version == Visibility.Current ==> (ok <==> |rand| >= 6)
      ensures version == Visibility.Current && ok ==>
        && entity.base != null && fresh(entity.base)
        && pamatObjects == old(pamatObjects) + [entity.base]
        && entity.base.rotation == BaseRotation(rand[0], rand[1], rand[2])
        && entity.base.position == Vec3(PairAt(rand[3..], 0, BaseSquare).0, 0.0, PairAt(rand[3..], 0, BaseSquare).1)
        && entity.base.randomAxis == Pick(rand[5], 3)
        && entity.base.rotationDirection == 1
        && rest == rand[6..]
      ensures version == Visibility.Current && !ok ==> pamatObjects == old(pamatObjects) && entity.base == old(entity.base) && rest == rand
    {
      rest, ok := rand, true;
      if version == Visibility.Backup { return; }
      if |rand| < 6 {
        ok := false;
        return;
      }
      var rot := BaseRotation(rand[0], rand[1], rand[2]);
      var rest', placed, p, attempts := PlaceBase([], rand[3..]);
      var axis := Pick(rest'[0], 3);
      rest := rest'[1..];
      assert rest == rand[6..];
      var b := new Pamat(rot, Vec3(p.0, 0.0, p.1), axis);
      entity.base := b;
      pamatObjects := pamatObjects + [b];
    }

    /** regenerateComposition: a new tower, then rotation.y := Math.random() * 360
        with x and z kept. */
    method Regenerate(entity: Composition, rand: seq<Sample>)
      returns (rest: seq<Sample>, ok: bool)
      requires Valid()
      modifies this`pamatObjects, entity`base, entity`rotation
      ensures Valid()
      ensures Suffix(rest, rand)
      ensures ok ==>
        |rest| < |rand|
        && entity.rotation == Vec3(old(entity.rotation.x), rand[|rand| - |rest| - 1] as real * 360.0, old(entity.rotation.z))
        && 0.0 <= entity.rotation.y < 360.0
      ensures ok && version == Visibility.Current ==>
        entity.base != null && fresh(entity.base) && pamatObjects == old(pamatObjects) + [entity.base]
      ensures version == Visibility.Backup ==> pamatObjects == old(pamatObjects) && entity.base == old(entity.base)
      ensures !ok ==> entity.rotation == old(entity.rotation) && |rest| < 7
      ensures |rand| >= 7 ==> ok
      ensures old(pamatObjects) <= pamatObjects
    {
      var rest';
      rest', ok := CreateTowerComposition(entity, rand);
      if !ok || |rest'| < 1 {
        rest, ok := rest', false;
        return;
      }
      entity.rotation := entity.rotation.(y := rest'[0] as real * 360.0);
      rest := rest'[1..];
      assert rest[..] == rand[|rand| - |rest|..];
    }

    /** forceRepositionComposition: randomize, then regenerate. The new
        position is written only once the samples regenerateComposition
        needs are known to be there, so on `!ok` nothing has changed. */
    method ForceReposition(entity: Composition, cam: Option<Vec3>, rand: seq<Sample>)
      returns (rest: seq<Sample>, ok: bool)
      requires Valid()
      modifies this`pamatObjects, entity`base, entity`rotation, entity`position
      ensures Valid()
      ensures Suffix(rest, rand)
      ensures ok ==> Repositioned(entity, AnnulusCentre(cam), settings)
      ensures ok && version == Visibility.Current ==>
        entity.base != null && fresh(entity.base) && pamatObjects == old(pamatObjects) + [entity.base]
      ensures version == Visibility.Backup || !ok ==> pamatObjects == old(pamatObjects)
      ensures !ok ==> Kept(entity) && |rest| < 7
      ensures old(pamatObjects) <= pamatObjects
    {
      var found, p;
      ghost var tries;
      rest, found, p, tries := SampleAnnulus(settings.spread, settings.minRadius, settings.maxRadius, AnnulusCentre(cam), rand);
      if !found || |rest| < 7 {
        ok := false;
        return;
      }
      entity.position := Some(Vec3(p.0, 0.0, p.1));
      var rest';
      rest', ok := Regenerate(entity, rest);
      SuffixTrans(rest', rest, rand);
      rest := rest';
    }

    /** performSafetyCheck (random-compositions.js only). `camPos` is the
        camera's position attribute at check time. */
    method PerformSafetyCheck(time: real, camPos: Option<Vec3>, rand: seq<Sample>)
      returns (rest: seq<Sample>, checked: nat)
      requires Valid() && version == Visibility.Current
      modifies this`lastSafetyCheck, this`pamatObjects, compositions
      ensures Valid() && compositions == old(compositions)
      ensures Suffix(rest, rand)
      ensures !cameraFound || |compositions| == 0 || time - old(lastSafetyCheck) < SafetyIntervalMs ==>
        lastSafetyCheck == old(lastSafetyCheck) && checked == 0 && rest == rand
      ensures cameraFound && |compositions| > 0 && time - old(lastSafetyCheck) >= SafetyIntervalMs ==>
        lastSafetyCheck == time
      ensures camPos.None? ==> checked == 0 && pamatObjects == old(pamatObjects)
      ensures checked <= |compositions|
      ensures (cameraFound && |compositions| > 0 && time - old(lastSafetyCheck) >= SafetyIntervalMs
        && camPos.Some? && checked < |compositions|) ==> |rest| < 7
      ensures camPos.Some? ==> forall j :: 0 <= j < checked ==> SafetyChecked(compositions[j], camPos.value, settings)
      ensures forall j :: checked <= j < |compositions| ==> Kept(compositions[j])
      ensures old(pamatObjects) <= pamatObjects
    {
      rest, checked := rand, 0;
      if !cameraFound || |compositions| == 0 { return; }
      if time - lastSafetyCheck < SafetyIntervalMs { return; }
      lastSafetyCheck := time;
      if camPos.None? { return; }
      rest, checked := SafetySweep(camPos.value, rand);
    }

    /** The loop of performSafetyCheck, with the camera at c: the first
        `checked` compositions are checked, the rest left as they were;
        fewer than all only when the samples ran out. */
    method SafetySweep(c: Vec3, rand: seq<Sample>)
      returns (rest: seq<Sample>, checked: nat)
      requires Valid()
      modifies this`pamatObjects, compositions
      ensures Valid()
      ensures Suffix(rest, rand)
      ensures checked <= |compositions|
      ensures forall j :: 0 <= j < checked ==> SafetyChecked(compositions[j], c, settings)
      ensures forall j :: checked <= j < |compositions| ==> Kept(compositions[j])
      ensures checked < |compositions| ==> |rest| < 7
      ensures old(pamatObjects) <= pamatObjects
    {
      rest, checked := rand, 0;
      var ok := true;
      while checked < |compositions| && ok
        invariant checked <= |compositions|
        invariant Valid()
        invariant Suffix(rest, rand)
        invariant forall j :: 0 <= j < checked ==> SafetyChecked(compositions[j], c, settings)
        invariant forall j :: checked <= j < |compositions| ==> Kept(compositions[j])
        invariant !ok ==> |rest| < 7
        invariant old(pamatObjects) <= pamatObjects
        decreases |compositions| - checked, ok
      {
        var rest';
        rest', ok := SafetyStep(compositions[checked], c, rest);
        SuffixTrans(rest', rest, rand);
        rest := rest';
        if ok {
          checked := checked + 1;
        }
      }
    }

    /** One pass of performSafetyCheck's loop: an attached composition
        closer than minDist to the camera in the plane is force-repositioned;
        `ok` is false only when that ran out of samples, and the composition
        is then left as it was. */
    method SafetyStep(e: Composition, c: Vec3, rand: seq<Sample>)
      returns (rest: seq<Sample>, ok: bool)
      requires Valid()
      modifies this`pamatObjects, e`base, e`rotation, e`position
      ensures Valid()
      ensures Suffix(rest, rand)
      ensures ok ==> SafetyChecked(e, c, settings)
      ensures !ok ==> Kept(e) && |rest| < 7
      ensures old(pamatObjects) <= pamatObjects
    {
      rest, ok := rand, true;
      if e.attached && e.position.Some? && SqrtBelow(PlanarDistSq(e.position.value, c), settings.minDist) {
        rest, ok := ForceReposition(e, Some(c), rand);
      }
    }

    /** The wheel handler of setupScrollRotation: every Pamats object, in
        order, takes one Scroll step. */
    method OnScroll(deltaY: real)
      requires Valid()
      modifies pamatObjects
      ensures Valid()
      ensures forall j :: 0 <= j < |pamatObjects| ==>
        (pamatObjects[j].rotation, pamatObjects[j].rotationDirection)
          == Scrolled(old(pamatObjects[j].rotation), pamatObjects[j].randomAxis, old(pamatObjects[j].rotationDirection), deltaY)
    {
      var i := 0;
      while i < |pamatObjects|
        invariant 0 <= i <= |pamatObjects|
        invariant Valid()
        invariant forall j :: 0 <= j < i ==>
          (pamatObjects[j].rotation, pamatObjects[j].rotationDirection)
            == Scrolled(old(pamatObjects[j].rotation), pamatObjects[j].randomAxis, old(pamatObjects[j].rotationDirection), deltaY)
        invariant forall j :: i <= j < |pamatObjects| ==> unchanged(pamatObjects[j])
      {
        pamatObjects[i].Scroll(deltaY);
        i := i + 1;
      }
    }
  }

  /** Placed by randomizeCompositionPosition: on the ground, in the annulus. */
  ghost predicate OnGround(e: Composition, centre: Vec3, s: Settings)
    reads e
  {
    e.position.Some? && e.position.value.y == 0.0
    && InAnnulus((e.position.value.x, e.position.value.z), centre, s.minRadius, s.maxRadius)
  }

  /** As createCompositions leaves a composition: placed, unrotated, with
      its respawn settings, in the scene. */
  ghost predicate Created(e: Composition, centre: Vec3, s: Settings)
    reads e
  {
    e.attached && e.rotation == Zero && e.respawn == RespawnConfig(s) && OnGround(e, centre, s)
  }

  /** After forceRepositionComposition: on the ground, in the annulus, with a
      fresh yaw in [0, 360) and the other rotation angles kept. */
  twostate predicate Repositioned(e: Composition, centre: Vec3, s: Settings)
    reads e
  {
    && OnGround(e, centre, s)
    && e.rotation.x == old(e.rotation.x) && e.rotation.z == old(e.rotation.z)
    && 0.0 <= e.rotation.y < 360.0
    && e.attached == old(e.attached)
  }

  /** Every field of e as it was. */
  twostate predicate Kept(e: Composition)
    reads e
  {
    e.position == old(e.position) && e.rotation == old(e.rotation)
    && e.attached == old(e.attached) && e.base == old(e.base)
  }

  /** What the safety sweep does to one composition: an attached one with a
      position closer than minDist in the plane is repositioned; any other is
      left as it was. */
  twostate predicate SafetyChecked(e: Composition, cam: Vec3, s: Settings)
    reads e
  {
    if old(e.attached) && old(e.position).Some? && SqrtBelow(PlanarDistSq(old(e.position).value, cam), s.minDist)
    then Repositioned(e, cam, s)
    else Kept(e)
  }
}
