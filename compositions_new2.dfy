/** The `random-compositions` component of Components/random-compositions-new2.js:
    a simpler, time-based variant that places the compositions with a
    do/while capped at 50 attempts, and every `repositionInterval` ms
    repositions the ones too close to the camera plus a random few. It has
    no frustum tracking and no Pamats bases; its towers are decorative. */
module CompositionsNew2 {
  import opened Geometry
  import Compositions
  import Visibility

  /** The schema fields that the placement and repositioning logic reads. */
  datatype Schema = Schema(
    count: nat, spread: real, minRadius: real, maxRadius: real,
    minDist: real, maxDist: real, repositionInterval: real, repositionChance: real)

  /** repositionComposition gives up looking for the annulus after this many pairs. */
  const MaxAttempts: nat := 50

  /** The camera position repositionComposition assumes when it has no camera
      or the camera has no position attribute. */
  const DefaultCamera: Vec3 := Vec3(0.0, 10.0, 0.0)

  /** The bookkeeping createCompositions attaches to every entity. */
  datatype UserData = UserData(lastRepositioned: real, compositionId: nat)

  /** regenerateComposition's timestamp update: only when userData exists. */
  function Refreshed(u: Option<UserData>, now: real): (r: Option<UserData>)
    ensures r.Some? <==> u.Some?
    ensures r.Some? ==> r.value.lastRepositioned == now && r.value.compositionId == u.value.compositionId
  {
    if u.Some? then Some(u.value.(lastRepositioned := now)) else None
  }

  /** The centre repositionComposition measures from. */
  function CameraCentre(cameraFound: bool, camPos: Option<Vec3>): (c: Vec3)
    ensures cameraFound && camPos.Some? ==> c == camPos.value
    ensures !cameraFound || camPos.None? ==> c == DefaultCamera
  {
    if cameraFound && camPos.Some? then camPos.value else DefaultCamera
  }

  /** The verdict of checkRepositioning for one live composition: whether it
      is to be repositioned and how many samples deciding took. */
  datatype Verdict = Verdict(should: bool, draws: nat)

  /** The reposition decision for a composition at squared planar distance
      d2 from the camera: too close always; else, when farther than
      maxRadius, a first draw against repositionChance; else (or when that
      draw failed) a draw against 0.3 * repositionChance. None when the
      samples ran out. */
  function Decide(d2: real, s: Schema, rand: seq<Sample>): (v: Option<Verdict>)
    ensures v.Some? ==> v.value.draws <= |rand| && v.value.draws <= 2
    ensures v.None? ==> |rand| < 2
    ensures SqrtBelow(d2, s.minDist) ==> v == Some(Verdict(true, 0))
    ensures !SqrtBelow(d2, s.minDist) && v.Some? ==> v.value.draws >= 1
    ensures !SqrtBelow(d2, s.minDist) && !SqrtAbove(d2, s.maxRadius) && v.Some? ==>
      v.value.draws == 1 && (v.value.should <==> rand[0] < s.repositionChance * 0.3)
    ensures v.Some? && v.value.should && !SqrtBelow(d2, s.minDist) ==>
      exists k :: 0 <= k < v.value.draws && rand[k] < s.repositionChance
    ensures v.Some? && s.repositionChance <= 0.0 ==> (v.value.should <==> SqrtBelow(d2, s.minDist))
  {
    if SqrtBelow(d2, s.minDist) then Some(Verdict(true, 0))
    else if SqrtAbove(d2, s.maxRadius) then
      if |rand| < 1 then None
      else if rand[0] < s.repositionChance then Some(Verdict(true, 1))
      else if |rand| < 2 then None
      else Some(Verdict(rand[1] < s.repositionChance * 0.3, 2))
    else if |rand| < 1 then None
    else Some(Verdict(rand[0] < s.repositionChance * 0.3, 1))
  }

  /** The do/while of repositionComposition: draw (x, z) in the square of
      side `width` until its planar distance to c lies in
      [minR, maxR] or 50 pairs were drawn, keeping the last pair either way.
      `ok` is false only when the samples ran out first. */
  method SampleBounded(width: real, minR: real, maxR: real, c: Vec3, rand: seq<Sample>)
    returns (rest: seq<Sample>, ok: bool, p: (real, real), attempts: nat)
    ensures 2 * attempts <= |rand| && rest == rand[2 * attempts..]
    ensures attempts <= MaxAttempts
    ensures ok ==> attempts >= 1 && p == Compositions.PairAt(rand, attempts - 1, width)
    ensures ok ==> Compositions.InAnnulus(p, c, minR, maxR) || attempts == MaxAttempts
    ensures ok ==> Compositions.Centred(p.0, width) && Compositions.Centred(p.1, width)
    ensures forall j :: 0 <= j < attempts - 1 ==> !Compositions.InAnnulus(Compositions.PairAt(rand, j, width), c, minR, maxR)
    ensures !ok ==>
      |rest| < 2 && attempts < MaxAttempts
      && forall j :: 0 <= j < attempts ==> !Compositions.InAnnulus(Compositions.PairAt(rand, j, width), c, minR, maxR)
    ensures |rand| >= 2 * MaxAttempts ==> ok
  {
    rest, ok, p, attempts := rand, false, (0.0, 0.0), 0;
    while !ok
      invariant 2 * attempts <= |rand| && rest == rand[2 * attempts..]
      invariant attempts <= MaxAttempts
      invariant ok ==> attempts >= 1 && p == Compositions.PairAt(rand, attempts - 1, width)
      invariant ok ==> Compositions.InAnnulus(p, c, minR, maxR) || attempts == MaxAttempts
      invariant ok ==> Compositions.Centred(p.0, width) && Compositions.Centred(p.1, width)
      invariant forall j :: 0 <= j < attempts - 1 ==> !Compositions.InAnnulus(Compositions.PairAt(rand, j, width), c, minR, maxR)
      invariant !ok ==>
        attempts < MaxAttempts
        && forall j :: 0 <= j < attempts ==> !Compositions.InAnnulus(Compositions.PairAt(rand, j, width), c, minR, maxR)
      decreases MaxAttempts - attempts, !ok
    {
      if |rest| < 2 {
        return;
      }
      p := (Compositions.Offset(rest[0], width), Compositions.Offset(rest[1], width));
      assert p == Compositions.PairAt(rand, attempts, width);
      rest := rest[2..];
      attempts := attempts + 1;
      if Compositions.InAnnulus(p, c, minR, maxR) || attempts == MaxAttempts {
        ok := true;
      }
    }
  }

  /** A composition entity: its position attribute (absent until placed),
      its rotation attribute, whether it is in the scene and its userData. */
  class Composition {
    var position: Option<Vec3>
    var rotation: Vec3
    var attached: bool
    var userData: Option<UserData>

    constructor ()
      ensures position == None && rotation == Zero && !attached && userData == None
    {
      position := None;
      rotation := Zero;
      attached := false;
      userData := None;
    }
  }

  /** The fields of a composition that checkRepositioning may change. */
  datatype Snapshot = Snapshot(position: Option<Vec3>, rotation: Vec3, attached: bool, userData: Option<UserData>)

  function Snap(e: Composition): Snapshot
    reads e
  {
    Snapshot(e.position, e.rotation, e.attached, e.userData)
  }

  /** Where repositionComposition leaves an entity: on the ground, with x
      and z in [-spread, spread), or in (spread, -spread] for a negative
      spread. */
  predicate InSquareAt(p: Option<Vec3>, s: Schema)
  {
    && p.Some? && p.value.y == 0.0
    && Compositions.Centred(p.value.x, 2.0 * s.spread) && Compositions.Centred(p.value.z, 2.0 * s.spread)
  }

  ghost predicate InSquare(e: Composition, s: Schema)
    reads e
  {
    InSquareAt(e.position, s)
  }

  /** A composition as createCompositions leaves it: placed in the square
      by repositionComposition around `centre` (in the annulus
      [minRadius, maxRadius], or at the 50th pair when none of them was),
      unrotated, stamped with `now` and its index, in the scene. `attempts`
      is the number of pairs the placement drew. */
  ghost predicate Stamped(e: Composition, s: Schema, now: real, id: nat, centre: Vec3, attempts: nat)
    reads e
  {
    && e.attached && e.rotation == Zero && e.userData == Some(UserData(now, id)) && InSquare(e, s)
    && 1 <= attempts <= MaxAttempts
    && (Compositions.InAnnulus((e.position.value.x, e.position.value.z), centre, s.minRadius, s.maxRadius)
        || attempts == MaxAttempts)
  }

  /** From a to b by repositionComposition and regenerateComposition: placed
      in the square, in the annulus [minRadius, maxRadius] around `centre`
      unless its do/while took all 50 pairs (`attempts` is the number drawn),
      a fresh yaw in [0, 360) with pitch and roll kept, the timestamp
      refreshed, still in the scene. */
  predicate MovedFrom(a: Snapshot, b: Snapshot, s: Schema, now: real, centre: Vec3, attempts: nat)
  {
    && InSquareAt(b.position, s)
    && 1 <= attempts <= MaxAttempts
    && (Compositions.InAnnulus((b.position.value.x, b.position.value.z), centre, s.minRadius, s.maxRadius)
        || attempts == MaxAttempts)
    && b.rotation.x == a.rotation.x && b.rotation.z == a.rotation.z
    && 0.0 <= b.rotation.y < 360.0
    && b.userData == Refreshed(a.userData, now)
    && b.attached == a.attached
  }

  /** What checkRepositioning does to one composition, deciding from the
      samples `w`: a removed or position-less one is skipped; a live one is
      moved around the camera exactly when Decide says so, and otherwise
      left exactly as it was. `attempts` is the number of pairs a move drew. */
  predicate CheckedFrom(a: Snapshot, b: Snapshot, cam: Vec3, s: Schema, now: real, w: seq<Sample>, attempts: nat)
  {
    if !a.attached || a.position.None? then b == a
    else
      var d := Decide(Compositions.PlanarSq((a.position.value.x, a.position.value.z), cam), s, w);
      && d.Some?
      && (d.value.should ==> MovedFrom(a, b, s, now, cam, attempts))
      && (!d.value.should ==> b == a)
  }

  /** Through the sweep, a live composition that is not too close moves
      only on a draw below repositionChance; so with no chance at all, the
      sweep moves exactly the compositions closer than minDist. */
  lemma ChanceDecidesMove(a: Snapshot, b: Snapshot, cam: Vec3, s: Schema, now: real, w: seq<Sample>, attempts: nat)
    requires CheckedFrom(a, b, cam, s, now, w, attempts) && a.attached && a.position.Some?
    ensures var close := SqrtBelow(Compositions.PlanarSq((a.position.value.x, a.position.value.z), cam), s.minDist);
      && (close ==> MovedFrom(a, b, s, now, cam, attempts))
      && (!close && b != a ==> exists k :: 0 <= k < 2 && k < |w| && w[k] < s.repositionChance)
      && (!close && s.repositionChance <= 0.0 ==> b == a)
  {
    var d := Decide(Compositions.PlanarSq((a.position.value.x, a.position.value.z), cam), s, w);
    if d.value.should && !SqrtBelow(Compositions.PlanarSq((a.position.value.x, a.position.value.z), cam), s.minDist) {
      var k :| 0 <= k < d.value.draws && w[k] < s.repositionChance;
    }
  }

  /** The snapshots of a list of compositions, in order. */
  ghost function Snaps(es: seq<Composition>): (r: seq<Snapshot>)
    reads set e | e in es
    ensures |r| == |es| && forall j :: 0 <= j < |es| ==> r[j] == Snap(es[j])
  {
    if es == [] then [] else [Snap(es[0])] + Snaps(es[1..])
  }

  /** Every field of e as it was. */
  twostate predicate Kept(e: Composition)
    reads e
  {
    Snap(e) == old(Snap(e))
  }

  twostate predicate Moved(e: Composition, s: Schema, now: real, centre: Vec3, attempts: nat)
    reads e
  {
    MovedFrom(old(Snap(e)), Snap(e), s, now, centre, attempts)
  }

  twostate predicate Checked(e: Composition, cam: Vec3, s: Schema, now: real, w: seq<Sample>, attempts: nat)
    reads e
  {
    CheckedFrom(old(Snap(e)), Snap(e), cam, s, now, w, attempts)
  }

  /** The scene-level component. */
  class Driver {
    const settings: Schema
    var compositions: seq<Composition>
    /** findCamera found the camera element. */
    var cameraFound: bool
    var lastRepositionTime: real

    ghost predicate Valid()
      reads this
    {
      Visibility.Distinct(compositions)
    }

    constructor (settings: Schema)
      ensures Valid() && this.settings == settings
      ensures compositions == [] && !cameraFound && lastRepositionTime == 0.0
    {
      this.settings := settings;
      compositions := [];
      cameraFound := false;
      lastRepositionTime := 0.0;
    }

    /** The sampling of repositionComposition, around the camera's position
        attribute `camPos` (or the default position). */
    method DrawPosition(camPos: Option<Vec3>, rand: seq<Sample>)
      returns (rest: seq<Sample>, ok: bool, p: Vec3, attempts: nat)
      requires Valid()
      ensures Suffix(rest, rand) && |rand| - |rest| == 2 * attempts
      ensures ok ==>
        && 1 <= attempts <= MaxAttempts && InSquareAt(Some(p), settings)
        && (p.x, p.z) == Compositions.PairAt(rand, attempts - 1, 2.0 * settings.spread)
        && (Compositions.InAnnulus((p.x, p.z), CameraCentre(cameraFound, camPos), settings.minRadius, settings.maxRadius)
            || attempts == MaxAttempts)
      ensures !ok ==> |rest| < 2
      ensures |rand| >= 2 * MaxAttempts ==> ok
    {
      var q;
      rest, ok, q, attempts := SampleBounded(2.0 * settings.spread, settings.minRadius, settings.maxRadius, CameraCentre(cameraFound, camPos), rand);
      p := Vec3(q.0, 0.0, q.1);
    }

    /** repositionComposition: the drawn position becomes the entity's. */
    method Reposition(entity: Composition, camPos: Option<Vec3>, rand: seq<Sample>)
      returns (rest: seq<Sample>, ok: bool, attempts: nat)
      requires Valid()
      modifies entity`position
      ensures Suffix(rest, rand) && |rand| - |rest| == 2 * attempts
      ensures ok ==>
        && 1 <= attempts <= MaxAttempts && InSquare(entity, settings)
        && (entity.position.value.x, entity.position.value.z) == Compositions.PairAt(rand, attempts - 1, 2.0 * settings.spread)
        && (Compositions.InAnnulus((entity.position.value.x, entity.position.value.z), CameraCentre(cameraFound, camPos), settings.minRadius, settings.maxRadius)
            || attempts == MaxAttempts)
      ensures !ok ==> entity.position == old(entity.position) && |rest| < 2
      ensures |rand| >= 2 * MaxAttempts ==> ok
    {
      var p;
      rest, ok, p, attempts := DrawPosition(camPos, rand);
      if ok {
        entity.position := Some(p);
      }
    }

    /** regenerateComposition: rotation.y := Math.random() * 360 with x and z
        kept, and userData.lastRepositioned := now when userData exists. */
    method Regenerate(entity: Composition, now: real, rand: seq<Sample>)
      returns (rest: seq<Sample>, ok: bool)
      modifies entity`rotation, entity`userData
      ensures Suffix(rest, rand)
      ensures ok <==> |rand| >= 1
      ensures ok ==>
        && rest == rand[1..]
        && entity.rotation == Vec3(old(entity.rotation.x), rand[0] as real * 360.0, old(entity.rotation.z))
        && 0.0 <= entity.rotation.y < 360.0
        && entity.userData == Refreshed(old(entity.userData), now)
      ensures !ok ==> rest == rand && entity.rotation == old(entity.rotation) && entity.userData == old(entity.userData)
    {
      rest, ok := rand, |rand| >= 1;
      if !ok { return; }
      entity.rotation := entity.rotation.(y := rand[0] as real * 360.0);
      if entity.userData.Some? {
        entity.userData := Some(entity.userData.value.(lastRepositioned := now));
      }
      rest := rand[1..];
    }

    /** createCompositions: `count` new entities, each placed by
        repositionComposition, stamped with `now` and its index, attached
        and recorded in order. Fewer are made only when the samples run out. */
    method CreateCompositions(camPos: Option<Vec3>, now: real, rand: seq<Sample>)
      returns (rest: seq<Sample>, made: seq<Composition>, ghost attempts: seq<nat>)
      requires Valid()
      modifies this`compositions
      ensures Valid()
      ensures Suffix(rest, rand)
      ensures compositions == old(compositions) + made
      ensures |made| <= settings.count && |attempts| == |made|
      ensures |made| < settings.count ==> |rest| < 2
      ensures forall j :: 0 <= j < |made| ==>
        Stamped(made[j], settings, now, j, CameraCentre(cameraFound, camPos), attempts[j])
    {
      rest, made, attempts := rand, [], [];
      while |made| < settings.count
        invariant Valid()
        invariant Suffix(rest, rand)
        invariant compositions == old(compositions) + made
        invariant |made| <= settings.count && |attempts| == |made|
        invariant forall j :: 0 <= j < |made| ==>
          Stamped(made[j], settings, now, j, CameraCentre(cameraFound, camPos), attempts[j])
        decreases settings.count - |made|
      {
        var rest', e, n := NewComposition(camPos, now, |made|, rest);
        SuffixTrans(rest', rest, rand);
        rest := rest';
        if e == null { return; }
        Visibility.DistinctPush(compositions, e);
        compositions := compositions + [e];
        made := made + [e];
        attempts := attempts + [n];
      }
    }

    /** One pass of createCompositions' loop up to the push: the entity with
        index `id`, placed, stamped and in the scene. `e` is null only when
        the samples ran out. */
    method NewComposition(camPos: Option<Vec3>, now: real, id: nat, rand: seq<Sample>)
      returns (rest: seq<Sample>, e: Composition?, ghost attempts: nat)
      requires Valid()
      ensures Suffix(rest, rand)
      ensures e == null ==> |rest| < 2
      ensures e != null ==>
        fresh(e) && Stamped(e, settings, now, id, CameraCentre(cameraFound, camPos), attempts)
    {
      var c := new Composition();
      e := null;
      var ok;
      rest, ok, attempts := Reposition(c, camPos, rand);
      if !ok { return; }
      c.userData := Some(UserData(now, id));
      c.attached := true;
      e := c;
    }

    /** The scene's `loaded` handler: createCompositions, then findCamera.
        As the camera is looked up only afterwards, a fresh driver places the
        initial compositions around the default camera position. */
    method OnLoaded(cameraElement: bool, camPos: Option<Vec3>, now: real, rand: seq<Sample>)
      returns (rest: seq<Sample>, made: seq<Composition>, ghost attempts: seq<nat>)
      requires Valid()
      modifies this`compositions, this`cameraFound
      ensures Valid() && cameraFound == cameraElement
      ensures Suffix(rest, rand)
      ensures compositions == old(compositions) + made
      ensures |made| <= settings.count && |attempts| == |made|
      ensures |made| < settings.count ==> |rest| < 2
      ensures forall j :: 0 <= j < |made| ==>
        Stamped(made[j], settings, now, j, CameraCentre(old(cameraFound), camPos), attempts[j])
      ensures !old(cameraFound) ==> forall j :: 0 <= j < |made| ==>
        Stamped(made[j], settings, now, j, DefaultCamera, attempts[j])
    {
      rest, made, attempts := CreateCompositions(camPos, now, rand);
      cameraFound := cameraElement;
    }

    /** One composition of checkRepositioning's forEach, with the camera at
        c. `ok` is false only when the samples ran out; the composition is
        then left as it was (the new position is written only once the yaw
        sample regenerateComposition needs is known to be there). */
    method CheckOne(e: Composition, c: Vec3, now: real, rand: seq<Sample>)
      returns (rest: seq<Sample>, ok: bool, moved: bool, ghost attempts: nat)
      requires Valid() && cameraFound
      modifies e`position, e`rotation, e`userData
      ensures Suffix(rest, rand)
      ensures ok ==> Checked(e, c, settings, now, rand, attempts)
      ensures !ok || !moved ==> Kept(e)
      ensures !ok ==> |rest| < 2
      ensures moved ==> ok && Moved(e, settings, now, c, attempts)
      ensures !old(e.attached) || old(e.position).None? ==> ok && !moved && rest == rand
      ensures old(e.attached) && old(e.position).Some? ==>
        var d := Decide(Compositions.PlanarSq((old(e.position).value.x, old(e.position).value.z), c), settings, rand);
        (d.None? ==> !ok)
        && (d.Some? && !d.value.should ==> ok && !moved && |rand| - |rest| == d.value.draws)
        && (d.Some? && d.value.should ==> (moved <==> ok))
    {
      rest, ok, moved, attempts := rand, true, false, 0;
      if !e.attached || e.position.None? { return; }
      var pos := e.position.value;
      var d := Decide(Compositions.PlanarSq((pos.x, pos.z), c), settings, rand);
      if d.None? {
        ok := false;
        return;
      }
      rest := rand[d.value.draws..];
      if !d.value.should { return; }
      var rest';
      rest', moved, attempts := Move(e, c, now, rest);
      SuffixTrans(rest', rest, rand);
      rest, ok := rest', moved;
    }

    /** repositionComposition then regenerateComposition, with the camera
        at c. The position is written only once the yaw sample is known to
        be there, so on `!moved` nothing has changed. */
    method Move(e: Composition, c: Vec3, now: real, rand: seq<Sample>)
      returns (rest: seq<Sample>, moved: bool, ghost attempts: nat)
      requires Valid() && cameraFound
      modifies e`position, e`rotation, e`userData
      ensures Suffix(rest, rand)
      ensures moved ==> Moved(e, settings, now, c, attempts)
      ensures !moved ==> Kept(e) && |rest| < 2
      ensures |rand| > 2 * MaxAttempts ==> moved
    {
      var placed, p, n;
      rest, placed, p, n := DrawPosition(Some(c), rand);
      attempts := n;
      if !placed || |rest| < 1 {
        moved := false;
        return;
      }
      e.position := Some(p);
      var rest';
      rest', moved := Regenerate(e, now, rest);
      SuffixTrans(rest', rest, rand);
      rest := rest';
    }

    /** checkRepositioning, on the scene's tick at `time`. `camPos` is the
        camera's position attribute. */
    method CheckRepositioning(time: real, camPos: Option<Vec3>, now: real, rand: seq<Sample>)
      returns (rest: seq<Sample>, checked: nat, ghost decidedFrom: seq<seq<Sample>>, ghost attempts: seq<nat>)
      requires Valid()
      modifies this`lastRepositionTime, compositions
      ensures Valid() && compositions == old(compositions)
      ensures Suffix(rest, rand)
      ensures !cameraFound || |compositions| == 0 || time - old(lastRepositionTime) < settings.repositionInterval ==>
        lastRepositionTime == old(lastRepositionTime) && checked == 0 && rest == rand
      ensures cameraFound && |compositions| > 0 && time - old(lastRepositionTime) >= settings.repositionInterval ==>
        lastRepositionTime == time
      ensures camPos.None? ==> checked == 0 && rest == rand
      ensures checked <= |compositions|
      ensures (cameraFound && |compositions| > 0 && time - old(lastRepositionTime) >= settings.repositionInterval
        && camPos.Some? && checked < |compositions|) ==> |rest| < 2
      ensures |decidedFrom| == checked && |attempts| == checked
      ensures forall j :: 0 <= j < checked ==> Suffix(decidedFrom[j], rand)
      ensures camPos.Some? ==> forall j :: 0 <= j < checked ==>
        Checked(compositions[j], camPos.value, settings, now, decidedFrom[j], attempts[j])
      ensures forall j :: checked <= j < |compositions| ==> Kept(compositions[j])
    {
      rest, checked, decidedFrom, attempts := rand, 0, [], [];
      if !cameraFound || |compositions| == 0 { return; }
      if time - lastRepositionTime < settings.repositionInterval { return; }
      lastRepositionTime := time;
      if camPos.None? { return; }
      rest, checked, decidedFrom, attempts := SweepAll(camPos.value, now, rand);
    }

    /** The forEach of checkRepositioning, with the camera at c: the first
        `checked` compositions are checked, the rest left as they were;
        fewer than all only when the samples ran out. */
    method SweepAll(c: Vec3, now: real, rand: seq<Sample>)
      returns (rest: seq<Sample>, checked: nat, ghost decidedFrom: seq<seq<Sample>>, ghost attempts: seq<nat>)
      requires Valid() && cameraFound
      modifies compositions
      ensures Suffix(rest, rand)
      ensures checked <= |compositions| && |decidedFrom| == checked && |attempts| == checked
      ensures forall j :: 0 <= j < checked ==> Suffix(decidedFrom[j], rand)
      ensures forall j :: 0 <= j < checked ==> Checked(compositions[j], c, settings, now, decidedFrom[j], attempts[j])
      ensures forall j :: checked <= j < |compositions| ==> Kept(compositions[j])
      ensures checked < |compositions| ==> |rest| < 2
    {
      rest, checked, decidedFrom, attempts := rand, 0, [], [];
      var es := compositions;
      ghost var before := Snaps(es);
      ghost var after: seq<Snapshot> := [];
      var ok := true;
      while checked < |es| && ok
        invariant checked <= |es| && |decidedFrom| == checked && |attempts| == checked && |before| == |es| && |after| == checked
        invariant forall j :: 0 <= j < |es| ==> before[j] == old(Snap(es[j]))
        invariant Suffix(rest, rand)
        invariant forall j :: 0 <= j < checked ==> Suffix(decidedFrom[j], rand)
        invariant forall j :: 0 <= j < checked ==> CheckedFrom(before[j], after[j], c, settings, now, decidedFrom[j], attempts[j])
        invariant forall j :: 0 <= j < checked ==> Snap(es[j]) == after[j]
        invariant forall j :: checked <= j < |es| ==> Snap(es[j]) == before[j]
        invariant !ok ==> |rest| < 2
        decreases |es| - checked, ok
      {
        var rest';
        ghost var n;
        ghost var w := rest;
        rest', ok, n := Step(es[checked], c, now, rest);
        SuffixTrans(rest', rest, rand);
        rest := rest';
        if ok {
          after := after + [Snap(es[checked])];
          decidedFrom := decidedFrom + [w];
          attempts := attempts + [n];
          checked := checked + 1;
        }
      }
    }

    /** One composition of the forEach, with the camera at c. */
    method Step(e: Composition, c: Vec3, now: real, rand: seq<Sample>)
      returns (rest: seq<Sample>, ok: bool, ghost attempts: nat)
      requires Valid() && cameraFound
      modifies e
      ensures Suffix(rest, rand)
      ensures ok ==> CheckedFrom(old(Snap(e)), Snap(e), c, settings, now, rand, attempts)
      ensures !ok ==> Snap(e) == old(Snap(e)) && |rest| < 2
    {
      var moved;
      rest, ok, moved, attempts := CheckOne(e, c, now, rand);
    }
  }
}
