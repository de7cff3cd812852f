/** The `fixed-camera` component of Components/fixed-camera.js: a camera
    pinned above the origin whose wheel handler drives a "breathing"
    terrain displacement between 0 and 20 and a yaw target, and whose tick
    eases the yaw toward that target. */
module Camera {
  import opened Geometry

  /** displacementThreshold: the top of the displacement cycle. */
  const Threshold: real := 20.0
  /** displacementSpeed: the change per wheel event. */
  const Speed: real := 0.3
  /** Yaw degrees per unit of deltaY. */
  const YawPerDelta: real := 0.1
  /** The lerp factor of tick. */
  const LerpFactor: real := 0.1
  /** The fixed pitch tick writes. */
  const Pitch: real := -10.0

  /** The displacement state machine: displacementValue,
      displacementDirection and isScrollingUp. */
  datatype Breath = Breath(value: real, direction: int, scrollingUp: bool)

  const InitialBreath: Breath := Breath(10.0, 1, true)

  predicate InRange(b: Breath)
  {
    0.0 <= b.value <= Threshold && (b.direction == 1 || b.direction == -1)
  }

  /** deltaY < 0 scrolls up; zero and positive deltas scroll down. */
  predicate ScrollsUp(deltaY: real) { deltaY < 0.0 }

  /** The direction the step uses: reversed when the scroll sign changed. */
  function StepDirection(b: Breath, deltaY: real): int
  {
    if ScrollsUp(deltaY) != b.scrollingUp then -b.direction else b.direction
  }

  /** The displacement part of onWheel: first the reversal on a change of
      scroll sign, then one step of 0.3 in the resulting direction (up when
      that direction is 1, down otherwise), pinned at 20 or 0 with the
      direction turned round when a limit is reached. */
  function WheelStep(b: Breath, deltaY: real): (r: Breath)
    ensures r.scrollingUp == ScrollsUp(deltaY)
    ensures StepDirection(b, deltaY) == 1 ==>
      if b.value + Speed >= Threshold then r.value == Threshold && r.direction == -1
      else r.value == b.value + Speed && r.direction == 1
    ensures StepDirection(b, deltaY) != 1 ==>
      if b.value - Speed <= 0.0 then r.value == 0.0 && r.direction == 1
      else r.value == b.value - Speed && r.direction == StepDirection(b, deltaY)
    ensures InRange(b) ==> InRange(r)
  {
    var d := StepDirection(b, deltaY);
    if d == 1 then
      if b.value + Speed >= Threshold then Breath(Threshold, -1, ScrollsUp(deltaY))
      else Breath(b.value + Speed, 1, ScrollsUp(deltaY))
    else if b.value - Speed <= 0.0 then Breath(0.0, 1, ScrollsUp(deltaY))
    else Breath(b.value - Speed, d, ScrollsUp(deltaY))
  }

  /** The state after a run of wheel events. */
  function Wheels(b: Breath, deltas: seq<real>): Breath
    decreases |deltas|
  {
    if deltas == [] then b else Wheels(WheelStep(b, deltas[0]), deltas[1..])
  }

  /** However the wheel is turned, displacementValue stays in [0, 20] and
      displacementDirection in {1, -1}. */
  lemma {:induction false} WheelsInRange(b: Breath, deltas: seq<real>)
    requires InRange(b)
    ensures InRange(Wheels(b, deltas))
    decreases |deltas|
  {
    if deltas != [] {
      WheelsInRange(WheelStep(b, deltas[0]), deltas[1..]);
    }
  }

  /** Scrolling on in one sign never reverses the direction by itself: a
      step in the same sign keeps it unless a limit was reached. */
  lemma SameSignKeepsDirection(b: Breath, deltaY: real)
    requires InRange(b) && ScrollsUp(deltaY) == b.scrollingUp
    requires Speed < b.value < Threshold - Speed
    ensures WheelStep(b, deltaY).direction == b.direction
    ensures WheelStep(b, deltaY).value == b.value + Speed * b.direction as real
  {
  }

  /** A change of scroll sign reverses the direction before the step, so
      away from the limits the value moves back the way it came. */
  lemma SignChangeReverses(b: Breath, deltaY: real)
    requires InRange(b) && ScrollsUp(deltaY) != b.scrollingUp
    requires Speed < b.value < Threshold - Speed
    ensures WheelStep(b, deltaY).direction == -b.direction
    ensures WheelStep(b, deltaY).value == b.value - Speed * b.direction as real
  {
  }

  /** Two wheel events of opposite sign away from the limits cancel out in
      value: the second reverses the direction again and steps back. */
  lemma {:induction false} BackAndForth(b: Breath, up: real, down: real)
    requires InRange(b) && ScrollsUp(up) && !ScrollsUp(down) && b.scrollingUp
    requires 2.0 * Speed < b.value < Threshold - 2.0 * Speed
    ensures Wheels(b, [up, down]).value == b.value
    ensures Wheels(b, [up, down]).direction == -b.direction
  {
    var m := WheelStep(b, up);
    SameSignKeepsDirection(b, up);
    SignChangeReverses(m, down);
    assert [up, down][1..] == [down];
    assert Wheels(b, [up, down]) == Wheels(m, [down]);
    assert [down][1..] == [];
    assert Wheels(m, [down]) == Wheels(WheelStep(m, down), []);
  }

  /** The scroll rotation after n ticks with a fixed target. */
  function Eased(s: real, target: real, n: nat): real
    decreases n
  {
    if n == 0 then s else Eased(s + (target - s) * LerpFactor, target, n - 1)
  }

  function Pow(x: real, n: nat): real
  {
    if n == 0 then 1.0 else x * Pow(x, n - 1)
  }

  /** After n ticks the gap to the target is 0.9^n of what it was. */
  lemma {:induction false} EasedGap(s: real, target: real, n: nat)
    ensures target - Eased(s, target, n) == Pow(1.0 - LerpFactor, n) * (target - s)
    decreases n
  {
    if n > 0 {
      var s' := s + (target - s) * LerpFactor;
      EasedGap(s', target, n - 1);
      assert target - s' == (1.0 - LerpFactor) * (target - s);
    }
  }

  /** The component's state. */
  class FixedCamera {
    const height: real
    /** Whether the terrain element was found at init. */
    const terrainFound: bool
    var scrollRotation: real
    var targetScrollRotation: real
    var breath: Breath
    /** The terrain's displacementScale as onWheel last wrote it. */
    var terrainDisplacement: Option<real>
    var position: Vec3
    var rotation: Vec3

    ghost predicate Valid()
      reads this
    {
      InRange(breath)
    }

    /** init: the position (0, height, 0), both rotations 0 and the
        displacement cycle at 10, going up, scrolling up. */
    constructor (height: real, terrainFound: bool)
      ensures Valid()
      ensures this.height == height && this.terrainFound == terrainFound
      ensures scrollRotation == 0.0 && targetScrollRotation == 0.0
      ensures breath == InitialBreath && terrainDisplacement == None
      ensures position == Vec3(0.0, height, 0.0) && rotation == Zero
    {
      this.height := height;
      this.terrainFound := terrainFound;
      scrollRotation := 0.0;
      targetScrollRotation := 0.0;
      breath := InitialBreath;
      terrainDisplacement := None;
      position := Vec3(0.0, height, 0.0);
      rotation := Zero;
    }

    /** The wheel handler. */
    method OnWheel(deltaY: real)
      modifies this`targetScrollRotation, this`breath, this`terrainDisplacement
      ensures targetScrollRotation == old(targetScrollRotation) + deltaY * YawPerDelta
      ensures breath == WheelStep(old(breath), deltaY)
      ensures terrainDisplacement == if terrainFound then Some(breath.value) else old(terrainDisplacement)
      ensures old(Valid()) ==> Valid()
    {
      targetScrollRotation := targetScrollRotation + deltaY * YawPerDelta;
      var value, direction, up := breath.value, breath.direction, breath.scrollingUp;
      if deltaY < 0.0 {
        if !up {
          direction := direction * -1;
          up := true;
        }
      } else {
        if up {
          direction := direction * -1;
          up := false;
        }
      }
      if direction == 1 {
        value := value + Speed;
        if value >= Threshold {
          value := Threshold;
          direction := -1;
        }
      } else {
        value := value - Speed;
        if value <= 0.0 {
          value := 0.0;
          direction := 1;
        }
      }
      breath := Breath(value, direction, up);
      if terrainFound {
        terrainDisplacement := Some(value);
      }
    }

    /** tick: back to (0, height, 0) if moved, and one easing step of the yaw;
        the pitch is fixed at -10 and the roll at 0. */
    method Tick()
      modifies this`position, this`scrollRotation, this`rotation
      ensures position == Vec3(0.0, height, 0.0)
      ensures scrollRotation == Eased(old(scrollRotation), targetScrollRotation, 1)
      ensures targetScrollRotation - scrollRotation == (1.0 - LerpFactor) * (targetScrollRotation - old(scrollRotation))
      ensures rotation == Vec3(Pitch, scrollRotation, 0.0)
    {
      if position.x != 0.0 || position.z != 0.0 || position.y != height {
        position := Vec3(0.0, height, 0.0);
      }
      scrollRotation := scrollRotation + (targetScrollRotation - scrollRotation) * LerpFactor;
      rotation := Vec3(Pitch, scrollRotation, 0.0);
    }
  }
}
