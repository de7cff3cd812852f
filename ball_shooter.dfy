/** The `ball-shooter` component of Components/ball-shooter.js: balls shot
    from below the camera along a quadratic Bézier arc, a score that counts
    each composition once, and the countdown bar between two shots. */
module Shooter {
  import opened Geometry

  const MinShootingDelay: real := 2000.0
  const MaxShootingDelay: real := 4000.0
  /** The flight time of a ball, in ms. */
  const ArcDuration: real := 2000.0

  // ----- Decimal rendering, as JavaScript's template strings print integers.

  function Digit(d: nat): char
    requires d < 10
  {
    "0123456789"[d]
  }

  function NatToString(n: nat): (s: string)
    ensures |s| >= 1
    ensures s[|s| - 1] == Digit(n % 10)
    decreases n
  {
    if n < 10 then [Digit(n)] else NatToString(n / 10) + [Digit(n % 10)]
  }

  lemma DigitInjective(a: nat, b: nat)
    requires a < 10 && b < 10 && Digit(a) == Digit(b)
    ensures a == b
  {
  }

  lemma NatToStringShort(n: nat)
    ensures |NatToString(n)| == 1 <==> n < 10
  {
    if n >= 10 {
      assert |NatToString(n)| == |NatToString(n / 10)| + 1;
    }
  }

  /** Different numbers print differently. */
  lemma {:induction false} NatToStringInjective(a: nat, b: nat)
    requires NatToString(a) == NatToString(b)
    ensures a == b
    decreases a
  {
    var s := NatToString(a);
    DigitInjective(a % 10, b % 10);
    NatToStringShort(a);
    NatToStringShort(b);
    if a >= 10 {
      assert b >= 10;
      assert s == NatToString(a / 10) + [Digit(a % 10)];
      assert s == NatToString(b / 10) + [Digit(b % 10)];
      assert NatToString(a / 10) == s[..|s| - 1] == NatToString(b / 10);
      NatToStringInjective(a / 10, b / 10);
    }
  }

  function IntToString(i: int): string
  {
    if i < 0 then "-" + NatToString(-i) else NatToString(i)
  }

  /** Math.round: the nearest integer, halves rounded up. */
  function Round(x: real): (k: int)
    ensures x - 0.5 < k as real <= x + 0.5
  {
    (x + 0.5).Floor
  }

  // ----- Identifiers.

  const BallPrefix: string := "ball-"
  const CompositionPrefix: string := "composition-"

  /** The id of the n-th ball. */
  function BallId(n: nat): string
  {
    BallPrefix + NatToString(n)
  }

  /** Balls with different numbers have different ids. */
  lemma BallIdsDistinct(m: nat, n: nat)
    requires m != n
    ensures BallId(m) != BallId(n)
  {
    if BallId(m) == BallId(n) {
      assert NatToString(m) == BallId(m)[|BallPrefix|..];
      assert NatToString(n) == BallId(n)[|BallPrefix|..];
      NatToStringInjective(m, n);
    }
  }

  /** The id getCompositionId makes up for a composition at p at time now:
      its x and z in hundredths, rounded, and the timestamp. */
  function CompositionId(p: Vec3, now: nat): (id: string)
    ensures |id| > |CompositionPrefix| && id[..|CompositionPrefix|] == CompositionPrefix
  {
    CompositionPrefix + IntToString(Round(p.x * 100.0)) + "-" + IntToString(Round(p.z * 100.0)) + "-" + NatToString(now)
  }

  // ----- The flight of a ball.

  /** The quadratic Bézier point at t. */
  function Bezier(a: real, b: real, c: real, t: real): real
  {
    (1.0 - t) * (1.0 - t) * a + 2.0 * (1.0 - t) * t * b + t * t * c
  }

  function BezierPoint(start: Vec3, mid: Vec3, end: Vec3, t: real): Vec3
  {
    Vec3(Bezier(start.x, mid.x, end.x, t), Bezier(start.y, mid.y, end.y, t), Bezier(start.z, mid.z, end.z, t))
  }

  /** The arc starts at `start` and ends at `end`. */
  lemma BezierEnds(start: Vec3, mid: Vec3, end: Vec3)
    ensures BezierPoint(start, mid, end, 0.0) == start
    ensures BezierPoint(start, mid, end, 1.0) == end
  {
  }

  /** For t in [0, 1] each coordinate of the arc lies between the smallest
      and the largest of its three control values. */
  lemma BezierBetween(a: real, b: real, c: real, t: real)
    requires 0.0 <= t <= 1.0
    ensures Min(a, Min(b, c)) <= Bezier(a, b, c, t) <= Max(a, Max(b, c))
  {
    var u := 1.0 - t;
    var wa, wb, wc := u * u, 2.0 * u * t, t * t;
    NonNegativeProduct(u, u);
    NonNegativeProduct(2.0 * u, t);
    NonNegativeProduct(t, t);
    assert wa + wb + wc == (u + t) * (u + t) == 1.0;
    assert Bezier(a, b, c, t) == wa * a + wb * b + wc * c;
    Convex(wa, wb, wc, a, b, c, Min(a, Min(b, c)), Max(a, Max(b, c)));
  }

  /** A convex combination lies between bounds of its terms. */
  lemma Convex(wa: real, wb: real, wc: real, a: real, b: real, c: real, lo: real, hi: real)
    requires wa >= 0.0 && wb >= 0.0 && wc >= 0.0 && wa + wb + wc == 1.0
    requires lo <= a <= hi && lo <= b <= hi && lo <= c <= hi
    ensures lo <= wa * a + wb * b + wc * c <= hi
  {
    NonNegativeProduct(wa, a - lo);
    NonNegativeProduct(wb, b - lo);
    NonNegativeProduct(wc, c - lo);
    assert wa * (a - lo) == wa * a - wa * lo;
    assert wb * (b - lo) == wb * b - wb * lo;
    assert wc * (c - lo) == wc * c - wc * lo;
    assert wa * lo + wb * lo + wc * lo == (wa + wb + wc) * lo;
    NonNegativeProduct(wa, hi - a);
    NonNegativeProduct(wb, hi - b);
    NonNegativeProduct(wc, hi - c);
    assert wa * (hi - a) == wa * hi - wa * a;
    assert wb * (hi - b) == wb * hi - wb * b;
    assert wc * (hi - c) == wc * hi - wc * c;
    assert wa * hi + wb * hi + wc * hi == (wa + wb + wc) * hi;
  }

  /** Math.min(elapsed / duration, 1). */
  function Progress(elapsed: real, duration: real): (p: real)
    requires duration > 0.0
    ensures p <= 1.0
    ensures elapsed >= 0.0 ==> 0.0 <= p
    ensures p >= 1.0 <==> elapsed >= duration
    ensures elapsed < duration ==> p == elapsed / duration
  {
    Min(elapsed / duration, 1.0)
  }

  /** The countdown bar at `elapsed` ms of a `duration` ms wait: its width
      in percent and whether updateBar asks for another frame. */
  function Countdown(elapsed: real, duration: real): (r: (real, bool))
    requires duration > 0.0
    ensures elapsed >= 0.0 ==> 0.0 <= r.0 <= 100.0
    ensures r.1 <==> elapsed < duration
    ensures !r.1 ==> r.0 == 100.0
  {
    var p := Progress(elapsed, duration);
    (p * 100.0, p < 1.0)
  }

  /** randomDelay: minShootingDelay + r * (maxShootingDelay - minShootingDelay). */
  function ShotDelay(r: Sample): (d: real)
    ensures MinShootingDelay <= d < MaxShootingDelay
  {
    MinShootingDelay + r as real * (MaxShootingDelay - MinShootingDelay)
  }

  /** The launch point of shootBall: three units below the camera. */
  function StartPosition(cam: Vec3): (p: Vec3)
    ensures p.x == cam.x && p.y == cam.y - 3.0 && p.z == cam.z
  {
    Vec3(cam.x, cam.y - 3.0, cam.z)
  }

  /** The arithmetic of animateBall, given the camera's forward vector and
      the three draws in order (distance, deviation, arc height). */
  datatype Path = Path(distance: real, deviationDeg: real, deviated: Vec3, arcHeight: real, mid: Vec3, end: Vec3)

  function BallPath(start: Vec3, forward: Vec3, m: MathLib, rDistance: Sample, rDeviation: Sample, rArc: Sample): (p: Path)
    ensures 5.0 <= p.distance < 60.0
    ensures -10.0 <= p.deviationDeg < 10.0
    ensures 5.0 <= p.arcHeight < 10.0
    ensures p.deviated.y == forward.y
    ensures p.end.y == 0.0 && p.mid.y == start.y + p.arcHeight
    ensures p.mid.x == (start.x + p.end.x) / 2.0 && p.mid.z == (start.z + p.end.z) / 2.0
    ensures p.end.x - start.x == p.deviated.x * p.distance && p.end.z - start.z == p.deviated.z * p.distance
  {
    var distance := 5.0 + rDistance as real * 55.0;
    var deviation := (rDeviation as real - 0.5) * 20.0;
    var c, s := m.cos(DegToRad(deviation)), m.sin(DegToRad(deviation));
    var d := Vec3(forward.x * c + forward.z * s, forward.y, -forward.x * s + forward.z * c);
    var end := Vec3(start.x + d.x * distance, 0.0, start.z + d.z * distance);
    var arc := 5.0 + rArc as real * 5.0;
    var mid := Vec3(start.x + d.x * distance * 0.5, start.y + arc, start.z + d.z * distance * 0.5);
    Path(distance, deviation, d, arc, mid, end)
  }

  /** The horizontal deviation is a rotation about Y: with cos^2 + sin^2 = 1
      it keeps the planar length of the forward vector. */
  lemma DeviationKeepsPlanarLength(start: Vec3, forward: Vec3, m: MathLib, rDistance: Sample, rDeviation: Sample, rArc: Sample)
    requires var a := DegToRad((rDeviation as real - 0.5) * 20.0); m.cos(a) * m.cos(a) + m.sin(a) * m.sin(a) == 1.0
    ensures var d := BallPath(start, forward, m, rDistance, rDeviation, rArc).deviated;
      d.x * d.x + d.z * d.z == forward.x * forward.x + forward.z * forward.z
  {
    var a := DegToRad((rDeviation as real - 0.5) * 20.0);
    var c, s := m.cos(a), m.sin(a);
    var fx, fz := forward.x, forward.z;
    calc {
      (fx * c + fz * s) * (fx * c + fz * s) + (-fx * s + fz * c) * (-fx * s + fz * c);
      fx * fx * (c * c + s * s) + fz * fz * (c * c + s * s);
      fx * fx + fz * fz;
    }
  }

  /** An `a-sphere` ball: its id, its control points, where it is, whether
      it is in the scene and whether its animation still runs. */
  class Ball {
    const id: string
    const start: Vec3
    const mid: Vec3
    const end: Vec3
    var position: Vec3
    var rotation: Vec3
    var attached: bool
    var animationActive: bool

    constructor (id: string, start: Vec3, mid: Vec3, end: Vec3)
      ensures this.id == id && this.start == start && this.mid == mid && this.end == end
      ensures position == start && rotation == Zero && attached && animationActive
    {
      this.id := id;
      this.start := start;
      this.mid := mid;
      this.end := end;
      position := start;
      rotation := Zero;
      attached := true;
      animationActive := true;
    }

    /** One frame of animateArc, `elapsed` ms after launch: nothing once
        stopped or removed; the ball leaves the scene once the flight time is
        over; otherwise it moves to the arc point at the progress and spins. */
    method Animate(elapsed: real) returns (again: bool)
      modifies this`position, this`rotation, this`attached
      ensures again <==> old(animationActive) && old(attached) && elapsed < ArcDuration
      ensures !old(animationActive) || !old(attached) ==>
        position == old(position) && rotation == old(rotation) && attached == old(attached)
      ensures old(animationActive) && old(attached) && elapsed >= ArcDuration ==>
        !attached && position == old(position) && rotation == old(rotation)
      ensures again ==>
        var t := Progress(elapsed, ArcDuration);
        attached && t < 1.0
        && position == BezierPoint(start, mid, end, t)
        && rotation == Vec3(t * 360.0, t * 180.0, t * 90.0)
    {
      again := false;
      if !animationActive || !attached { return; }
      var t := Progress(elapsed, ArcDuration);
      if t >= 1.0 {
        attached := false;
        return;
      }
      position := BezierPoint(start, mid, end, t);
      rotation := Vec3(t * 360.0, t * 180.0, t * 90.0);
      again := true;
    }

    /** ball.stopAnimation. */
    method Stop()
      modifies this`animationActive
      ensures !animationActive
    {
      animationActive := false;
    }
  }

  /** An entity a ball can hit: its DOM id ("" when it has none) and its
      position attribute. */
  class Target {
    var id: string
    const position: Vec3

    constructor (id: string, position: Vec3)
      ensures this.id == id && this.position == position
    {
      this.id := id;
      this.position := position;
    }
  }

  /** The component's state. */
  class BallShooter {
    var ballCount: nat
    var hitCount: nat
    var hitCompositions: set<string>
    /** The text of the hit-number element. */
    var hitText: string

    ghost predicate Valid()
      reads this
    {
      hitCount == |hitCompositions| && hitText == NatToString(hitCount)
    }

    constructor ()
      ensures Valid() && ballCount == 0 && hitCompositions == {}
    {
      ballCount := 0;
      hitCount := 0;
      hitCompositions := {};
      hitText := "0";
    }

    /** getCompositionId: the composition's id, made up from its position
        and `now` only when it has none. */
    method GetCompositionId(composition: Target, now: nat) returns (id: string)
      modifies composition`id
      ensures id == composition.id && id != ""
      ensures old(composition.id) != "" ==> id == old(composition.id)
      ensures old(composition.id) == "" ==> id == CompositionId(composition.position, now)
    {
      if composition.id == "" {
        composition.id := CompositionId(composition.position, now);
      }
      id := composition.id;
    }

    /** handleBallCollision: stop the ball; score the hit target if its id is
        new; take the ball out. The target is what findCompositionFromElement
        returns: the composition entity above the collided element, or else
        that element itself; it is null only when the collision carries no
        element. */
    method HandleBallCollision(ball: Ball, composition: Target?, now: nat) returns (id: Option<string>)
      requires Valid()
      modifies this`hitCount, this`hitCompositions, this`hitText, ball`animationActive, ball`attached, composition
      ensures Valid()
      ensures !ball.animationActive && !ball.attached
      ensures composition == null ==> id.None? && hitCompositions == old(hitCompositions) && hitCount == old(hitCount)
      ensures composition != null ==> id == Some(composition.id)
      ensures composition != null && old(composition.id) != "" ==> composition.id == old(composition.id)
      ensures id.Some? ==> hitCompositions == old(hitCompositions) + {id.value}
      ensures id.Some? ==> hitCount == old(hitCount) + (if id.value in old(hitCompositions) then 0 else 1)
    {
      ball.Stop();
      id := None;
      if composition != null {
        var cid := GetCompositionId(composition, now);
        id := Some(cid);
        if cid !in hitCompositions {
          hitCompositions := hitCompositions + {cid};
          hitCount := hitCount + 1;
          hitText := NatToString(hitCount);
        }
      }
      ball.attached := false;
    }

    /** The id createBall gives the next ball: 'ball-' + ballCount++. */
    method NextBallId() returns (id: string)
      modifies this`ballCount
      ensures id == BallId(old(ballCount)) && ballCount == old(ballCount) + 1
    {
      id := BallId(ballCount);
      ballCount := ballCount + 1;
    }

    /** shootBall with createBall and animateBall: a new ball from below the
        camera along the arc of BallPath, first placed at its start. */
    method ShootBall(cam: Vec3, forward: Vec3, m: MathLib, rDistance: Sample, rDeviation: Sample, rArc: Sample)
      returns (ball: Ball)
      modifies this`ballCount
      ensures fresh(ball) && ball.attached && ball.animationActive
      ensures ball.id == BallId(old(ballCount)) && ballCount == old(ballCount) + 1
      ensures ball.start == StartPosition(cam) && ball.position == ball.start
      ensures var p := BallPath(StartPosition(cam), forward, m, rDistance, rDeviation, rArc);
        ball.mid == p.mid && ball.end == p.end
    {
      var start := StartPosition(cam);
      var id := NextBallId();
      var p := BallPath(start, forward, m, rDistance, rDeviation, rArc);
      ball := new Ball(id, start, p.mid, p.end);
    }
  }

  /** Balls shot one after another by the same shooter get distinct ids. */
  lemma {:induction false} SuccessiveBallsDistinct(counts: seq<nat>)
    requires forall i :: 0 <= i < |counts| - 1 ==> counts[i] < counts[i + 1]
    ensures forall i, j :: 0 <= i < j < |counts| ==> BallId(counts[i]) != BallId(counts[j])
    decreases |counts|
  {
    if |counts| > 1 {
      SuccessiveBallsDistinct(counts[1..]);
      Increasing(counts);
      forall j | 0 < j < |counts| {
        BallIdsDistinct(counts[0], counts[j]);
      }
      forall i, j | 0 <= i < j < |counts|
        ensures BallId(counts[i]) != BallId(counts[j])
      {
        if i > 0 {
          assert counts[1..][i - 1] == counts[i] && counts[1..][j - 1] == counts[j];
        }
      }
    }
  }

  lemma {:induction false} Increasing(counts: seq<nat>)
    requires forall i :: 0 <= i < |counts| - 1 ==> counts[i] < counts[i + 1]
    ensures forall j :: 0 < j < |counts| ==> counts[0] < counts[j]
    decreases |counts|
  {
    if |counts| > 2 {
      Increasing(counts[1..]);
      assert forall j :: 1 < j < |counts| ==> counts[1..][j - 1] == counts[j];
    }
  }
}
