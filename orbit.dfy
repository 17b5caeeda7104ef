/** The value-level part of the ring placer: placement modes, the orbit
    direction, the initial angle table, the per-frame motion of the angles
    and the re-initialisation trigger. Angles, spacing, speeds and frame
    times are `real`: single-precision rounding is not modelled. */
module Orbit {

  datatype PlacementMode = Evenly | Sequential

  /** Orbit direction; the enum's underlying values are Left = 1, Right = -1. */
  datatype Direction = Left | Right {
    function Sign(): (s: int)
      ensures s == 1 || s == -1
      ensures s == 1 <==> this == Left
    {
      if this == Left then 1 else -1
    }
  }

  /** Single-precision pi as the engine's math library defines it, the float
      nearest to pi, 13176795 / 2^22, written out exactly. Proofs use only
      that it is positive. */
  const Pi: real := 3.1415927410125732421875
  const TwoPi: real := 2.0 * Pi
  /** Degrees-to-radians factor, 2 pi / 360. */
  const Deg2Rad: real := Pi * 2.0 / 360.0
  /** Tolerance below which a change of radius or spacing is ignored. */
  const Tolerance: real := 0.001

  function Abs(x: real): (r: real)
    ensures r >= 0.0
    ensures r == x || r == -x
  {
    if x < 0.0 then -x else x
  }

  /** A change beyond the tolerance. */
  predicate Differs(now: real, last: real) {
    Abs(now - last) > Tolerance
  }

  // ---------------------------------------------------------------------
  // The angle table built by a (re-)initialisation
  // ---------------------------------------------------------------------

  /** The angular step of Evenly mode, 2 pi / n. The source divides by a zero
      count too (yielding infinity) but never reads the step then; here an
      empty ring gets step 0. */
  function EvenStep(n: nat): (r: real)
    ensures n > 0 ==> r > 0.0 && n as real * r == TwoPi
  {
    if n == 0 then 0.0 else TwoPi / n as real
  }

  /** The initial angle of slot i in a ring of n items. */
  function InitialAngle(mode: PlacementMode, i: int, n: nat, spacing: real): real {
    match mode
    case Evenly => i as real * EvenStep(n)
    case Sequential => i as real * spacing
  }

  /** The whole angle table of a fresh batch of n items. */
  function InitialAngles(mode: PlacementMode, n: nat, spacing: real): (r: seq<real>)
    ensures |r| == n
  {
    seq(n, i => InitialAngle(mode, i, n, spacing))
  }

  /** With no items the table is empty. */
  lemma EmptyRing(mode: PlacementMode, spacing: real)
    ensures InitialAngles(mode, 0, spacing) == []
  {
  }

  /** In Evenly mode consecutive items are exactly 2 pi / n apart, so the
      angles strictly increase. */
  lemma EvenlyConsecutive(n: nat, spacing: real, i: nat)
    requires i + 1 < n
    ensures InitialAngles(Evenly, n, spacing)[i + 1] - InitialAngles(Evenly, n, spacing)[i] == TwoPi / n as real
    ensures InitialAngles(Evenly, n, spacing)[i] < InitialAngles(Evenly, n, spacing)[i + 1]
  {
  }

  /** In Evenly mode the angle step does not depend on the spacing setting:
      the spacing is read only in Sequential mode. */
  lemma EvenlyIgnoresSpacing(n: nat, s1: real, s2: real)
    ensures InitialAngles(Evenly, n, s1) == InitialAngles(Evenly, n, s2)
  {
  }

  /** In Evenly mode every angle lies in [0, 2 pi): the items cover the circle
      once. */
  lemma EvenlyWithinCircle(n: nat, spacing: real, i: nat)
    requires i < n
    ensures 0.0 <= InitialAngles(Evenly, n, spacing)[i] < TwoPi
  {
  }

  /** n steps of Evenly mode take the ring once round the circle, so the slot
      after the last would coincide with slot 0. */
  lemma EvenlyClosesCircle(n: nat)
    requires n > 0
    ensures n as real * EvenStep(n) == TwoPi
  {
  }

  /** In Sequential mode the spacing is an angle increment per index: slot i
      has the same angle whatever the size of the ring. */
  lemma SequentialIgnoresCount(n: nat, m: nat, spacing: real, i: nat)
    requires i < n && i < m
    ensures InitialAngles(Sequential, n, spacing)[i] == InitialAngles(Sequential, m, spacing)[i]
    ensures InitialAngles(Sequential, n, spacing)[i] == i as real * spacing
  {
  }

  // ---------------------------------------------------------------------
  // Per-frame motion
  // ---------------------------------------------------------------------

  /** The angle added to every item in one frame: the orbit speed in degrees
      per second, converted to radians, signed by the direction, times the
      frame time. */
  function Increment(orbitSpeed: real, direction: Direction, deltaTime: real): (r: real)
    ensures direction == Left ==> r == orbitSpeed * Deg2Rad * deltaTime
    ensures direction == Right ==> r == -(orbitSpeed * Deg2Rad * deltaTime)
  {
    orbitSpeed * Deg2Rad * direction.Sign() as real * deltaTime
  }

  /** The table after every angle has moved by delta. */
  function Advanced(angles: seq<real>, delta: real): (r: seq<real>)
    ensures |r| == |angles|
  {
    seq(|angles|, i requires 0 <= i < |angles| => angles[i] + delta)
  }

  /** The table after k frames, each moving every angle by delta. */
  function Ticks(angles: seq<real>, delta: real, k: nat): (r: seq<real>)
    decreases k
  {
    if k == 0 then angles else Advanced(Ticks(angles, delta, k - 1), delta)
  }

  /** k frames of the same increment move every angle by k times the
      increment. */
  lemma {:induction false} TicksAccumulate(angles: seq<real>, delta: real, k: nat)
    ensures Ticks(angles, delta, k) == Advanced(angles, k as real * delta)
    decreases k
  {
    if k == 0 {
      assert Advanced(angles, 0.0) == angles;
    } else {
      var j: nat := k - 1;
      TicksAccumulate(angles, delta, j);
      var prev := Ticks(angles, delta, j);
      assert Ticks(angles, delta, k) == Advanced(prev, delta);
      forall i | 0 <= i < |angles|
        ensures Advanced(prev, delta)[i] == Advanced(angles, k as real * delta)[i]
      {
        assert prev[i] == angles[i] + j as real * delta;
        assert j as real * delta + delta == k as real * delta;
      }
    }
  }

  /** Motion keeps the shape of the ring: the angular distance between any two
      items is unchanged. */
  lemma AdvancedKeepsSpacing(angles: seq<real>, delta: real, i: nat, j: nat)
    requires i < |angles| && j < |angles|
    ensures Advanced(angles, delta)[j] - Advanced(angles, delta)[i] == angles[j] - angles[i]
  {
  }

  /** An increment followed by its negation restores the table. */
  lemma AdvancedInverse(angles: seq<real>, delta: real)
    ensures Advanced(Advanced(angles, delta), -delta) == angles
  {
  }

  /** The two directions move the ring by opposite amounts. */
  lemma DirectionsOpposite(orbitSpeed: real, deltaTime: real)
    ensures Increment(orbitSpeed, Right, deltaTime) == -Increment(orbitSpeed, Left, deltaTime)
  {
  }

  /** With an empty ring a frame changes nothing. */
  lemma EmptyTick(delta: real)
    ensures Advanced([], delta) == []
  {
  }

  // ---------------------------------------------------------------------
  // The re-initialisation trigger
  // ---------------------------------------------------------------------

  /** The configuration compared frame by frame against the one recorded at
      the last initialisation. */
  datatype Settings = Settings(count: int, radius: real, mode: PlacementMode, spacing: real)

  /** The trigger as the source writes it: the radius clause compares the
      current radius field with the radius getter, which returns that same
      field, so it is `Differs(now.radius, now.radius)`. */
  predicate ChangedAsWritten(last: Settings, now: Settings)
    ensures ChangedAsWritten(last, now) <==>
      (now.count != last.count || now.mode != last.mode || Differs(now.spacing, last.spacing))
  {
    now.count != last.count
    || Differs(now.radius, now.radius)
    || now.mode != last.mode
    || Differs(now.spacing, last.spacing)
  }

  /** The trigger as intended: the radius is compared with the radius
      recorded at the last initialisation. */
  predicate Changed(last: Settings, now: Settings) {
    now.count != last.count
    || Differs(now.radius, last.radius)
    || now.mode != last.mode
    || Differs(now.spacing, last.spacing)
  }

  /** The as-written trigger never looks at the radius: it fires exactly when
      the intended one fires for an unchanged radius. */
  lemma AsWrittenIgnoresRadius(last: Settings, now: Settings)
    ensures ChangedAsWritten(last, now) <==> Changed(last, now.(radius := last.radius))
    ensures ChangedAsWritten(last, now) <==>
      (now.count != last.count || now.mode != last.mode || Differs(now.spacing, last.spacing))
  {
  }

  /** A concrete radius edit, 5 to 6 with everything else as configured by
      default, which the as-written trigger misses and the intended one
      catches. */
  lemma AsWrittenMissesRadiusChange()
    ensures !ChangedAsWritten(Settings(8, 5.0, Evenly, 0.9), Settings(8, 6.0, Evenly, 0.9))
    ensures Changed(Settings(8, 5.0, Evenly, 0.9), Settings(8, 6.0, Evenly, 0.9))
  {
  }

  /** With the intended trigger a radius edit alone re-initialises exactly
      when it exceeds the tolerance. */
  lemma RadiusChangeTriggers(last: Settings, now: Settings)
    requires now == last.(radius := now.radius)
    ensures Changed(last, now) <==> Abs(now.radius - last.radius) > Tolerance
  {
  }

  /** A spacing edit alone re-initialises exactly when it exceeds the
      tolerance, under both triggers. */
  lemma SpacingChangeTriggers(last: Settings, now: Settings)
    requires now == last.(spacing := now.spacing)
    ensures Changed(last, now) <==> Abs(now.spacing - last.spacing) > Tolerance
    ensures ChangedAsWritten(last, now) <==> Abs(now.spacing - last.spacing) > Tolerance
  {
  }

  /** Neither trigger fires when nothing has changed since it was recorded. */
  lemma UnchangedNeverTriggers(s: Settings)
    ensures !Changed(s, s) && !ChangedAsWritten(s, s)
  {
  }

  /** Whatever fires the as-written trigger fires the intended one too. */
  lemma AsWrittenImpliesIntended(last: Settings, now: Settings)
    ensures ChangedAsWritten(last, now) ==> Changed(last, now)
  {
  }
}
