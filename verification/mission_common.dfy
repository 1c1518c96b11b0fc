/**
 * What the SC-27 mission scripts (`EM.py`, `kinkyori.py`, `enkyori.py`) share: the trace
 * of motor commands they issue, the long-range steering block, the ultrasonic retry loop
 * of the short-range phase, and the position refresh after each long-range move.
 *
 * Sensors, the camera and the clock are inputs; the motors are the trace of `Action`s.
 */
module MissionCommon {
  import opened Common

  /** A call into the motor driver: `move(dir, power, seconds)`, `stop()`, `check_stuck`. */
  datatype Action = Move(dir: char, power: real, duration: real) | Stop | CheckStuck(stacked: bool)

  /** Turning rate of the body with both motors at full power, in rad/s. */
  const Omega: real := Pi / 2.0

  /**
   * The turn toward the goal: left (`'a'`) for a positive relative angle, right (`'d'`)
   * otherwise, for the time the body needs to sweep that angle; then a stop.
   */
  function Turn(angle: real): (acts: seq<Action>)
    ensures |acts| == 2 && acts[0].Move? && acts[1] == Stop
    ensures acts[0].power == 1.0
    ensures acts[0].dir == (if angle > 0.0 then 'a' else 'd')
    ensures acts[0].duration >= 0.0 && acts[0].duration * Omega == Abs(angle)
  {
    if angle > 0.0 then [Move('a', 1.0, angle / Omega), Stop]
    else [Move('d', 1.0, Abs(angle) / Omega), Stop]
  }

  /**
   * What the gravity check after a long-range move finds: upright within 5 s, upside down
   * (and how many half-second pulses ran before it righted itself or 5 s passed), still
   * not upright after 5 s, or a gravity read that raised.
   */
  datatype Orientation = Upright | Inverted(pulses: nat) | Late | Unreadable

  /** The commands the gravity check issues. */
  function Righting(o: Orientation): (acts: seq<Action>)
    ensures o.Upright? ==> acts == [Stop]
    ensures o.Inverted? ==> |acts| == o.pulses && forall i :: 0 <= i < |acts| ==> acts[i] == Move('w', 1.0, 0.5)
    ensures o.Late? ==> acts == [Move('d', 1.0, 0.5), Move('a', 1.0, 0.5)]
    ensures o.Unreadable? ==> acts == []
  {
    match o
    case Upright => [Stop]
    case Inverted(n) => seq(n, _ => Move('w', 1.0, 0.5))
    case Late => [Move('d', 1.0, 0.5), Move('a', 1.0, 0.5)]
    case Unreadable => []
  }

  /** One long-range move: turn, advance 5 s, stuck check, stop, gravity check. */
  function Advance(angle: real, stacked: bool, o: Orientation): seq<Action>
  {
    Turn(angle) + [Move('w', 1.0, 5.0), CheckStuck(stacked), Stop] + Righting(o)
  }

  /** The stuck check always follows the 5 s advance, which follows the turn. */
  lemma AdvanceOrder(angle: real, stacked: bool, o: Orientation)
    ensures var acts := Advance(angle, stacked, o);
      |acts| >= 5 && acts[0].dir == (if angle > 0.0 then 'a' else 'd')
      && acts[2] == Move('w', 1.0, 5.0) && acts[3] == CheckStuck(stacked) && acts[4] == Stop
  {
  }

  /**
   * A long-range move whose 5 s advance raised: the driver's stall watch met a gyro sample
   * it could not read or that the plausibility filter dropped. The turn and the advance are
   * issued and nothing after them runs, so no stuck check and no stop follow.
   */
  function Interrupted(angle: real): seq<Action>
  {
    Turn(angle) + [Move('w', 1.0, 5.0)]
  }

  /**
   * An interrupted move is the full move cut just after the advance: it ends with the
   * wheels driving forward, and the stuck check never runs.
   */
  lemma InterruptedCutsAfterAdvance(angle: real, stacked: bool, o: Orientation)
    ensures var acts := Interrupted(angle);
      acts == Advance(angle, stacked, o)[..3] && acts[|acts| - 1] == Move('w', 1.0, 5.0)
      && forall i :: 0 <= i < |acts| ==> !acts[i].CheckStuck?
  {
  }

  /** `abs(relative_cone_x * 120) / 120`: one second per 120 degrees. */
  function Rotation(x: real): (r: real)
    ensures r == Abs(x)
  {
    Abs(x * 120.0) / 120.0
  }

  // ---------------------------------------------------------------------------------
  // The ultrasonic retry loop of the short-range phase
  // ---------------------------------------------------------------------------------

  /** The range finder's answers in order; a missing answer is a failed measurement. */
  function ReadingAt(rs: seq<Option<real>>, k: nat): Option<real>
  {
    if k < |rs| then rs[k] else None
  }

  /** The failure count at which the loop next gives up: 10, then 20. */
  function Target(t: nat): nat
  {
    if t < 10 then 10 else 20
  }

  /**
   * How the retry loop ends: a measured distance with the updated failure count, or
   * `NoneDistanceError` raised at the count that reached 10 or 20.
   */
  datatype Ranging = Measured(count: nat, distance: real) | Exhausted(count: nat)

  /**
   * The retry loop from failure count `t`, reading answers from index `k`: it gives up
   * exactly when every answer up to the next multiple of ten fails, and otherwise returns
   * the first answer, with the failures before it added to the count.
   */
  function Retry(t: nat, rs: seq<Option<real>>, k: nat): (r: Ranging)
    requires t < 20
    decreases 20 - t
    ensures r.Exhausted? ==>
      r.count == Target(t) && forall j :: k <= j < k + Target(t) - t ==> ReadingAt(rs, j).None?
    ensures r.Measured? ==>
      t <= r.count < Target(t) && ReadingAt(rs, k + r.count - t) == Some(r.distance)
      && forall j :: k <= j < k + r.count - t ==> ReadingAt(rs, j).None?
  {
    match ReadingAt(rs, k)
    case Some(d) => Measured(t, d)
    case None =>
      if t + 1 == 10 || t + 1 == 20 then Exhausted(t + 1)
      else Retry(t + 1, rs, k + 1)
  }

  /** The outcome of the order-4 block: the failure count, whether the phase ends, the moves. */
  datatype Outcome = Outcome(timeout: Option<nat>, done: bool, moves: seq<Action>)

  /**
   * The order-4 block. `defined` is false when the call to the range finder raises
   * `NameError`, which ends the phase; `t` is `None` while the failure counter is an
   * unbound local, whose increment raises `UnboundLocalError`, also a `NameError`.
   * A distance below 60 cm ends the phase after a nudge forward; a larger one resets the
   * count. Giving up at 10 nudges forward, giving up at 20 ends the phase.
   */
  function RangeOutcome(t: Option<nat>, defined: bool, rs: seq<Option<real>>, nudge: real): (o: Outcome)
    requires t.Some? ==> t.value < 20
    ensures o.moves == [] || o.moves == [Move('w', 0.8, nudge)]
    ensures !o.done ==> o.timeout.Some? && o.timeout.value < 20
    ensures o.timeout.Some? ==> o.timeout.value <= 20
    ensures t.Some? ==> o.timeout.Some?
  {
    if !defined then Outcome(t, true, [])
    else if t.None? && ReadingAt(rs, 0).None? then Outcome(None, true, [])
    else
      var r := if t.Some? then Retry(t.value, rs, 0) else Measured(0, ReadingAt(rs, 0).value);
      match r
      case Measured(_, d) =>
        if d < 60.0 then Outcome(Some(0), true, [Move('w', 0.8, nudge)]) else Outcome(Some(0), false, [])
      case Exhausted(c) =>
        if c == 10 then Outcome(Some(10), false, [Move('w', 0.8, nudge)]) else Outcome(Some(20), true, [])
  }

  /** The order-4 block as the loop it is. */
  method RangeBlock(t: Option<nat>, defined: bool, rs: seq<Option<real>>, nudge: real) returns (o: Outcome)
    requires t.Some? ==> t.value < 20
    ensures o == RangeOutcome(t, defined, rs, nudge)
  {
    if !defined {
      return Outcome(t, true, []);
    }
    var goal := ReadingAt(rs, 0);
    if goal.Some? {
      if goal.value < 60.0 {
        return Outcome(Some(0), true, [Move('w', 0.8, nudge)]);
      }
      return Outcome(Some(0), false, []);
    }
    if t.None? {
      return Outcome(None, true, []);
    }
    var count := t.value;
    var k := 0;
    while goal.None?
      invariant t.value <= count < 20 && goal == ReadingAt(rs, k)
      invariant Retry(count, rs, k) == Retry(t.value, rs, 0)
      decreases 20 - count
    {
      count := count + 1;
      if count == 10 || count == 20 {
        if count == 10 {
          return Outcome(Some(10), false, [Move('w', 0.8, nudge)]);
        }
        return Outcome(Some(20), true, []);
      }
      k := k + 1;
      goal := ReadingAt(rs, k);
    }
    if goal.value < 60.0 {
      return Outcome(Some(0), true, [Move('w', 0.8, nudge)]);
    }
    return Outcome(Some(0), false, []);
  }

  /** With every answer failing, the loop gives up at the next multiple of ten. */
  lemma {:induction false} BlindRetry(t: nat, rs: seq<Option<real>>, k: nat)
    requires t < 20
    requires forall j :: 0 <= j < |rs| ==> rs[j].None?
    decreases 20 - t
    ensures Retry(t, rs, k) == Exhausted(Target(t))
  {
    assert ReadingAt(rs, k).None?;
    if t + 1 != 10 && t + 1 != 20 {
      BlindRetry(t + 1, rs, k + 1);
    }
  }

  /** A first answer `d` after `k - k0` failures, within the window, is what the loop returns. */
  lemma {:induction false} AnswerFound(t: nat, rs: seq<Option<real>>, k0: nat, k: nat, d: real)
    requires t < 20 && k0 <= k && k - k0 < Target(t) - t
    requires forall j :: k0 <= j < k ==> ReadingAt(rs, j).None?
    requires ReadingAt(rs, k) == Some(d)
    decreases k - k0
    ensures Retry(t, rs, k0) == Measured(t + (k - k0), d)
  {
    if k0 < k {
      assert ReadingAt(rs, k0).None?;
      assert t + 1 < Target(t);
      AnswerFound(t + 1, rs, k0 + 1, k, d);
    }
  }

  /** A pass in which every measurement fails gives up at the next multiple of ten. */
  lemma BlindPass(t: nat, rs: seq<Option<real>>, nudge: real)
    requires t < 20
    requires forall j :: 0 <= j < |rs| ==> rs[j].None?
    ensures RangeOutcome(Some(t), true, rs, nudge) ==
      if t < 10 then Outcome(Some(10), false, [Move('w', 0.8, nudge)]) else Outcome(Some(20), true, [])
  {
    BlindRetry(t, rs, 0);
  }

  /** From any count, two passes without a single answer end the short-range phase. */
  lemma TwoBlindPassesEnd(t: nat, rs1: seq<Option<real>>, rs2: seq<Option<real>>, nudge: real)
    requires t < 20
    requires forall j :: 0 <= j < |rs1| ==> rs1[j].None?
    requires forall j :: 0 <= j < |rs2| ==> rs2[j].None?
    ensures var o := RangeOutcome(Some(t), true, rs1, nudge);
      o.done || RangeOutcome(o.timeout, true, rs2, nudge).done
  {
    BlindPass(t, rs1, nudge);
    if t < 10 {
      BlindPass(10, rs2, nudge);
    }
  }

  /**
   * A distance under 60 cm before the next multiple of ten failures ends the phase with
   * the count reset; one of 60 cm or more resets the count and keeps the phase.
   */
  lemma FirstAnswerDecides(t: nat, rs: seq<Option<real>>, nudge: real, k: nat, d: real)
    requires t < 20 && k < Target(t) - t
    requires forall j :: 0 <= j < k ==> ReadingAt(rs, j).None?
    requires ReadingAt(rs, k) == Some(d)
    ensures RangeOutcome(Some(t), true, rs, nudge) ==
      if d < 60.0 then Outcome(Some(0), true, [Move('w', 0.8, nudge)]) else Outcome(Some(0), false, [])
  {
    AnswerFound(t, rs, 0, k, d);
  }

  // ---------------------------------------------------------------------------------
  // The position refresh after a long-range move
  // ---------------------------------------------------------------------------------

  /** A GPS fix `(lat, lon)`; `None` when `idokeido` has none. */
  type Fix = (real, real)

  /**
   * The refresh loop as written: the retries store their fix in the START position, so
   * the loop's condition on the current position never changes. `retries` are the fixes the
   * retries obtain, in order; the loop is followed for as many rounds as there are.
   * Returns the current position and the start position when the loop is left, or the
   * state after the last round while it is still running.
   */
  method RefreshAsWritten(start: Option<Fix>, first: Option<Fix>, retries: seq<Option<Fix>>)
    returns (current: Option<Fix>, newStart: Option<Fix>, exited: bool)
    ensures current == first
    ensures exited <==> first.Some?
    ensures first.Some? ==> newStart == start
    ensures first.None? && |retries| > 0 ==> newStart == retries[|retries| - 1]
  {
    current := first;
    newStart := start;
    var i := 0;
    while current.None? && i < |retries|
      invariant 0 <= i <= |retries| && current == first
      invariant first.Some? ==> i == 0 && newStart == start
      invariant first.None? && i > 0 ==> newStart == retries[i - 1]
    {
      newStart := retries[i];
      i := i + 1;
    }
    exited := current.Some?;
  }

  /** The first fix the receiver gives: what the refresh is meant to wait for. */
  function FirstFix(first: Option<Fix>, retries: seq<Option<Fix>>): (r: Option<Fix>)
    ensures r.None? <==> first.None? && forall i :: 0 <= i < |retries| ==> retries[i].None?
    ensures first.Some? ==> r == first
    ensures first.None? && r.Some? ==> exists i :: 0 <= i < |retries| && retries[i] == r
    decreases |retries|
  {
    if first.Some? then first
    else if retries == [] then None
    else FirstFix(retries[0], retries[1..])
  }

  /** The corrected refresh: each retry reads into the current position. */
  method Refresh(first: Option<Fix>, retries: seq<Option<Fix>>) returns (current: Option<Fix>)
    ensures current == FirstFix(first, retries)
  {
    current := first;
    var i := 0;
    while current.None? && i < |retries|
      invariant 0 <= i <= |retries|
      invariant FirstFix(current, retries[i..]) == FirstFix(first, retries)
    {
      assert retries[i..] == [retries[i]] + retries[i + 1..];
      current := retries[i];
      i := i + 1;
    }
    if current.None? {
      assert retries[i..] == [];
    }
  }

  /**
   * The fix the refresh leaves with, `None` while its loop is still running after the reads
   * given: as written only the first read can end the loop; repaired, the first fix does.
   */
  function RefreshedFix(repaired: bool, first: Option<Fix>, retries: seq<Option<Fix>>): Option<Fix>
  {
    if repaired then FirstFix(first, retries) else first
  }

  /**
   * The refresh of the script as written or as repaired. As written it is left exactly when
   * the first read has a fix; repaired, exactly when some read has one.
   */
  method RefreshLoop(repaired: bool, first: Option<Fix>, retries: seq<Option<Fix>>) returns (fix: Option<Fix>)
    ensures fix == RefreshedFix(repaired, first, retries)
    ensures !repaired ==> (fix.Some? <==> first.Some?)
    ensures repaired ==> (fix.None? <==> first.None? && forall i :: 0 <= i < |retries| ==> retries[i].None?)
  {
    if repaired {
      fix := Refresh(first, retries);
    } else {
      var current, start, exited := RefreshAsWritten(None, first, retries);
      fix := if exited then current else None;
    }
  }
}
