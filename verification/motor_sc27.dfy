/**
 * The SC-27 motor driver (`1_definition/SC-27/motordrive.py`): validation of power and
 * duration, the ramp up with `int(power / 0.1) + 1` steps, the five-sample gyro stall
 * window that keeps monitoring after a stall, the upside-down correction, `stop()` and
 * the scripted stuck recovery.
 *
 * As in the 2_phase driver the two motors are the `right` and `left` fields of a class and
 * every write is appended to `trace`. The wall-clock monitoring loop runs over supplied
 * windows; each window carries its five gyro samples, the gravity reading taken after it,
 * and the outcome of a correction if one starts (how many forward pulses ran before the
 * rover was upright again or the 5 s ran out).
 */
module MotorDriveSc27 {
  import opened Common
  import AnomalyFilter
  import MotorDrive

  type Vec3 = MotorDrive.Vec3

  const MaxDuration: real := 30.0
  /** Gravity z below this reading means the rover lies upside down. */
  const UprightGravity: real := 0.5
  const Zero: WheelPair := WheelPair(0.0, 0.0)
  /** The power and the durations of the recovery moves and of a correction pulse. */
  const FullPower: real := 1.0
  const BackOffTime: real := 3.0
  const TurnTime: real := 1.0
  const ForwardTime: real := 2.0

  // ---- ramps ----

  /** `int(power / delta_power) + 1`. */
  function RampSteps(p: real): (n: nat)
    requires p >= 0.0
    ensures n >= 1 && n as real * MotorDrive.DeltaPower > p
  {
    (p / MotorDrive.DeltaPower).Floor + 1
  }

  /** The first `i` pairs the acceleration loop writes: direction `d` at `min(k * 0.1, power)`. */
  function RampTrace(d: char, p: real, i: nat): (t: seq<WheelPair>)
    requires MotorDrive.IsDirection(d) && p >= 0.0
    ensures |t| == i
  {
    seq(i, k => MotorDrive.WheelValues(d, MinReal(k as real * MotorDrive.DeltaPower, p)).value)
  }

  lemma RampTraceNext(d: char, p: real, i: nat)
    requires MotorDrive.IsDirection(d) && p >= 0.0
    ensures RampTrace(d, p, i + 1)
         == RampTrace(d, p, i) + [MotorDrive.WheelValues(d, MinReal(i as real * MotorDrive.DeltaPower, p)).value]
  {
  }

  /**
   * The ramp powers start at 0, never decrease, never exceed `power`, and, because the
   * step count is one more than `power / 0.1` rounded down, the last one is `power` itself.
   */
  lemma RampReachesPower(p: real)
    requires p >= 0.0
    ensures var n := RampSteps(p);
      var r := seq(n + 1, i => MinReal(i as real * MotorDrive.DeltaPower, p));
      r[0] == 0.0 && r[n] == p
      && (forall i, j :: 0 <= i <= j <= n ==> r[i] <= r[j])
      && (forall i :: 0 <= i <= n ==> 0.0 <= r[i] <= p)
  {
  }

  /** The hold time after the ramp: `max(0, duration - 0.025 * (steps + 1))`. */
  function HoldTime(p: real, duration: real): real
    requires p >= 0.0
  {
    MaxReal(0.0, duration - MotorDrive.RampStepTime * (RampSteps(p) + 1) as real)
  }

  /** The ramp and, when there is time left, the hold at full `power`. */
  function DriveTrace(d: char, p: real, duration: real): (t: seq<WheelPair>)
    requires MotorDrive.IsDirection(d) && p >= 0.0
    ensures |t| >= 2
  {
    RampTrace(d, p, RampSteps(p) + 1)
      + (if HoldTime(p, duration) > 0.0 then [MotorDrive.WheelValues(d, p).value] else [])
  }

  /** Whether held or not, the last pair written before monitoring is direction `d` at `power`. */
  lemma DriveEndsAtPower(d: char, p: real, duration: real)
    requires MotorDrive.IsDirection(d) && p >= 0.0
    ensures var t := DriveTrace(d, p, duration); t[|t| - 1] == MotorDrive.WheelValues(d, p).value
  {
    var n := RampSteps(p);
    assert RampTrace(d, p, n + 1)[n] == MotorDrive.WheelValues(d, MinReal(n as real * MotorDrive.DeltaPower, p)).value;
  }

  // ---- stop ----

  /**
   * `int(max(|r|, |l|) / delta_power) + 1`; it is never 0, so the source's branch for zero
   * steps cannot be taken.
   */
  function StopSteps(w: WheelPair): (n: nat)
    ensures n >= 1
  {
    (MaxReal(Abs(w.right), Abs(w.left)) / MotorDrive.DeltaPower).Floor + 1
  }

  /**
   * What `stop()` writes from wheel values `w`: `w * (1 - i/steps)` for i = 0 .. steps with
   * the last forced to (0, 0), then (0, 0) once more. Unlike the 2_phase driver it writes
   * even when both wheels already stand still.
   */
  function StopTrace(w: WheelPair): (t: seq<WheelPair>)
    ensures |t| == StopSteps(w) + 2
  {
    var n := StopSteps(w);
    seq(n + 1, i => if i == n then Zero else MotorDrive.Scale(w, 1.0 - i as real / n as real)) + [Zero]
  }

  /** The fraction of the starting values written at step i: `1 - i/steps`, and 0 from step `steps` on. */
  function StopFactor(n: nat, i: nat): real
    requires n >= 1
  {
    if i >= n then 0.0 else 1.0 - i as real / n as real
  }

  lemma StopFactorFalls(n: nat, i: nat, j: nat)
    requires n >= 1 && i <= j
    ensures 0.0 <= StopFactor(n, j) <= StopFactor(n, i) <= 1.0
  {
    if j < n {
      MotorDrive.StopFactor(n, i, j);
    } else if i < n {
      MotorDrive.StopFactor(n, i, i);
    }
  }

  /** Every pair `stop()` writes is the starting pair scaled by `StopFactor`. */
  lemma StopTraceAt(w: WheelPair, i: nat)
    requires i < |StopTrace(w)|
    ensures StopTrace(w)[i] == MotorDrive.Scale(w, StopFactor(StopSteps(w), i))
  {
    var n := StopSteps(w);
    if i >= n {
      assert MotorDrive.Scale(w, 0.0) == Zero;
    }
  }

  /**
   * The stop ramp starts at the current values, keeps each wheel's sign, never raises a
   * wheel's magnitude, and its last two writes are (0, 0).
   */
  lemma StopTraceShape(w: WheelPair)
    ensures var t := StopTrace(w);
      |t| >= 3 && t[0] == w && t[|t| - 2] == Zero && t[|t| - 1] == Zero
      && (forall i :: 0 <= i < |t| ==> MotorDrive.SameSign(t[i], w))
      && (forall i, j :: 0 <= i <= j < |t| ==> Abs(t[j].right) <= Abs(t[i].right) && Abs(t[j].left) <= Abs(t[i].left))
  {
    var t := StopTrace(w);
    var n := StopSteps(w);
    assert t[0] == MotorDrive.Scale(w, 1.0);
    forall i | 0 <= i < |t|
      ensures MotorDrive.SameSign(t[i], w)
    {
      StopTraceAt(w, i);
      StopFactorFalls(n, i, i);
      MotorDrive.ScaledKeepsSign(t[i], w, StopFactor(n, i));
    }
    forall i, j | 0 <= i <= j < |t|
      ensures Abs(t[j].right) <= Abs(t[i].right) && Abs(t[j].left) <= Abs(t[i].left)
    {
      StopTraceAt(w, i);
      StopTraceAt(w, j);
      StopFactorFalls(n, i, j);
      MotorDrive.ScaledIsSmaller(w, StopFactor(n, j), StopFactor(n, i));
    }
  }

  /** A `stop()` at rest writes three (0, 0) pairs. */
  lemma StopAtRest()
    ensures StopTrace(Zero) == [Zero, Zero, Zero]
  {
    assert StopSteps(Zero) == 1;
  }

  // ---- the gyro window ----

  /** Only 'a' and 'd' count as turns here; 'q' and 'e' are judged on the whole vector. */
  predicate Turning(d: char) { d == 'a' || d == 'd' }

  predicate Active(d: char, g: Vec3)
  {
    if Turning(d) then Abs(g.z) > MotorDrive.StallThreshold
    else g.x * g.x + g.y * g.y + g.z * g.z > MotorDrive.StallThreshold * MotorDrive.StallThreshold
  }

  /**
   * A gyro sample that is `None` or that `abnormal_check("bno", "gyro")` turns into `None`
   * (the gyro row of the table, see `AnomalyFilter.BnoRows`); indexing it raises.
   */
  predicate Unreadable(s: Option<Vec3>)
  {
    s.None? || !MotorDrive.Plausible(AnomalyFilter.BnoGyro, s.value)
  }

  datatype WindowResult = Stalled | Moving | Fault

  /** The five-sample loop from sample `k` on: the first active sample ends it, an unreadable one raises. */
  function ScanFrom(d: char, gyro: seq<Option<Vec3>>, k: nat): WindowResult
    decreases MotorDrive.SamplesPerWindow - k
  {
    if k >= MotorDrive.SamplesPerWindow then Stalled
    else
      var s := MotorDrive.SampleAt(gyro, k);
      if Unreadable(s) then Fault
      else if Active(d, s.value) then Moving
      else ScanFrom(d, gyro, k + 1)
  }

  predicate Quiet(d: char, s: Option<Vec3>) { !Unreadable(s) && !Active(d, s.value) }

  /**
   * A window is stalled exactly when all its remaining samples are readable and quiet, and
   * it raises exactly when an unreadable sample comes before any active one.
   */
  lemma {:induction false} ScanFromMeaning(d: char, gyro: seq<Option<Vec3>>, k: nat)
    requires k <= MotorDrive.SamplesPerWindow
    ensures ScanFrom(d, gyro, k) == Stalled <==>
      forall j :: k <= j < MotorDrive.SamplesPerWindow ==> Quiet(d, MotorDrive.SampleAt(gyro, j))
    ensures ScanFrom(d, gyro, k) == Fault <==>
      exists j :: k <= j < MotorDrive.SamplesPerWindow && Unreadable(MotorDrive.SampleAt(gyro, j))
        && forall i :: k <= i < j ==> Quiet(d, MotorDrive.SampleAt(gyro, i))
    decreases MotorDrive.SamplesPerWindow - k
  {
    if k < MotorDrive.SamplesPerWindow {
      ScanFromMeaning(d, gyro, k + 1);
      var s := MotorDrive.SampleAt(gyro, k);
      if !Unreadable(s) && !Active(d, s.value) {
        if ScanFrom(d, gyro, k) == Fault {
          var j :| k + 1 <= j < MotorDrive.SamplesPerWindow && Unreadable(MotorDrive.SampleAt(gyro, j))
            && forall i :: k + 1 <= i < j ==> Quiet(d, MotorDrive.SampleAt(gyro, i));
          assert forall i :: k <= i < j ==> Quiet(d, MotorDrive.SampleAt(gyro, i));
        }
      }
    }
  }

  // ---- the orientation check after each window ----

  /**
   * One monitoring window: the gyro samples, the gravity vector read afterwards (`None`
   * when the sensor gives nothing), and, should a correction start, the number of forward
   * pulses it runs and whether the rover was upright before 5 s had passed.
   */
  datatype Window = Window(gyro: seq<Option<Vec3>>, gravity: Option<Vec3>, pulses: nat, recovered: bool)

  /**
   * A correction starts when the gravity vector is present, passes the filter and has
   * z below 0.5. A rejected vector raises inside the `try` and is ignored.
   */
  predicate Tipped(w: Window)
  {
    w.gravity.Some?
    && MotorDrive.Plausible(AnomalyFilter.BnoGravity, w.gravity.value)
    && w.gravity.value.z < UprightGravity
  }

  /** One forward pulse `move("w", 1.0, 2.0)`: ramp, hold, stop. Its own monitoring is not modelled. */
  function PulseTrace(): seq<WheelPair>
  {
    var t := DriveTrace('w', FullPower, ForwardTime);
    t + StopTrace(t[|t| - 1])
  }

  function Pulses(n: nat): seq<WheelPair>
  {
    if n == 0 then [] else Pulses(n - 1) + PulseTrace()
  }

  /** What the orientation check after window `w` writes when the wheels stand at `wheels`. */
  function CorrectionWrites(w: Window, wheels: WheelPair): seq<WheelPair>
  {
    if !Tipped(w) then []
    else Pulses(w.pulses) + (if w.recovered then StopTrace(if w.pulses > 0 then Zero else wheels) else [])
  }

  /** The wheel values after the orientation check. */
  function AfterCorrection(w: Window, wheels: WheelPair): WheelPair
  {
    if Tipped(w) && (w.pulses > 0 || w.recovered) then Zero else wheels
  }

  /** A pulse ends with both wheels at 0, so a correction that ran a pulse leaves them at 0. */
  lemma PulseShape()
    ensures PulseTrace() == DriveTrace('w', FullPower, ForwardTime) + StopTrace(MotorDrive.WheelValues('w', FullPower).value)
    ensures var t := PulseTrace(); t[|t| - 1] == Zero
  {
    DriveEndsAtPower('w', FullPower, ForwardTime);
    var t := DriveTrace('w', FullPower, ForwardTime);
    StopTraceShape(t[|t| - 1]);
  }

  // ---- the monitoring loop ----

  /** Writes from some point on, the stall flag, whether an exception escaped, and the final wheel values. */
  datatype Run = Run(writes: seq<WheelPair>, stacked: int, raised: bool, last: WheelPair)

  function Prepend(p: seq<WheelPair>, r: Run): Run { r.(writes := p + r.writes) }

  lemma PrependTwice(a: seq<WheelPair>, b: seq<WheelPair>, r: Run)
    ensures Prepend(a, Prepend(b, r)) == Prepend(a + b, r)
  {
    AppendAssoc(a, b, r.writes);
  }

  /**
   * The monitoring loop over `windows`: a stalled window sets the flag to 1 and monitoring
   * goes on; every window is followed by the orientation check; an unreadable sample raises
   * out of `move`, leaving the wheels as they are.
   */
  function Watch(d: char, windows: seq<Window>, wheels: WheelPair, stacked: int): Run
    decreases |windows|
  {
    if windows == [] then Run([], stacked, false, wheels)
    else
      var r := ScanFrom(d, windows[0].gyro, 0);
      if r == Fault then Run([], stacked, true, wheels)
      else
        var st := if r == Stalled then 1 else stacked;
        Prepend(CorrectionWrites(windows[0], wheels),
                Watch(d, windows[1..], AfterCorrection(windows[0], wheels), st))
  }

  /** Monitoring from window `i` on: that window's scan, then the windows after it. */
  lemma WatchFrom(d: char, windows: seq<Window>, i: nat, wheels: WheelPair, stacked: int)
    requires i < |windows|
    ensures var r := ScanFrom(d, windows[i].gyro, 0);
      Watch(d, windows[i..], wheels, stacked)
      == if r == Fault then Run([], stacked, true, wheels)
         else Prepend(CorrectionWrites(windows[i], wheels),
                      Watch(d, windows[i + 1..], AfterCorrection(windows[i], wheels), if r == Stalled then 1 else stacked))
  {
    assert windows[i..][0] == windows[i];
    assert windows[i..][1..] == windows[i + 1..];
  }

  /**
   * Monitoring raises exactly when some window raises; otherwise the flag ends at 1 exactly
   * when it started at 1 or some window stalled.
   */
  lemma {:induction false} WatchOutcome(d: char, windows: seq<Window>, wheels: WheelPair, stacked: int)
    requires stacked == 0 || stacked == 1
    ensures var r := Watch(d, windows, wheels, stacked);
      (r.raised <==> exists i :: 0 <= i < |windows| && ScanFrom(d, windows[i].gyro, 0) == Fault)
      && (!r.raised ==>
            (r.stacked == 1 <==> stacked == 1 || exists i :: 0 <= i < |windows| && ScanFrom(d, windows[i].gyro, 0) == Stalled))
      && (r.stacked == 0 || r.stacked == 1)
    decreases |windows|
  {
    if windows != [] {
      var r0 := ScanFrom(d, windows[0].gyro, 0);
      if r0 != Fault {
        var st := if r0 == Stalled then 1 else stacked;
        WatchOutcome(d, windows[1..], AfterCorrection(windows[0], wheels), st);
        var rest := windows[1..];
        assert forall i :: 0 <= i < |rest| ==> rest[i] == windows[i + 1];
        if exists i :: 0 <= i < |windows| && ScanFrom(d, windows[i].gyro, 0) == Fault {
          var i :| 0 <= i < |windows| && ScanFrom(d, windows[i].gyro, 0) == Fault;
          assert ScanFrom(d, rest[i - 1].gyro, 0) == Fault;
        }
        if exists i :: 0 <= i < |windows| && ScanFrom(d, windows[i].gyro, 0) == Stalled {
          var i :| 0 <= i < |windows| && ScanFrom(d, windows[i].gyro, 0) == Stalled;
          if i > 0 {
            assert ScanFrom(d, rest[i - 1].gyro, 0) == Stalled;
          }
        }
      }
    }
  }

  /**
   * A stall is not the last word: if a later window holds an unreadable sample, the
   * exception escapes and the stall that was seen is never reported.
   */
  lemma StallLostOnLaterFault(d: char, first: Window, second: Window, wheels: WheelPair)
    requires ScanFrom(d, first.gyro, 0) == Stalled && ScanFrom(d, second.gyro, 0) == Fault
    ensures Watch(d, [first, second], wheels, 0).raised
  {
    assert [first, second][1..] == [second];
  }

  // ---- one call of move ----

  /** Whether `move` returned a flag or let an exception escape. */
  datatype Outcome = Returned(stacked: int) | Raised

  /** Whether the monitoring loop runs: hold time left, at least 2 s asked for, and an IMU. */
  predicate Monitors(p: real, duration: real, imu: bool)
    requires p >= 0.0
  {
    HoldTime(p, duration) > 0.0 && duration >= 2.0 && imu
  }

  /** Everything a valid `move` in direction `d` does once the motors exist. */
  function MoveRun(d: char, p: real, duration: real, imu: bool, windows: seq<Window>): Run
    requires MotorDrive.IsDirection(d) && 0.0 <= p <= 1.0
  {
    var drive := DriveTrace(d, p, duration);
    var held := drive[|drive| - 1];
    var watch := if Monitors(p, duration, imu) then Watch(d, windows, held, 0) else Run([], 0, false, held);
    if watch.raised then Prepend(drive, watch)
    else Run(drive + watch.writes + StopTrace(watch.last), watch.stacked, false, Zero)
  }

  /** A move that returns ends with the wheels at 0; one that raises leaves them turning. */
  lemma MoveRunEnds(d: char, p: real, duration: real, imu: bool, windows: seq<Window>)
    requires MotorDrive.IsDirection(d) && 0.0 <= p <= 1.0
    ensures var r := MoveRun(d, p, duration, imu, windows);
      (!r.raised ==> r.writes[|r.writes| - 1] == Zero && (r.stacked == 0 || r.stacked == 1))
      && (r.raised ==> Monitors(p, duration, imu))
  {
    var drive := DriveTrace(d, p, duration);
    var held := drive[|drive| - 1];
    if Monitors(p, duration, imu) {
      WatchOutcome(d, windows, held, 0);
      StopTraceShape(Watch(d, windows, held, 0).last);
    } else {
      StopTraceShape(held);
    }
  }

  /**
   * The first window raising leaves the wheels where the hold put them: direction `d` at
   * full `power`, with nothing written after the hold.
   */
  lemma FaultLeavesMotorsRunning(d: char, p: real, duration: real, windows: seq<Window>)
    requires MotorDrive.IsDirection(d) && 0.0 <= p <= 1.0 && Monitors(p, duration, true)
    requires windows != [] && ScanFrom(d, windows[0].gyro, 0) == Fault
    ensures MoveRun(d, p, duration, true, windows).raised
    ensures MoveRun(d, p, duration, true, windows).last == MotorDrive.WheelValues(d, p).value
    ensures MoveRun(d, p, duration, true, windows).writes == DriveTrace(d, p, duration)
  {
    DriveEndsAtPower(d, p, duration);
  }

  /** The scripted recovery: s 3 s, d 1 s, w 2 s at full power, then `stop()`; an exception ends it. */
  function RecoveryTrace(imu: bool, back: seq<Window>, forward: seq<Window>): seq<WheelPair>
  {
    var r1 := MoveRun('s', FullPower, BackOffTime, imu, back);
    if r1.raised then r1.writes
    else
      var r2 := MoveRun('d', FullPower, TurnTime, imu, []);
      if r2.raised then r1.writes + r2.writes
      else
        var r3 := MoveRun('w', FullPower, ForwardTime, imu, forward);
        if r3.raised then r1.writes + r2.writes + r3.writes
        else r1.writes + r2.writes + r3.writes + StopTrace(Zero)
  }

  /** The one-second turn is too short to monitor, so it never raises. */
  lemma TurnNeverRaises(imu: bool)
    ensures !MoveRun('d', FullPower, TurnTime, imu, []).raised
  {
  }

  /** The module state of the driver. */
  class Drive {
    /** `motor_right` and `motor_left` both exist. */
    var motors: bool
    /** The BNO055 initialised at import. */
    var imu: bool
    /** `GPIO.setmode` has been called, so `GPIO.setup` of the LED pin works. */
    var pinMode: bool
    var led: int
    var right: real
    var left: real
    var trace: seq<WheelPair>

    constructor (imuPresent: bool, pinModeSet: bool)
      ensures !motors && imu == imuPresent && pinMode == pinModeSet && led == 0
      ensures right == 0.0 && left == 0.0 && trace == []
    {
      motors := false;
      imu := imuPresent;
      pinMode := pinModeSet;
      led := 0;
      right := 0.0;
      left := 0.0;
      trace := [];
    }

    /** `setup_motors`: existing motors are kept; otherwise creation succeeds or leaves none. */
    method SetupMotors(succeeds: bool)
      modifies this`motors, this`right, this`left
      ensures motors == (old(motors) || succeeds)
      ensures old(motors) || !succeeds ==> right == old(right) && left == old(left)
      ensures !old(motors) && succeeds ==> right == 0.0 && left == 0.0
    {
      if motors {
        return;
      }
      if succeeds {
        motors := true;
        right := 0.0;
        left := 0.0;
      }
    }

    method Write(w: WheelPair)
      modifies this`right, this`left, this`trace
      ensures right == w.right && left == w.left && trace == old(trace) + [w]
    {
      right := w.right;
      left := w.left;
      trace := trace + [w];
    }

    /** `stop()`: with motors, ramp down from the current values and finish at (0, 0). */
    method Stop()
      modifies this`right, this`left, this`trace
      ensures !motors ==> trace == old(trace) && right == old(right) && left == old(left)
      ensures motors ==> trace == old(trace) + StopTrace(WheelPair(old(right), old(left))) && right == 0.0 && left == 0.0
    {
      if !motors {
        return;
      }
      var current := WheelPair(right, left);
      var n := StopSteps(current);
      for i := 0 to n + 1
        modifies this`right, this`left, this`trace
        invariant trace == old(trace) + seq(i, k => if k == n then Zero else MotorDrive.Scale(current, 1.0 - k as real / n as real))
      {
        var target := MotorDrive.Scale(current, 1.0 - i as real / n as real);
        if i == n {
          target := Zero;
        }
        Write(target);
      }
      Write(Zero);
    }

    /** The acceleration loop and the hold of a move in a known direction. */
    method RampAndHold(d: char, power: real, duration: real)
      requires MotorDrive.IsDirection(d) && 0.0 <= power <= 1.0
      modifies this`right, this`left, this`trace
      ensures trace == old(trace) + DriveTrace(d, power, duration)
      ensures WheelPair(right, left) == MotorDrive.WheelValues(d, power).value
    {
      var n := RampSteps(power);
      for i := 0 to n + 1
        modifies this`right, this`left, this`trace
        invariant trace == old(trace) + RampTrace(d, power, i)
        invariant i > 0 ==> WheelPair(right, left) == trace[|trace| - 1]
      {
        RampTraceNext(d, power, i);
        Write(MotorDrive.WheelValues(d, MinReal(i as real * MotorDrive.DeltaPower, power)).value);
      }
      if HoldTime(power, duration) > 0.0 {
        Write(MotorDrive.WheelValues(d, power).value);
      }
      DriveEndsAtPower(d, power, duration);
    }

    /** The five-sample loop; `Fault` stands for the exception an unreadable sample raises. */
    method CheckWindow(d: char, gyro: seq<Option<Vec3>>) returns (r: WindowResult)
      ensures r == ScanFrom(d, gyro, 0)
    {
      var k := 0;
      while k < MotorDrive.SamplesPerWindow
        invariant 0 <= k <= MotorDrive.SamplesPerWindow
        invariant ScanFrom(d, gyro, k) == ScanFrom(d, gyro, 0)
      {
        var s := MotorDrive.SampleAt(gyro, k);
        if Unreadable(s) {
          return Fault;
        }
        if Active(d, s.value) {
          return Moving;
        }
        k := k + 1;
      }
      return Stalled;
    }

    /** The orientation check after a window: forward pulses, then `stop()` if the rover is upright again. */
    method Correct(w: Window)
      requires motors
      modifies this`right, this`left, this`trace
      ensures trace == old(trace) + CorrectionWrites(w, WheelPair(old(right), old(left)))
      ensures WheelPair(right, left) == AfterCorrection(w, WheelPair(old(right), old(left)))
    {
      if !Tipped(w) {
        return;
      }
      ghost var t0 := trace;
      Pulse(w.pulses);
      if w.recovered {
        Stop();
        AppendAssoc(t0, Pulses(w.pulses), StopTrace(if w.pulses > 0 then Zero else WheelPair(old(right), old(left))));
      }
    }

    /** The correction loop: `n` forward pulses `move("w", 1.0, 2.0)`. */
    method Pulse(n: nat)
      requires motors
      modifies this`right, this`left, this`trace
      ensures trace == old(trace) + Pulses(n)
      ensures WheelPair(right, left) == if n == 0 then WheelPair(old(right), old(left)) else Zero
    {
      for k := 0 to n
        modifies this`right, this`left, this`trace
        invariant trace == old(trace) + Pulses(k)
        invariant WheelPair(right, left) == if k == 0 then WheelPair(old(right), old(left)) else Zero
      {
        OnePulse();
        AppendAssoc(old(trace), Pulses(k), PulseTrace());
      }
    }

    /** One forward pulse of the correction loop: a full move, then the stop back to rest. */
    method OnePulse()
      requires motors
      modifies this`right, this`left, this`trace
      ensures trace == old(trace) + PulseTrace() && WheelPair(right, left) == Zero
    {
      RampAndHold('w', FullPower, ForwardTime);
      Stop();
      PulseShape();
    }

    /** The monitoring loop of `move`; `raised` stands for the exception that leaves it. */
    method Monitor(d: char, windows: seq<Window>) returns (stacked: int, raised: bool)
      requires motors
      modifies this`right, this`left, this`trace
      ensures var r := Watch(d, windows, WheelPair(old(right), old(left)), 0);
        trace == old(trace) + r.writes && WheelPair(right, left) == r.last
        && stacked == r.stacked && raised == r.raised
    {
      stacked := 0;
      raised := false;
      ghost var t0 := trace;
      ghost var w0 := WheelPair(right, left);
      ghost var done: seq<WheelPair> := [];
      for i := 0 to |windows|
        modifies this`right, this`left, this`trace
        invariant trace == t0 + done
        invariant Watch(d, windows, w0, 0) == Prepend(done, Watch(d, windows[i..], WheelPair(right, left), stacked))
      {
        ghost var wheels := WheelPair(right, left);
        WatchFrom(d, windows, i, wheels, stacked);
        var r := CheckWindow(d, windows[i].gyro);
        if r == Fault {
          return stacked, true;
        }
        if r == Stalled {
          stacked := 1;
        }
        ghost var cw := CorrectionWrites(windows[i], wheels);
        Correct(windows[i]);
        PrependTwice(done, cw, Watch(d, windows[i + 1..], WheelPair(right, left), stacked));
        AppendAssoc(t0, done, cw);
        done := done + cw;
      }
      assert windows[|windows|..] == [];
    }

    /**
     * `move`: validate, set up the motors, ramp up, hold, monitor while there is time,
     * and `stop()`; an exception from the monitoring skips the final `stop()`.
     */
    method Move(direction: char, power: real, duration: real, succeeds: bool, windows: seq<Window>)
      returns (o: Outcome)
      modifies this`motors, this`right, this`left, this`trace
      ensures !(0.0 <= power <= 1.0 && 0.0 <= duration <= MaxDuration) ==>
        o == Returned(0) && trace == old(trace) && motors == old(motors)
      ensures 0.0 <= power <= 1.0 && 0.0 <= duration <= MaxDuration ==> motors == (old(motors) || succeeds)
      ensures !motors ==> o == Returned(0) && trace == old(trace)
      ensures 0.0 <= power <= 1.0 && 0.0 <= duration <= MaxDuration && motors && !MotorDrive.IsDirection(direction) ==>
        o == Returned(0) && trace == old(trace) + StopTrace(if old(motors) then WheelPair(old(right), old(left)) else Zero)
      ensures 0.0 <= power <= 1.0 && 0.0 <= duration <= MaxDuration && motors && MotorDrive.IsDirection(direction) ==>
        var r := MoveRun(direction, power, duration, imu, windows);
        trace == old(trace) + r.writes && WheelPair(right, left) == r.last
        && o == (if r.raised then Raised else Returned(r.stacked))
    {
      if !(0.0 <= power <= 1.0 && 0.0 <= duration <= MaxDuration) {
        return Returned(0);
      }
      SetupMotors(succeeds);
      if !motors {
        return Returned(0);
      }
      if !MotorDrive.IsDirection(direction) {
        Stop();
        return Returned(0);
      }
      o := RunMove(direction, power, duration, windows);
    }

    /** The part of `move` after validation. */
    method RunMove(d: char, power: real, duration: real, windows: seq<Window>) returns (o: Outcome)
      requires motors && MotorDrive.IsDirection(d) && 0.0 <= power <= 1.0
      modifies this`right, this`left, this`trace
      ensures var r := MoveRun(d, power, duration, imu, windows);
        trace == old(trace) + r.writes && WheelPair(right, left) == r.last
        && o == (if r.raised then Raised else Returned(r.stacked))
    {
      ghost var t0 := trace;
      RampAndHold(d, power, duration);
      ghost var drive := DriveTrace(d, power, duration);
      DriveEndsAtPower(d, power, duration);
      ghost var held := drive[|drive| - 1];
      ghost var watch := if Monitors(power, duration, imu) then Watch(d, windows, held, 0) else Run([], 0, false, held);
      assert MoveRun(d, power, duration, imu, windows)
          == if watch.raised then Prepend(drive, watch)
             else Run(drive + watch.writes + StopTrace(watch.last), watch.stacked, false, Zero);
      var stacked := 0;
      if Monitors(power, duration, imu) {
        var raised;
        stacked, raised := Monitor(d, windows);
        if raised {
          AppendAssoc(t0, drive, watch.writes);
          return Raised;
        }
      }
      assert trace == t0 + drive + watch.writes;
      ghost var t2 := trace;
      Stop();
      AppendAssoc(t0, drive, watch.writes);
      AppendAssoc(t0, drive + watch.writes, StopTrace(watch.last));
      return Returned(stacked);
    }

    /** The back-off and the right turn of the recovery; `ok` when the back-off returned. */
    method BackOffAndTurn(back: seq<Window>) returns (ok: bool)
      requires motors
      modifies this`right, this`left, this`trace
      ensures var r1 := MoveRun('s', FullPower, BackOffTime, imu, back);
        var r2 := MoveRun('d', FullPower, TurnTime, imu, []);
        ok == !r1.raised && trace == old(trace) + (if ok then r1.writes + r2.writes else r1.writes)
    {
      ghost var t0 := trace;
      var o1 := RunMove('s', FullPower, BackOffTime, back);
      if o1.Raised? {
        return false;
      }
      var o2 := RunMove('d', FullPower, TurnTime, []);
      AppendAssoc(t0, MoveRun('s', FullPower, BackOffTime, imu, back).writes, MoveRun('d', FullPower, TurnTime, imu, []).writes);
      ok := true;
    }

    /** The forward run of the recovery and the stop after it; `ok` when the run returned. */
    method ForwardAndStop(forward: seq<Window>) returns (ok: bool)
      requires motors
      modifies this`right, this`left, this`trace
      ensures var r3 := MoveRun('w', FullPower, ForwardTime, imu, forward);
        ok == !r3.raised && trace == old(trace) + (if ok then r3.writes + StopTrace(Zero) else r3.writes)
        && (ok ==> right == 0.0 && left == 0.0)
    {
      ghost var t0 := trace;
      var o3 := RunMove('w', FullPower, ForwardTime, forward);
      if o3.Raised? {
        return false;
      }
      ghost var r3 := MoveRun('w', FullPower, ForwardTime, imu, forward);
      assert WheelPair(right, left) == Zero;
      Stop();
      AppendAssoc(t0, r3.writes, StopTrace(Zero));
      ok := true;
    }

    /**
     * `check_stuck`: only for `isStacked == 1`. The LED set-up raises unless the pin mode
     * was set, which skips everything; otherwise the LED blinks and stays on, the rover
     * backs off, turns right and drives forward, `stop()` runs and the LED goes off. An
     * exception from a move ends the sequence early with the LED still on. Each move first
     * tries to create missing motors; `succeeds` says whether creation works, and when it
     * does not, every move returns at once, `stop()` does nothing and the LED goes off.
     */
    method CheckStuck(isStacked: int, succeeds: bool, back: seq<Window>, forward: seq<Window>)
      modifies this`motors, this`led, this`right, this`left, this`trace
      ensures isStacked != 1 || !pinMode ==> trace == old(trace) && led == old(led) && motors == old(motors)
      ensures isStacked == 1 && pinMode ==> motors == (old(motors) || succeeds)
      ensures isStacked == 1 && pinMode && !motors ==> trace == old(trace) && led == 0
      ensures isStacked == 1 && pinMode && motors ==> trace == old(trace) + RecoveryTrace(imu, back, forward)
      ensures (isStacked == 1 && pinMode && motors && !MoveRun('s', FullPower, BackOffTime, imu, back).raised
               && !MoveRun('w', FullPower, ForwardTime, imu, forward).raised) ==> led == 0 && right == 0.0 && left == 0.0
      ensures (isStacked == 1 && pinMode && motors && (MoveRun('s', FullPower, BackOffTime, imu, back).raised
               || MoveRun('w', FullPower, ForwardTime, imu, forward).raised)) ==> led == 1
    {
      if isStacked != 1 || !pinMode {
        return;
      }
      led := 1;
      SetupMotors(succeeds);
      if !motors {
        led := 0;
        return;
      }
      Recover(back, forward);
    }

    /** The moves of the recovery with the motors in place; the LED goes off when they all return. */
    method Recover(back: seq<Window>, forward: seq<Window>)
      requires motors
      modifies this`led, this`right, this`left, this`trace
      ensures trace == old(trace) + RecoveryTrace(imu, back, forward)
      ensures (!MoveRun('s', FullPower, BackOffTime, imu, back).raised
               && !MoveRun('w', FullPower, ForwardTime, imu, forward).raised) ==> led == 0 && right == 0.0 && left == 0.0
      ensures (MoveRun('s', FullPower, BackOffTime, imu, back).raised
               || MoveRun('w', FullPower, ForwardTime, imu, forward).raised) ==> led == old(led)
    {
      ghost var t0 := trace;
      ghost var r1 := MoveRun('s', FullPower, BackOffTime, imu, back);
      ghost var r2 := MoveRun('d', FullPower, TurnTime, imu, []);
      ghost var r3 := MoveRun('w', FullPower, ForwardTime, imu, forward);
      TurnNeverRaises(imu);
      var ok := BackOffAndTurn(back);
      if !ok {
        return;
      }
      ok := ForwardAndStop(forward);
      if !ok {
        AppendAssoc(t0, r1.writes + r2.writes, r3.writes);
        return;
      }
      AppendAssoc(t0, r1.writes + r2.writes, r3.writes + StopTrace(Zero));
      AppendAssoc(r1.writes + r2.writes, r3.writes, StopTrace(Zero));
      led := 0;
    }
  }
}
