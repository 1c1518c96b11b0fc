/**
 * The 2_phase motor driver (`motordrive.py`): power validation, the direction-inversion
 * map, the wheel-value table, the 0.1-step ramps up and down, the five-sample gyro stall
 * window and the scripted stuck recovery.
 *
 * The two gpiozero `Motor` objects are the `right` and `left` fields of `Drive`; every
 * write of a wheel pair is appended to `trace`. Sleeps are dropped, and the wall-clock
 * monitoring loop runs over a supplied sequence of gyro sample windows.
 */
module MotorDrive {
  import opened Common
  import AnomalyFilter

  const DeltaPower: real := 0.1
  const StallThreshold: real := 0.4
  const SamplesPerWindow: nat := 5
  /** The sleep after each ramp step, which the hold time is reduced by. */
  const RampStepTime: real := 0.025

  // ---- directions ----

  /** The mapping applied when the rover runs upside down. */
  function Invert(d: char): char
  {
    match d
    case 'w' => 's'
    case 's' => 'w'
    case 'a' => 'd'
    case 'd' => 'a'
    case 'q' => 'e'
    case 'e' => 'q'
    case _ => d
  }

  /** `set_values`: the (right, left) pair for a direction at power `p`, `None` for an unknown letter. */
  function WheelValues(d: char, p: real): Option<WheelPair>
  {
    match d
    case 'w' => Some(WheelPair(p, p))
    case 's' => Some(WheelPair(-p, -p))
    case 'a' => Some(WheelPair(p, -p))
    case 'd' => Some(WheelPair(-p, p))
    case 'q' => Some(WheelPair(0.0, p))
    case 'e' => Some(WheelPair(p, 0.0))
    case _ => None
  }

  predicate IsDirection(d: char) { WheelValues(d, 0.0).Some? }

  /** Inverting twice is the identity, and letters outside the map are left alone. */
  lemma InvertInvolutive(d: char)
    ensures Invert(Invert(d)) == d
    ensures !IsDirection(d) ==> Invert(d) == d
  {
  }

  /**
   * Inversion turns each driving direction into its mirror: straight runs and turns on
   * the spot get both wheel values negated, and the one-wheel pivots swap wheels.
   * No wheel value ever exceeds `p` in magnitude.
   */
  lemma InvertMirrorsWheels(d: char, p: real)
    requires p >= 0.0
    ensures IsDirection(d) <==> IsDirection(Invert(d))
    ensures d in "wsad" ==>
      WheelValues(Invert(d), p).value.right == -WheelValues(d, p).value.right &&
      WheelValues(Invert(d), p).value.left == -WheelValues(d, p).value.left
    ensures d in "qe" ==>
      WheelValues(Invert(d), p).value.right == WheelValues(d, p).value.left &&
      WheelValues(Invert(d), p).value.left == WheelValues(d, p).value.right
    ensures IsDirection(d) ==> Abs(WheelValues(d, p).value.right) <= p && Abs(WheelValues(d, p).value.left) <= p
  {
  }

  // ---- ramps ----

  /** `max(1, int(power / delta_power))`. */
  function RampSteps(p: real): (n: nat)
    requires p >= 0.0
    ensures n >= 1
  {
    if (p / DeltaPower).Floor >= 1 then (p / DeltaPower).Floor else 1
  }

  /** The powers the acceleration loop writes: `min(i * 0.1, power)` for i = 0 .. steps. */
  function RampPowers(p: real): seq<real>
    requires p >= 0.0
  {
    seq(RampSteps(p) + 1, i => MinReal(i as real * DeltaPower, p))
  }

  /** The ramp starts at 0, never decreases, never exceeds `power`, and ends within one step of it. */
  lemma RampShape(p: real)
    requires p >= 0.0
    ensures var r := RampPowers(p);
      |r| >= 2 && r[0] == 0.0
      && (forall i, j :: 0 <= i <= j < |r| ==> r[i] <= r[j])
      && (forall i :: 0 <= i < |r| ==> 0.0 <= r[i] <= p)
      && r[|r| - 1] > p - DeltaPower
  {
    var r := RampPowers(p);
    var n := RampSteps(p);
    assert r[n] == MinReal(n as real * DeltaPower, p);
    if (p / DeltaPower).Floor >= 1 {
      assert n as real <= p / DeltaPower < n as real + 1.0;
      assert n as real * DeltaPower > p - DeltaPower;
    } else {
      assert p / DeltaPower < 1.0;
      assert p < DeltaPower;
    }
  }

  /** `max(1, int(max(|r|, |l|) / delta_power))`. */
  function StopSteps(w: WheelPair): (n: nat)
    ensures n >= 1
  {
    var m := MaxReal(Abs(w.right), Abs(w.left));
    if (m / DeltaPower).Floor >= 1 then (m / DeltaPower).Floor else 1
  }

  function Scale(w: WheelPair, f: real): WheelPair { WheelPair(w.right * f, w.left * f) }

  /**
   * What `stop()` writes when the wheels were at `w`: nothing if both are already 0,
   * otherwise `w * (1 - i/steps)` for i = 0 .. steps followed by an explicit (0, 0).
   */
  function StopTrace(w: WheelPair): seq<WheelPair>
  {
    if w.right == 0.0 && w.left == 0.0 then []
    else
      var n := StopSteps(w);
      seq(n + 1, i => Scale(w, 1.0 - i as real / n as real)) + [WheelPair(0.0, 0.0)]
  }

  /** The i-th factor of the stop ramp, `1 - i/steps`, lies in [0, 1] and falls as i grows. */
  lemma StopFactor(n: nat, i: nat, j: nat)
    requires 1 <= n && i <= j <= n
    ensures 0.0 <= 1.0 - j as real / n as real <= 1.0 - i as real / n as real <= 1.0
  {
    DivMonotone(i as real, j as real, n as real);
    DivMonotone(j as real, n as real, n as real);
  }

  lemma DivMonotone(a: real, b: real, c: real)
    requires 0.0 <= a <= b && c > 0.0
    ensures 0.0 <= a / c <= b / c
  {
  }


  /** Element `i` of a non-empty stop ramp. */
  lemma StopTraceAt(w: WheelPair, i: nat)
    requires w != WheelPair(0.0, 0.0) && i < |StopTrace(w)|
    ensures |StopTrace(w)| == StopSteps(w) + 2
    ensures i <= StopSteps(w) ==> StopTrace(w)[i] == Scale(w, 1.0 - i as real / StopSteps(w) as real)
    ensures i == StopSteps(w) + 1 ==> StopTrace(w)[i] == WheelPair(0.0, 0.0)
  {
  }

  /**
   * The stop ramp starts at the current values, keeps each wheel's sign, only ever
   * lowers each wheel's magnitude, and ends with both wheels at 0.
   */
  lemma StopTraceShape(w: WheelPair)
    ensures w == WheelPair(0.0, 0.0) <==> StopTrace(w) == []
    ensures var t := StopTrace(w);
      t != [] ==> (t[0] == w && t[|t| - 1] == WheelPair(0.0, 0.0)
        && (forall i :: 0 <= i < |t| ==> SameSign(t[i], w))
        && (forall i, j :: 0 <= i <= j < |t| ==> Abs(t[j].right) <= Abs(t[i].right) && Abs(t[j].left) <= Abs(t[i].left)))
  {
    var t := StopTrace(w);
    if t != [] {
      StopTraceAt(w, 0);
      assert t[0] == Scale(w, 1.0);
      StopTraceAt(w, |t| - 1);
      forall i | 0 <= i < |t|
        ensures SameSign(t[i], w)
      {
        StopTraceKeepsSign(w, i);
      }
      forall i, j | 0 <= i <= j < |t|
        ensures Abs(t[j].right) <= Abs(t[i].right) && Abs(t[j].left) <= Abs(t[i].left)
      {
        StopTraceFalls(w, i, j);
      }
    }
  }

  lemma StopTraceKeepsSign(w: WheelPair, i: nat)
    requires w != WheelPair(0.0, 0.0) && i < |StopTrace(w)|
    ensures SameSign(StopTrace(w)[i], w)
  {
    var n := StopSteps(w);
    StopTraceAt(w, i);
    var v := StopTrace(w)[i];
    if i <= n {
      var f := 1.0 - i as real / n as real;
      StopFactor(n, i, i);
      ScaledKeepsSign(v, w, f);
    } else {
      assert v == Scale(w, 0.0);
      ScaledKeepsSign(v, w, 0.0);
    }
  }

  lemma StopTraceFalls(w: WheelPair, i: nat, j: nat)
    requires w != WheelPair(0.0, 0.0) && i <= j < |StopTrace(w)|
    ensures Abs(StopTrace(w)[j].right) <= Abs(StopTrace(w)[i].right)
    ensures Abs(StopTrace(w)[j].left) <= Abs(StopTrace(w)[i].left)
  {
    var n := StopSteps(w);
    StopTraceAt(w, i);
    StopTraceAt(w, j);
    if j <= n {
      StopFactor(n, i, j);
      ScaledIsSmaller(w, 1.0 - j as real / n as real, 1.0 - i as real / n as real);
    } else if i <= n {
      StopFactor(n, i, i);
      ScaledIsSmaller(w, 0.0, 1.0 - i as real / n as real);
      assert Scale(w, 0.0) == WheelPair(0.0, 0.0);
    }
  }

  /** Each wheel of `v` is 0 or has the sign of the same wheel of `w`. */
  predicate SameSign(v: WheelPair, w: WheelPair)
  {
    v.right * w.right >= 0.0 && v.left * w.left >= 0.0
  }

  lemma ScaledKeepsSign(v: WheelPair, w: WheelPair, f: real)
    requires v == Scale(w, f) && 0.0 <= f
    ensures SameSign(v, w)
  {
    assert Scale(w, f).right * w.right == f * (w.right * w.right);
    assert Scale(w, f).left * w.left == f * (w.left * w.left);
    NonNegProduct(f, w.right);
    NonNegProduct(f, w.right * w.right);
    NonNegProduct(f, w.left);
    NonNegProduct(f, w.left * w.left);
  }

  lemma NonNegProduct(a: real, b: real)
    requires a >= 0.0
    ensures b >= 0.0 ==> a * b >= 0.0
    ensures b * b >= 0.0
  {
  }

  lemma AbsScaled(x: real, f: real)
    requires 0.0 <= f
    ensures Abs(x * f) == f * Abs(x)
  {
    if x < 0.0 {
      assert x * f == -((-x) * f);
    }
  }

  lemma ScaledIsSmaller(w: WheelPair, f: real, g: real)
    requires 0.0 <= f <= g
    ensures Abs(Scale(w, f).right) <= Abs(Scale(w, g).right)
    ensures Abs(Scale(w, f).left) <= Abs(Scale(w, g).left)
  {
    AbsScaled(w.right, f);
    AbsScaled(w.right, g);
    AbsScaled(w.left, f);
    AbsScaled(w.left, g);
    MonotoneProduct(Abs(w.right), f, g);
    MonotoneProduct(Abs(w.left), f, g);
    assert Abs(w.right * f) <= Abs(w.right * g);
    assert Abs(w.left * f) <= Abs(w.left * g);
  }

  lemma MonotoneProduct(a: real, f: real, g: real)
    requires a >= 0.0 && f <= g
    ensures f * a <= g * a
  {
    assert g * a - f * a == (g - f) * a;
    NonNegProduct(g - f, a);
  }

  // ---- stall detection ----

  datatype Vec3 = Vec3(x: real, y: real, z: real)

  function AsReading(g: Vec3): AnomalyFilter.Reading { AnomalyFilter.Vector([g.x, g.y, g.z]) }

  /** Whether `abnormal_check` with range row `r` keeps the vector `g`: |x| + |y| + |z| within `r`. */
  predicate Plausible(r: AnomalyFilter.Range, g: Vec3)
  {
    r.lo <= Abs(g.x) + Abs(g.y) + Abs(g.z) <= r.hi
  }

  /** `Plausible` is the filter's verdict on the vector read as a list. */
  lemma PlausibleIsFilter(r: AnomalyFilter.Range, g: Vec3)
    ensures AnomalyFilter.CheckRange(r, AsReading(g)) == (if Plausible(r, g) then AsReading(g) else AnomalyFilter.Missing)
  {
    var v3 := [g.z];
    assert v3[1..] == [];
    assert AnomalyFilter.SumAbs(v3) == Abs(g.z);
    var v2 := [g.y, g.z];
    assert v2[1..] == v3;
    assert AnomalyFilter.SumAbs(v2) == Abs(g.y) + Abs(g.z);
    assert [g.x, g.y, g.z][1..] == v2;
  }

  /** A turn is expected to show up on the z gyro; anything else on the whole vector. */
  predicate Turning(d: char) { d == 'a' || d == 'd' || d == 'q' || d == 'e' }

  /** The rover is moving: |gyro z| above 0.4 while turning, the gyro norm above 0.4 otherwise. */
  predicate Active(d: char, g: Vec3)
  {
    if Turning(d) then Abs(g.z) > StallThreshold
    else g.x * g.x + g.y * g.y + g.z * g.z > StallThreshold * StallThreshold
  }

  /** The k-th gyro reading of a window; a window that runs short reads as sensor failure. */
  function SampleAt(w: seq<Option<Vec3>>, k: nat): Option<Vec3> { if k < |w| then w[k] else None }

  /**
   * A sample that supports "stalled": present, accepted by `abnormal_check("bno", "gyro")`
   * (the gyro row of the table, see `AnomalyFilter.BnoRows`), and not active.
   */
  predicate Quiet(d: char, s: Option<Vec3>)
  {
    s.Some? && Plausible(AnomalyFilter.BnoGyro, s.value) && !Active(d, s.value)
  }

  predicate WindowStalled(d: char, w: seq<Option<Vec3>>)
  {
    forall k :: 0 <= k < SamplesPerWindow ==> Quiet(d, SampleAt(w, k))
  }

  /** One pass of the five-sample loop: any missing, rejected or active sample clears the window. */
  method CheckWindow(d: char, w: seq<Option<Vec3>>) returns (stalled: bool)
    ensures stalled <==> WindowStalled(d, w)
  {
    stalled := true;
    var k := 0;
    while k < SamplesPerWindow
      invariant 0 <= k <= SamplesPerWindow
      invariant forall j :: 0 <= j < k ==> Quiet(d, SampleAt(w, j))
    {
      var gyro := SampleAt(w, k);
      if gyro.None? {
        stalled := false;
        break;
      }
      var filtered := AnomalyFilter.CheckRange(AnomalyFilter.BnoGyro, AsReading(gyro.value));
      PlausibleIsFilter(AnomalyFilter.BnoGyro, gyro.value);
      if filtered.Missing? {
        stalled := false;
        break;
      }
      if Active(d, gyro.value) {
        stalled := false;
        break;
      }
      k := k + 1;
    }
  }

  predicate SomeWindowStalled(d: char, windows: seq<seq<Option<Vec3>>>)
  {
    exists i :: 0 <= i < |windows| && WindowStalled(d, windows[i])
  }

  /** The monitoring loop: windows are checked in order and the first stalled one ends it with 1. */
  method MonitorStall(d: char, windows: seq<seq<Option<Vec3>>>) returns (stacked: int)
    ensures stacked == (if SomeWindowStalled(d, windows) then 1 else 0)
  {
    stacked := 0;
    var i := 0;
    while i < |windows|
      invariant 0 <= i <= |windows|
      invariant forall j :: 0 <= j < i ==> !WindowStalled(d, windows[j])
    {
      var stalled := CheckWindow(d, windows[i]);
      if stalled {
        stacked := 1;
        return;
      }
      i := i + 1;
    }
  }

  // ---- what one call of move writes ----

  /** The time left for holding after the ramp, `max(0, duration - 0.025 * (steps + 1))`. */
  function HoldTime(p: real, duration: real): real
    requires p >= 0.0
  {
    MaxReal(0.0, duration - RampStepTime * (RampSteps(p) + 1) as real)
  }

  /** The first `i` pairs the acceleration loop writes. */
  function RampTrace(d: char, p: real, i: nat): (t: seq<WheelPair>)
    requires IsDirection(d) && p >= 0.0
    ensures |t| == i
  {
    seq(i, k => WheelValues(d, MinReal(k as real * DeltaPower, p)).value)
  }

  lemma RampTraceNext(d: char, p: real, i: nat)
    requires IsDirection(d) && p >= 0.0
    ensures RampTrace(d, p, i + 1) == RampTrace(d, p, i) + [WheelValues(d, MinReal(i as real * DeltaPower, p)).value]
  {
  }

  /** The ramp and hold writes of a move in a known direction. */
  function DriveTrace(d: char, p: real, duration: real): (t: seq<WheelPair>)
    requires IsDirection(d) && p >= 0.0
    ensures |t| >= 2
  {
    RampTrace(d, p, RampSteps(p) + 1)
      + (if HoldTime(p, duration) > 0.0 then [WheelValues(d, p).value] else [])
  }

  /** Everything a move in a known direction writes: ramp, hold, then the stop ramp from the last pair. */
  function MoveTrace(d: char, p: real, duration: real): seq<WheelPair>
    requires IsDirection(d) && p >= 0.0
  {
    var t := DriveTrace(d, p, duration);
    t + StopTrace(t[|t| - 1])
  }

  /** Every move in a known direction ends with both wheels stopped. */
  lemma MoveEndsStopped(d: char, p: real, duration: real)
    requires IsDirection(d) && p >= 0.0
    ensures var m := MoveTrace(d, p, duration); m[|m| - 1] == WheelPair(0.0, 0.0)
  {
    var t := DriveTrace(d, p, duration);
    StopTraceShape(t[|t| - 1]);
    if StopTrace(t[|t| - 1]) == [] {
      assert t[|t| - 1] == WheelPair(0.0, 0.0);
    }
  }

  /** The hold writes exactly `power` in the chosen direction whenever there is time left after the ramp. */
  lemma HoldWritesPower(d: char, p: real, duration: real)
    requires IsDirection(d) && p >= 0.0 && HoldTime(p, duration) > 0.0
    ensures var t := DriveTrace(d, p, duration); t[|t| - 1] == WheelValues(d, p).value
  {
  }

  /** The module state of the driver: the motors, the GPIO pins, the IMU and the wheel values. */
  class Drive {
    /** `motor_right` and `motor_left` both exist. */
    var motors: bool
    var gpioReady: bool
    var vm: int
    var led: int
    /** The BNO055 used for stall checks is present. */
    var imu: bool
    var right: real
    var left: real
    /** Every wheel pair written, oldest first. */
    var trace: seq<WheelPair>

    ghost predicate Valid()
      reads this
    {
      motors ==> gpioReady
    }

    constructor (imuPresent: bool)
      ensures Valid() && !motors && !gpioReady && imu == imuPresent
      ensures right == 0.0 && left == 0.0 && trace == []
    {
      motors := false;
      gpioReady := false;
      vm := 0;
      led := 0;
      imu := imuPresent;
      right := 0.0;
      left := 0.0;
      trace := [];
    }

    /** `setup_gpio`: on first use the LED and the motor-driver enable (VM) start low. */
    method SetupGpio()
      modifies this`gpioReady, this`vm, this`led
      ensures gpioReady
      ensures old(gpioReady) ==> vm == old(vm) && led == old(led)
      ensures !old(gpioReady) ==> vm == 0 && led == 0
    {
      if !gpioReady {
        led := 0;
        vm := 0;
        gpioReady := true;
      }
    }

    /** `setup_motors`: existing motors are kept; otherwise creation succeeds or leaves none. */
    method SetupMotors(succeeds: bool)
      requires Valid()
      modifies this`motors, this`gpioReady, this`vm, this`led, this`right, this`left
      ensures Valid()
      ensures motors == (old(motors) || succeeds)
      ensures old(gpioReady) ==> gpioReady && led == old(led)
      ensures old(motors) ==>
        right == old(right) && left == old(left) && gpioReady == old(gpioReady) && vm == old(vm) && led == old(led)
      ensures !old(motors) && succeeds ==> right == 0.0 && left == 0.0
      ensures !old(motors) && !succeeds ==>
        right == old(right) && left == old(left) && gpioReady == old(gpioReady) && vm == old(vm) && led == old(led)
    {
      if motors {
        return;
      }
      if succeeds {
        motors := true;
        right := 0.0;
        left := 0.0;
        SetupGpio();
      }
    }

    method Write(w: WheelPair)
      modifies this`right, this`left, this`trace
      ensures right == w.right && left == w.left && trace == old(trace) + [w]
    {
      right := w.right;
      left := w.left;
      trace := trace + [w];
    }

    /** `stop()`: ramp both wheels down from their current values and leave them at 0. */
    method Stop()
      modifies this`right, this`left, this`trace
      ensures !motors ==> trace == old(trace) && right == old(right) && left == old(left)
      ensures motors ==> trace == old(trace) + StopTrace(WheelPair(old(right), old(left)))
                         && right == 0.0 && left == 0.0
    {
      if !motors {
        return;
      }
      var current := WheelPair(right, left);
      if current.right == 0.0 && current.left == 0.0 {
        return;
      }
      var n := StopSteps(current);
      for i := 0 to n + 1
        modifies this`right, this`left, this`trace
        invariant trace == old(trace) + seq(i, k => Scale(current, 1.0 - k as real / n as real))
      {
        Write(Scale(current, 1.0 - i as real / n as real));
      }
      Write(WheelPair(0.0, 0.0));
    }

    /**
     * `move`: validate, enable VM, map the direction, ramp up, hold, watch for a stall
     * when asked to, then `stop()`. `succeeds` says whether motor creation works when the
     * motors are missing; `windows` are the gyro windows read during the hold.
     */
    method Move(direction: char, power: real, duration: real, inverted: bool, stackCheck: bool,
                succeeds: bool, windows: seq<seq<Option<Vec3>>>) returns (stacked: int)
      requires Valid()
      modifies this
      ensures Valid() && imu == old(imu)
      ensures old(gpioReady) ==> gpioReady && led == old(led)
      ensures !(0.0 <= power <= 1.0) ==> stacked == 0 && trace == old(trace) && motors == old(motors)
      ensures 0.0 <= power <= 1.0 && !motors ==> stacked == 0 && trace == old(trace)
      ensures 0.0 <= power <= 1.0 ==> motors == (old(motors) || succeeds)
      ensures 0.0 <= power <= 1.0 && motors ==> vm == 1 && right == 0.0 && left == 0.0
      ensures var d := if inverted then Invert(direction) else direction;
        0.0 <= power <= 1.0 && motors && !IsDirection(d) ==>
          stacked == 0 && trace == old(trace) + StopTrace(if old(motors) then WheelPair(old(right), old(left)) else WheelPair(0.0, 0.0))
      ensures var d := if inverted then Invert(direction) else direction;
        0.0 <= power <= 1.0 && motors && IsDirection(d) ==>
          trace == old(trace) + MoveTrace(d, power, duration)
          && stacked == (if HoldTime(power, duration) > 0.0 && duration >= 2.0 && imu && stackCheck
                            && SomeWindowStalled(d, windows) then 1 else 0)
    {
      if !(0.0 <= power <= 1.0) {
        return 0;
      }
      SetupMotors(succeeds);
      if !motors {
        return 0;
      }
      if gpioReady {
        vm := 1;
      }
      var d := if inverted then Invert(direction) else direction;
      if !IsDirection(d) {
        Stop();
        return 0;
      }
      stacked := RunMove(d, power, duration, stackCheck, windows);
    }

    /** The part of `move` after validation: ramp, hold, optional stall watch, `stop()`. */
    method RunMove(d: char, power: real, duration: real, stackCheck: bool,
                   windows: seq<seq<Option<Vec3>>>) returns (stacked: int)
      requires motors && IsDirection(d) && 0.0 <= power <= 1.0
      modifies this`right, this`left, this`trace
      ensures trace == old(trace) + MoveTrace(d, power, duration) && right == 0.0 && left == 0.0
      ensures stacked == (if HoldTime(power, duration) > 0.0 && duration >= 2.0 && imu && stackCheck
                             && SomeWindowStalled(d, windows) then 1 else 0)
    {
      ghost var t0 := trace;
      RampAndHold(d, power, duration);
      stacked := 0;
      if HoldTime(power, duration) > 0.0 && duration >= 2.0 && imu && stackCheck {
        stacked := MonitorStall(d, windows);
      }
      Stop();
      AppendAssoc(t0, DriveTrace(d, power, duration), StopTrace(WheelPair(old(right), old(left))));
    }

    /** The acceleration loop and, when time is left, the hold at `power`. */
    method RampAndHold(d: char, power: real, duration: real)
      requires IsDirection(d) && 0.0 <= power <= 1.0
      modifies this`right, this`left, this`trace
      ensures trace == old(trace) + DriveTrace(d, power, duration)
      ensures var t := DriveTrace(d, power, duration); WheelPair(right, left) == t[|t| - 1]
    {
      var n := RampSteps(power);
      for i := 0 to n + 1
        modifies this`right, this`left, this`trace
        invariant trace == old(trace) + RampTrace(d, power, i)
        invariant i > 0 ==> WheelPair(right, left) == trace[|trace| - 1]
      {
        RampTraceNext(d, power, i);
        Write(WheelValues(d, MinReal(i as real * DeltaPower, power)).value);
      }
      if HoldTime(power, duration) > 0.0 {
        Write(WheelValues(d, power).value);
      }
    }

    /**
     * `check_stuck`: when `isStacked == 1`, reverse for 3 s, turn right for 1 s and go
     * forward for 2 s at full power, all without stall checks, then `stop()`. The LED
     * blinking comes first and raises when GPIO was never set up, abandoning the sequence;
     * otherwise it ends with the LED off. Each move first tries to create missing motors,
     * and when creation fails every move returns at once and nothing is written.
     */
    method CheckStuck(isStacked: int, inverted: bool, succeeds: bool)
      requires Valid()
      modifies this
      ensures Valid()
      ensures isStacked != 1 || !old(gpioReady) ==> trace == old(trace) && led == old(led) && motors == old(motors)
      ensures isStacked == 1 && old(gpioReady) ==> led == 0 && motors == (old(motors) || succeeds)
      ensures isStacked == 1 && old(gpioReady) && !old(motors) && !succeeds ==> trace == old(trace)
      ensures isStacked == 1 && old(gpioReady) && (old(motors) || succeeds) ==>
        trace == old(trace) + RecoveryTrace(inverted) && right == 0.0 && left == 0.0
    {
      if isStacked != 1 || !gpioReady {
        return;
      }
      led := 0;
      Recover(inverted, succeeds);
    }

    /** The three moves and the `stop()` of the recovery, once the LED has blinked. */
    method Recover(inverted: bool, succeeds: bool)
      requires Valid() && gpioReady
      modifies this
      ensures Valid() && gpioReady && led == old(led) && motors == (old(motors) || succeeds)
      ensures !motors ==> trace == old(trace)
      ensures motors ==> trace == old(trace) + RecoveryTrace(inverted) && right == 0.0 && left == 0.0
    {
      ghost var t0 := trace;
      ghost var m1 := MoveTrace(Oriented('s', inverted), 1.0, 3.0);
      ghost var m2 := MoveTrace(Oriented('d', inverted), 1.0, 1.0);
      ghost var m3 := MoveTrace(Oriented('w', inverted), 1.0, 2.0);
      BackOff(inverted, succeeds);
      if !motors {
        return;
      }
      TurnForwardStop(inverted, succeeds);
      assert trace == t0 + m1 + (m2 + m3);
      AppendAssoc(t0, m1, m2 + m3);
      AppendAssoc(m1, m2, m3);
      assert RecoveryTrace(inverted) == m1 + m2 + m3;
    }

    /** The back-off of the recovery, which first tries to create missing motors. */
    method BackOff(inverted: bool, succeeds: bool)
      requires Valid() && gpioReady
      modifies this
      ensures Valid() && gpioReady && led == old(led) && motors == (old(motors) || succeeds)
      ensures !motors ==> trace == old(trace)
      ensures motors ==> trace == old(trace) + MoveTrace(Oriented('s', inverted), 1.0, 3.0)
    {
      assert IsDirection(Oriented('s', inverted));
      var s1 := Move('s', 1.0, 3.0, inverted, false, succeeds, []);
    }

    /** The turn, the forward run and the `stop()` of the recovery, with the motors in place. */
    method TurnForwardStop(inverted: bool, succeeds: bool)
      requires Valid() && gpioReady && motors
      modifies this
      ensures Valid() && gpioReady && motors && led == old(led)
      ensures trace == old(trace) + (MoveTrace(Oriented('d', inverted), 1.0, 1.0) + MoveTrace(Oriented('w', inverted), 1.0, 2.0))
      ensures right == 0.0 && left == 0.0
    {
      ghost var t0 := trace;
      var d2, d3 := Oriented('d', inverted), Oriented('w', inverted);
      assert IsDirection(d2) && IsDirection(d3);
      ghost var m2, m3 := MoveTrace(d2, 1.0, 1.0), MoveTrace(d3, 1.0, 2.0);
      var s2 := Move('d', 1.0, 1.0, inverted, false, succeeds, []);
      assert trace == t0 + m2;
      var s3 := Move('w', 1.0, 2.0, inverted, false, succeeds, []);
      assert trace == t0 + m2 + m3;
      assert StopTrace(WheelPair(right, left)) == [];
      Stop();
      AppendAssoc(t0, m2, m3);
    }
  }

  function Oriented(d: char, inverted: bool): char { if inverted then Invert(d) else d }

  /** What the recovery sequence writes: three complete moves, the final `stop()` adding nothing. */
  function RecoveryTrace(inverted: bool): seq<WheelPair>
  {
    MoveTrace(Oriented('s', inverted), 1.0, 3.0)
      + MoveTrace(Oriented('d', inverted), 1.0, 1.0)
      + MoveTrace(Oriented('w', inverted), 1.0, 2.0)
  }

  /** Upright, the recovery first backs away at full power: its first hold writes (-1, -1). */
  lemma RecoveryBacksOffFirst()
    ensures var t := RecoveryTrace(false); RampSteps(1.0) + 1 < |t| && t[RampSteps(1.0) + 1] == WheelPair(-1.0, -1.0)
  {
    assert RampSteps(1.0) == 10;
    assert HoldTime(1.0, 3.0) > 0.0;
  }
}
