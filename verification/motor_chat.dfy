/**
 * The chatGPT copy of the SC-28 `motordrive.py`: a clamped power ramp, a `stop` that
 * drives both wheels forward at falling levels, the scripted stuck recovery and `cleanup`.
 *
 * gpiozero `Motor` objects become the signed wheel values (forward p is +p, backward p
 * is -p, `stop()` is 0) together with the trace of every pair written.
 */
module MotorDriveChat {
  import opened Common
  import MotorDrive

  const DeltaPower: real := 0.1

  /** `max(0.0, min(1.0, power))`. */
  function Clamp(power: real): (t: real)
    ensures 0.0 <= t <= 1.0
    ensures t == power <==> 0.0 <= power <= 1.0
    ensures power < 0.0 ==> t == 0.0
    ensures power > 1.0 ==> t == 1.0
  {
    MaxReal(0.0, MinReal(1.0, power))
  }

  /** The smallest integer not below `x`. */
  function Ceil(x: real): (c: int)
    ensures c as real - 1.0 < x <= c as real
  {
    -((-x).Floor)
  }

  /**
   * The right and left values one ramp step writes at level `p`; the chain of `elif`s has
   * no `else`, so any other letter writes nothing.
   */
  function WheelValues(d: char, p: real): Option<WheelPair>
  {
    if d == 'w' then Some(WheelPair(p, p))
    else if d == 's' then Some(WheelPair(-p, -p))
    else if d == 'a' then Some(WheelPair(p, -p))
    else if d == 'd' then Some(WheelPair(-p, p))
    else if d == 'q' then Some(WheelPair(p, 0.0))
    else if d == 'e' then Some(WheelPair(0.0, p))
    else None
  }

  predicate IsDirection(d: char) { WheelValues(d, 0.0).Some? }

  /**
   * This copy agrees with the 2_phase driver on w, s, a and d but swaps q and e: its 'q'
   * drives the right wheel only, where the 2_phase 'q' drives the left one.
   */
  lemma PivotsSwappedAgainstPhase2(d: char, p: real)
    ensures d in {'w', 's', 'a', 'd'} ==> WheelValues(d, p) == MotorDrive.WheelValues(d, p)
    ensures WheelValues('q', p) == MotorDrive.WheelValues('e', p)
    ensures WheelValues('e', p) == MotorDrive.WheelValues('q', p)
    ensures IsDirection(d) <==> MotorDrive.IsDirection(d)
  {
  }

  // ---- the acceleration loop ----

  /** How many times `while p < target` runs: the least k with k * 0.1 >= target. */
  function RampCount(target: real): (n: nat)
    ensures n == 0 <==> target <= 0.0
    ensures n > 0 ==> (n - 1) as real * DeltaPower < target <= n as real * DeltaPower
  {
    if target <= 0.0 then 0 else Ceil(target / DeltaPower)
  }

  /** The level `p` holds after the k-th pass (counting from 0) of the acceleration loop. */
  function RampLevel(target: real, k: int): real
  {
    MinReal((k + 1) as real * DeltaPower, target)
  }

  /** The levels written while accelerating to `target`. */
  function RampLevels(target: real): (ls: seq<real>)
    ensures |ls| == RampCount(target)
  {
    seq(RampCount(target), k => RampLevel(target, k))
  }

  /**
   * `p` strictly increases, never exceeds the target and ends equal to it; every level but
   * the last is a whole number of 0.1 steps.
   */
  lemma RampLevelsShape(target: real)
    ensures var ls := RampLevels(target);
      (forall i, j :: 0 <= i < j < |ls| ==> ls[i] < ls[j])
      && (forall i :: 0 <= i < |ls| ==> 0.0 < ls[i] <= target)
      && (forall i :: 0 <= i < |ls| - 1 ==> ls[i] == (i + 1) as real * DeltaPower)
      && (target > 0.0 ==> |ls| > 0 && ls[|ls| - 1] == target)
      && (target <= 0.0 ==> ls == [])
  {
    var ls := RampLevels(target);
    var n := RampCount(target);
    forall i | 0 <= i && i + 1 < n
      ensures ls[i] == (i + 1) as real * DeltaPower
    {
      assert (i + 1) as real * DeltaPower <= (n - 1) as real * DeltaPower;
    }
  }

  /** The pairs the acceleration loop writes for direction `d`, after `i` passes. */
  function RampTrace(d: char, target: real, i: nat): (t: seq<WheelPair>)
    ensures IsDirection(d) ==> |t| == i
    ensures !IsDirection(d) ==> t == []
  {
    if IsDirection(d) then seq(i, k => WheelValues(d, RampLevel(target, k)).value) else []
  }

  lemma RampTraceNext(d: char, target: real, i: nat)
    ensures RampTrace(d, target, i + 1) ==
      RampTrace(d, target, i) + (if IsDirection(d) then [WheelValues(d, RampLevel(target, i)).value] else [])
  {
  }

  // ---- stop(current_power) ----

  /** How many times `while power > 0` runs from `max(0, c)`. */
  function StopCount(c: real): (n: nat)
    ensures n == 0 <==> c <= 0.0
    ensures n > 0 ==> (n - 1) as real * DeltaPower < c <= n as real * DeltaPower
  {
    RampCount(c)
  }

  /** The forward levels `stop(c)` writes before stopping both motors. */
  function StopLevels(c: real): (ls: seq<real>)
    ensures |ls| == StopCount(c)
  {
    seq(StopCount(c), k => c - k as real * DeltaPower)
  }

  /**
   * The levels start at `current_power`, strictly decrease by 0.1 and stay positive; the
   * last is at most 0.1, so one more step reaches 0 and the loop ends. A power of 0 or
   * below writes no level at all.
   */
  lemma StopLevelsShape(c: real)
    ensures var ls := StopLevels(c);
      (forall i, j :: 0 <= i < j < |ls| ==> ls[i] > ls[j])
      && (forall i :: 0 <= i < |ls| ==> 0.0 < ls[i] <= c)
      && (forall i :: 0 <= i < |ls| - 1 ==> ls[i + 1] == ls[i] - DeltaPower)
      && (c > 0.0 ==> |ls| > 0 && ls[0] == c && ls[|ls| - 1] <= DeltaPower)
      && (c <= 0.0 ==> ls == [])
  {
    var ls := StopLevels(c);
    var n := StopCount(c);
    forall i | 0 <= i < n
      ensures 0.0 < ls[i]
    {
      assert i as real * DeltaPower <= (n - 1) as real * DeltaPower;
    }
  }

  /** `stop(c)` on existing motors: both wheels forward at each level, then both stopped. */
  function StopTrace(c: real): (t: seq<WheelPair>)
    ensures |t| == StopCount(c) + 1 && t[|t| - 1] == WheelPair(0.0, 0.0)
  {
    seq(StopCount(c), k => WheelPair(c - k as real * DeltaPower, c - k as real * DeltaPower)) + [WheelPair(0.0, 0.0)]
  }

  /** A `move` on existing motors: the acceleration loop, then `stop(target)` from `finally`. */
  function MoveTrace(d: char, power: real): seq<WheelPair>
  {
    RampTrace(d, Clamp(power), RampCount(Clamp(power))) + StopTrace(Clamp(power))
  }

  /**
   * `stop(target)` drives forward whatever the direction: after reversing at full power
   * the last ramp pair is (-1, -1) and the very next pair is (1, 1).
   */
  lemma StopAfterReverseDrivesForward()
    ensures var t := MoveTrace('s', 1.0);
      |t| == 21 && t[9] == WheelPair(-1.0, -1.0) && t[10] == WheelPair(1.0, 1.0)
  {
    assert RampCount(1.0) == 10;
    assert RampLevel(1.0, 9) == 1.0;
  }

  /** A letter outside w/s/a/d/q/e accelerates nothing, yet `stop(target)` still drives forward. */
  lemma UnknownDirectionDrivesForward(d: char, power: real)
    requires !IsDirection(d)
    ensures MoveTrace(d, power) == StopTrace(Clamp(power))
    ensures Clamp(power) > 0.0 ==> MoveTrace(d, power)[0] == WheelPair(Clamp(power), Clamp(power))
  {
  }

  /** What `check_stuck(1)` writes on working motors: three moves and a final `stop()` from 1.0. */
  function RecoveryTrace(): seq<WheelPair>
  {
    MoveTrace('s', 1.0) + MoveTrace('d', 1.0) + MoveTrace('w', 1.0) + StopTrace(1.0)
  }

  /**
   * After the three moves have already stopped the rover, the closing `stop()` starts a
   * second forward pulse at full power: ten falling levels from 1.0, then (0, 0).
   */
  lemma RecoveryEndsWithForwardPulse()
    ensures var t := RecoveryTrace();
      |t| == 74 && t[62] == WheelPair(0.0, 0.0) && t[63] == WheelPair(1.0, 1.0)
      && t[73] == WheelPair(0.0, 0.0)
  {
    assert RampCount(1.0) == 10;
    var t := RecoveryTrace();
    var m := MoveTrace('s', 1.0) + MoveTrace('d', 1.0) + MoveTrace('w', 1.0);
    assert |MoveTrace('w', 1.0)| == 21;
    assert t == m + StopTrace(1.0);
    assert |m| == 63;
    assert t[62] == MoveTrace('w', 1.0)[20];
  }

  /** The module state: the two motors, the LED and motor-enable (VM) pins, and the wheel values. */
  class Drive {
    /** `motor_right` and `motor_left` both exist. */
    var motors: bool
    /** `_gpio_initialized`. */
    var gpioReady: bool
    var vm: int
    var led: int
    var right: real
    var left: real
    /** Every wheel pair written, oldest first. */
    var trace: seq<WheelPair>

    /** Motors are only ever created together with the GPIO setup. */
    ghost predicate Valid()
      reads this
    {
      motors ==> gpioReady
    }

    constructor ()
      ensures Valid() && !motors && !gpioReady && vm == 0 && led == 0
      ensures right == 0.0 && left == 0.0 && trace == []
    {
      motors := false;
      gpioReady := false;
      vm := 0;
      led := 0;
      right := 0.0;
      left := 0.0;
      trace := [];
    }

    /** `setup_gpio`: on first use the LED and VM start low; later calls change nothing. */
    method SetupGpio()
      modifies this`gpioReady, this`vm, this`led
      ensures gpioReady
      ensures old(gpioReady) ==> vm == old(vm) && led == old(led)
      ensures !old(gpioReady) ==> vm == 0 && led == 0
    {
      if !gpioReady {
        led := 0;
        vm := 0;
        gpioReady := true;
      }
    }

    /**
     * `setup_motors`: existing motors are kept; otherwise creating them succeeds (new
     * motors at rest, GPIO set up) or leaves none. `succeeds` stands for the pigpio outcome.
     */
    method SetupMotors(succeeds: bool)
      requires Valid()
      modifies this`motors, this`gpioReady, this`vm, this`led, this`right, this`left
      ensures Valid()
      ensures motors == (old(motors) || succeeds)
      ensures gpioReady == (old(gpioReady) || motors)
      ensures old(gpioReady) || !gpioReady ==> vm == old(vm) && led == old(led)
      ensures !old(gpioReady) && gpioReady ==> vm == 0 && led == 0
      ensures old(motors) || !succeeds ==> right == old(right) && left == old(left)
      ensures !old(motors) && succeeds ==> right == 0.0 && left == 0.0
    {
      if motors {
        return;
      }
      if succeeds {
        motors := true;
        right := 0.0;
        left := 0.0;
        SetupGpio();
      }
    }

    method Write(w: WheelPair)
      modifies this`right, this`left, this`trace
      ensures right == w.right && left == w.left && trace == old(trace) + [w]
    {
      right := w.right;
      left := w.left;
      trace := trace + [w];
    }

    /**
     * `stop(current_power)`: without motors (after trying to create them) nothing; otherwise
     * both wheels forward at `max(0, current_power)`, lowered by 0.1 while above 0, then stopped.
     */
    method Stop(current: real, succeeds: bool)
      requires Valid()
      modifies this`motors, this`gpioReady, this`vm, this`led, this`right, this`left, this`trace
      ensures Valid()
      ensures motors == (old(motors) || succeeds)
      ensures gpioReady == (old(gpioReady) || motors)
      ensures old(gpioReady) || !gpioReady ==> vm == old(vm) && led == old(led)
      ensures !old(gpioReady) && gpioReady ==> vm == 0 && led == 0
      ensures !motors ==> trace == old(trace)
      ensures motors ==> trace == old(trace) + StopTrace(current) && right == 0.0 && left == 0.0
    {
      SetupMotors(succeeds);
      if !motors {
        return;
      }
      var power := MaxReal(0.0, current);
      var n := StopCount(current);
      var i := 0;
      while power > 0.0
        modifies this`right, this`left, this`trace
        invariant 0 <= i <= n
        invariant power == if i < n then current - i as real * DeltaPower else 0.0
        invariant trace == old(trace) + seq(i, k => WheelPair(current - k as real * DeltaPower, current - k as real * DeltaPower))
        decreases n - i
      {
        Write(WheelPair(power, power));
        power := MaxReal(0.0, power - DeltaPower);
        assert i + 1 < n ==> (i + 1) as real * DeltaPower <= (n - 1) as real * DeltaPower;
        i := i + 1;
      }
      Write(WheelPair(0.0, 0.0));
    }

    /** `while p < target`: raise `p` by 0.1, capped at the target, writing each level. */
    method Accelerate(d: char, target: real) returns (p: real)
      requires 0.0 <= target
      modifies this`right, this`left, this`trace
      ensures p == target
      ensures trace == old(trace) + RampTrace(d, target, RampCount(target))
    {
      var n := RampCount(target);
      p := 0.0;
      var i := 0;
      while p < target
        modifies this`right, this`left, this`trace
        invariant 0 <= i <= n
        invariant p == if i < n then i as real * DeltaPower else target
        invariant trace == old(trace) + RampTrace(d, target, i)
        decreases n - i
      {
        p := MinReal(target, p + DeltaPower);
        assert i + 1 < n ==> (i + 1) as real * DeltaPower <= (n - 1) as real * DeltaPower;
        assert p == RampLevel(target, i);
        RampTraceNext(d, target, i);
        SetLevel(d, p);
        i := i + 1;
      }
    }

    /** One pass of the `if direction == ...` chain: the pair for `d` at level `p`, if any. */
    method SetLevel(d: char, p: real)
      modifies this`right, this`left, this`trace
      ensures trace == old(trace) + (if IsDirection(d) then [WheelValues(d, p).value] else [])
    {
      if d == 'w' {
        Write(WheelPair(p, p));
      } else if d == 's' {
        Write(WheelPair(-p, -p));
      } else if d == 'a' {
        Write(WheelPair(p, -p));
      } else if d == 'd' {
        Write(WheelPair(-p, p));
      } else if d == 'q' {
        Write(WheelPair(p, 0.0));
      } else if d == 'e' {
        Write(WheelPair(0.0, p));
      }
    }

    /**
     * `move`: without motors return 0; otherwise enable VM, accelerate to the clamped power
     * and, from `finally`, `stop(target)`. It always returns 0; `duration` only sets a sleep,
     * and `inverted` and `stackCheck` are ignored.
     */
    method Move(direction: char, power: real, duration: real, inverted: bool, stackCheck: bool,
                succeeds: bool) returns (r: int)
      requires Valid()
      modifies this
      ensures Valid() && r == 0
      ensures motors == (old(motors) || succeeds)
      ensures !motors ==> trace == old(trace) && vm == old(vm) && led == old(led) && gpioReady == old(gpioReady)
      ensures motors ==> gpioReady && vm == 1 && right == 0.0 && left == 0.0
      ensures motors ==> trace == old(trace) + MoveTrace(direction, power)
      ensures old(gpioReady) ==> led == old(led)
    {
      SetupMotors(succeeds);
      if !motors {
        return 0;
      }
      SetupGpio();
      vm := 1;
      ghost var t0 := trace;
      var target := Clamp(power);
      var p := Accelerate(direction, target);
      Stop(target, succeeds);
      AppendAssoc(t0, RampTrace(direction, target, RampCount(target)), StopTrace(target));
      return 0;
    }

    /**
     * `check_stuck`: set up GPIO, and when `isStacked == 1` blink the LED twice, reverse for
     * 3 s, turn right for 1 s and go forward for 2 s at full power, then `stop()` from 1.0.
     */
    method CheckStuck(isStacked: int, inverted: bool, succeeds: bool)
      requires Valid()
      modifies this
      ensures Valid() && gpioReady
      ensures isStacked != 1 ==> trace == old(trace) && motors == old(motors)
      ensures isStacked == 1 ==> led == 0 && motors == (old(motors) || succeeds)
      ensures isStacked == 1 && !motors ==> trace == old(trace)
      ensures isStacked == 1 && motors ==>
        trace == old(trace) + RecoveryTrace() && vm == 1 && right == 0.0 && left == 0.0
    {
      SetupGpio();
      if isStacked != 1 {
        return;
      }
      for blink := 0 to 2
        modifies this`led
        invariant blink > 0 ==> led == 0
      {
        led := 1;
        led := 0;
      }
      ghost var t0 := trace;
      ghost var m1, m2, m3 := MoveTrace('s', 1.0), MoveTrace('d', 1.0), MoveTrace('w', 1.0);
      var r1 := Move('s', 1.0, 3.0, inverted, false, succeeds);
      ghost var t1 := trace;
      var r2 := Move('d', 1.0, 1.0, inverted, false, succeeds);
      ghost var t2 := trace;
      var r3 := Move('w', 1.0, 2.0, inverted, false, succeeds);
      ghost var t3 := trace;
      Stop(1.0, succeeds);
      if motors {
        assert t1 == t0 + m1 && t2 == t1 + m2 && t3 == t2 + m3;
        AppendAssoc(t0, m1, m2);
        AppendAssoc(t0, m1 + m2, m3);
        AppendAssoc(t0, m1 + m2 + m3, StopTrace(1.0));
      }
    }

    /**
     * `cleanup`: set up GPIO, drive LED and VM low, `stop()` (which may first create the
     * motors), then drop both motors. VM is already low while that `stop()` writes.
     */
    method Cleanup(succeeds: bool)
      requires Valid()
      modifies this
      ensures Valid() && gpioReady && vm == 0 && led == 0 && !motors
      ensures old(motors) || succeeds ==> trace == old(trace) + StopTrace(1.0) && right == 0.0 && left == 0.0
      ensures !old(motors) && !succeeds ==> trace == old(trace)
    {
      SetupGpio();
      led := 0;
      vm := 0;
      Stop(1.0, succeeds);
      motors := false;
    }
  }
}
