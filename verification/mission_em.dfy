/**
 * The SC-27 flight script `EM.py`: one endless loop over phases 0 (waiting), 1 (falling),
 * 2 (long range), 3 (short range) and 4 (goal), each cycle wrapped in a handler that logs
 * and swallows any exception.
 *
 * `main`'s local variables are the `State`; every sensor reading, GPS course, camera
 * judgement and range-finder answer of a cycle is one `Inputs` value. `no_movement_count`,
 * `timeout_count` and `cam_flag` are assigned inside `main` without a `global` declaration,
 * so Python makes them locals of `main` that start unbound: they are `Option`s here, `None`
 * while unbound, and reading one while unbound raises and ends the cycle.
 */
module MissionEm {
  import opened Common
  import opened MissionCommon
  import Bearing

  /** One round of the falling check: linear acceleration and altitude, `None` when a read raises. */
  datatype Sample = Sample(accel: Option<(real, real, real)>, alt: Option<real>)

  /** What the sensors, GPS, camera and range finder give during one cycle. */
  datatype Inputs = Inputs(
    alt: Option<real>,                  // phase 0: altitude over the baseline
    samples: seq<Sample>,               // phase 1: the ten rounds
    raised: bool,                       // phases 1 and 2: the monitored 5 s advance raises
    course: Option<Bearing.Course>,     // phase 2: distance and angle to the goal
    stacked: bool,                      // phase 2: what the 5 s advance reports
    orient: Orientation,                // phase 2: the gravity check
    first: Option<Fix>,                 // phase 2: the position refresh's first read
    retries: seq<Option<Fix>>,          // phase 2: the reads of its retries
    judge: Option<(real, int)>,         // phase 3: `(relative_cone_x, camera_order)`
    defined: bool,                      // phase 3: the range finder can be called
    ranges: seq<Option<real>>)          // phase 3: its answers in cm

  datatype State = State(
    phase: nat,
    noMovement: Option<nat>,
    timeout: Option<nat>,
    camFlag: Option<bool>,
    order: Option<int>,                 // `camera_order`, kept from the last judgement
    actions: seq<Action>,
    repaired: bool,                     // the position refresh retries into the current fix
    hung: bool)                         // the position refresh's loop never returns

  /** The phase is 0..4 and the range finder's failure count is below 20 until the goal. */
  predicate Valid(s: State)
  {
    s.phase <= 4 && (s.phase < 4 && s.timeout.Some? ==> s.timeout.value < 20)
  }

  /**
   * The start of the script as its authors intend: the three counters are module-level
   * globals, and the position refresh retries into the current fix.
   */
  function Start(): (s: State)
    ensures Valid(s) && s.phase == 0 && s.repaired && !s.hung
  {
    State(0, Some(0), Some(0), Some(false), None, [], true, false)
  }

  /**
   * The start as the script is written: the three counters are unbound locals of `main`,
   * and the refresh retries into the start position.
   */
  function AsWrittenStart(): (s: State)
    ensures Valid(s) && s.phase == 0 && s.camFlag.None? && !s.repaired && !s.hung
  {
    State(0, None, None, None, None, [], false, false)
  }

  // ---------------------------------------------------------------------------------
  // Phase 0: waiting
  // ---------------------------------------------------------------------------------

  /** An altitude of 10 m or more starts the falling phase; a failed read changes nothing. */
  function Phase0(s: State, alt: Option<real>): (r: State)
    ensures r.phase == (if alt.Some? && alt.value >= 10.0 then 1 else s.phase)
    ensures r.(phase := s.phase) == s
  {
    if alt.Some? && alt.value >= 10.0 then s.(phase := 1) else s
  }

  // ---------------------------------------------------------------------------------
  // Phase 1: falling
  // ---------------------------------------------------------------------------------

  function SampleAt(samples: seq<Sample>, i: nat): Sample
  {
    if i < |samples| then samples[i] else Sample(None, None)
  }

  predicate Readable(x: Sample) { x.accel.Some? && x.alt.Some? }

  /** Landed-looking: summed absolute acceleration under 0.1 and altitude at most 0.1 m. */
  predicate Quiet(x: Sample)
  {
    Readable(x) && Abs(x.accel.value.0) + Abs(x.accel.value.1) + Abs(x.accel.value.2) < 0.1
    && x.alt.value <= 0.1
  }

  /** The rounds from `i` on that complete before a read raises, up to the tenth. */
  function ReadableFrom(samples: seq<Sample>, i: nat): (n: nat)
    requires i <= 10
    decreases 10 - i
    ensures i <= n <= 10
    ensures forall j :: i <= j < n ==> Readable(SampleAt(samples, j))
    ensures n < 10 ==> !Readable(SampleAt(samples, n))
  {
    if i == 10 || !Readable(SampleAt(samples, i)) then i else ReadableFrom(samples, i + 1)
  }

  /** The rounds of one phase-1 cycle that complete. */
  function Rounds(samples: seq<Sample>): nat { ReadableFrom(samples, 0) }

  /** `consecutive_count` after `n` rounds. */
  function Run(samples: seq<Sample>, n: nat): nat
  {
    if n == 0 then 0
    else if Quiet(SampleAt(samples, n - 1)) then Run(samples, n - 1) + 1
    else 0
  }

  /** Five quiet rounds ending just before round `k`. */
  predicate QuietRun(samples: seq<Sample>, k: nat)
  {
    k >= 5 && forall j :: k - 5 <= j < k ==> Quiet(SampleAt(samples, j))
  }

  /** The counter reaches `m` exactly when the last `m` rounds were all quiet. */
  lemma {:induction false} RunCountsQuietTail(samples: seq<Sample>, n: nat, m: nat)
    ensures Run(samples, n) >= m <==> m <= n && forall j :: n - m <= j < n ==> Quiet(SampleAt(samples, j))
  {
    if n > 0 && m > 0 {
      if Quiet(SampleAt(samples, n - 1)) {
        RunCountsQuietTail(samples, n - 1, m - 1);
      } else {
        assert !Quiet(SampleAt(samples, n - 1));
      }
    }
  }

  /** The rounds, among the first `n`, after which the counter stood at 5 or more. */
  function Triggers(samples: seq<Sample>, n: nat): nat
  {
    if n == 0 then 0 else Triggers(samples, n - 1) + (if Run(samples, n) >= 5 then 1 else 0)
  }

  lemma {:induction false} TriggersCountQuietRuns(samples: seq<Sample>, n: nat)
    ensures Triggers(samples, n) > 0 <==> exists k: nat :: k <= n && QuietRun(samples, k)
  {
    if n > 0 {
      TriggersCountQuietRuns(samples, n - 1);
      RunCountsQuietTail(samples, n, 5);
      if QuietRun(samples, n) {
        assert Run(samples, n) >= 5;
      }
      if exists k: nat :: k <= n && QuietRun(samples, k) {
        var k: nat :| k <= n && QuietRun(samples, k);
        if k == n {
          assert Run(samples, n) >= 5;
        }
      }
    }
  }

  /** A trigger never undoes an earlier one: the count only grows with the rounds. */
  lemma {:induction false} TriggersGrow(samples: seq<Sample>, m: nat, n: nat)
    requires m <= n
    ensures Triggers(samples, m) <= Triggers(samples, n)
  {
    if m < n {
      TriggersGrow(samples, m, n - 1);
    }
  }

  /** Cutting the nichrome wire, the first 5 s advance and the stop, once per trigger. */
  function Releases(k: nat): seq<Action>
  {
    if k == 0 then [] else Releases(k - 1) + [Move('w', 1.0, 5.0), Stop]
  }

  /**
   * One phase-1 cycle, as a function of its samples. When the first release's advance
   * raises, the cycle ends there: the phase stays 1 and the wheels are left driving.
   */
  function Phase1(s: State, samples: seq<Sample>, raised: bool): State
  {
    var k := Triggers(samples, Rounds(samples));
    if k > 0 && raised then s.(actions := s.actions + [Move('w', 1.0, 5.0)])
    else s.(phase := if k > 0 then 2 else s.phase, actions := s.actions + Releases(k))
  }

  /**
   * The falling phase ends exactly when five consecutive quiet rounds occur among the
   * rounds that complete and the advance after the release returns; a raising advance
   * leaves only its own move in the trace; otherwise the state is unchanged.
   */
  lemma FallEndsOnFiveQuietRounds(s: State, samples: seq<Sample>, raised: bool)
    requires s.phase == 1
    ensures Phase1(s, samples, raised).phase == 2 <==>
      !raised && exists k: nat :: k <= Rounds(samples) && QuietRun(samples, k)
    ensures raised && (exists k: nat :: k <= Rounds(samples) && QuietRun(samples, k)) ==>
      Phase1(s, samples, raised) == s.(actions := s.actions + [Move('w', 1.0, 5.0)])
    ensures !(exists k: nat :: k <= Rounds(samples) && QuietRun(samples, k)) ==> Phase1(s, samples, raised) == s
  {
    TriggersCountQuietRuns(samples, Rounds(samples));
  }

  /** The ten-round loop of the falling phase. */
  method FallingCycle(s: State, samples: seq<Sample>, raised: bool) returns (t: State)
    ensures t == Phase1(s, samples, raised)
  {
    t := s;
    var consecutive := 0;
    var i := 0;
    while i < 10 && Readable(SampleAt(samples, i))
      invariant i <= Rounds(samples)
      invariant consecutive == Run(samples, i)
      invariant raised ==> Triggers(samples, i) == 0
      invariant t == s.(phase := if Triggers(samples, i) > 0 then 2 else s.phase,
                        actions := s.actions + Releases(Triggers(samples, i)))
    {
      var x := SampleAt(samples, i);
      var (ax, ay, az) := x.accel.value;
      if Abs(ax) + Abs(ay) + Abs(az) < 0.1 && x.alt.value <= 0.1 {
        consecutive := consecutive + 1;
      } else {
        consecutive := 0;
      }
      if consecutive >= 5 {
        if raised {
          TriggersGrow(samples, i + 1, Rounds(samples));
          return s.(actions := s.actions + [Move('w', 1.0, 5.0)]);
        }
        t := t.(actions := t.actions + [Move('w', 1.0, 5.0), Stop], phase := 2);
      }
      i := i + 1;
    }
  }

  // ---------------------------------------------------------------------------------
  // Phase 2: long range
  // ---------------------------------------------------------------------------------

  /** Consecutive "not moved" courses that force the short-range phase. */
  const NoMovementLimit: nat := 20

  /** Whether the position refresh of this cycle would leave its loop. */
  predicate Fixed(s: State, inp: Inputs)
  {
    RefreshedFix(s.repaired, inp.first, inp.retries).Some?
  }

  /**
   * One long-range cycle; `fixed` says whether the position refresh leaves its loop. The
   * sentinel distance counts a cycle without movement (raising while the counter is
   * unbound); any other course resets the counter and steers. An advance that raises ends
   * the cycle. A late gravity check `continue`s before the refresh; otherwise the refresh
   * runs, and a refresh that never leaves its loop hangs the flight. After it, 10 m or less
   * starts the short-range phase.
   */
  function Phase2(s: State, inp: Inputs, fixed: bool): State
  {
    match inp.course
    case None => s
    case Some(c) =>
      if c.distance == Bearing.ErrorDistance then
        match s.noMovement
        case None => s
        case Some(k) =>
          s.(noMovement := Some(k + 1), phase := if k + 1 >= NoMovementLimit then 3 else s.phase, hung := !fixed)
      else if inp.raised then s.(noMovement := Some(0), actions := s.actions + Interrupted(c.angle))
      else
        var moved := s.(noMovement := Some(0), actions := s.actions + Advance(c.angle, inp.stacked, inp.orient));
        if inp.orient.Late? then moved
        else if !fixed then moved.(hung := true)
        else moved.(phase := if c.distance <= 10.0 then 3 else s.phase)
  }

  /**
   * A real course resets the counter and steers, the steering cut short when the advance
   * raises. The flight hangs exactly when the refresh runs and never gets its fix, and the
   * phase ends exactly when the goal is within 10 m, the advance returned, the gravity
   * check did not run late and the refresh got its fix.
   */
  lemma ArrivalWithinTenMetres(s: State, inp: Inputs)
    requires Valid(s) && s.phase == 2 && !s.hung
    requires inp.course.Some? && inp.course.value.distance != Bearing.ErrorDistance
    ensures var c := inp.course.value; var r := Cycle(s, inp);
      r.noMovement == Some(0)
      && r.actions == s.actions + (if inp.raised then Interrupted(c.angle) else Advance(c.angle, inp.stacked, inp.orient))
      && (r.hung <==> !inp.raised && !inp.orient.Late? && !Fixed(s, inp))
      && (r.phase == 3 <==> c.distance <= 10.0 && !inp.raised && !inp.orient.Late? && Fixed(s, inp))
  {
  }

  // ---------------------------------------------------------------------------------
  // Phase 3: short range
  // ---------------------------------------------------------------------------------

  /**
   * One short-range cycle, given the outcome of the order-4 block. Reading the unbound
   * camera flag raises; a judgement that raises leaves the offset 0 and the previous
   * order, and no previous order raises. Orders 0..3 search, advance, or turn right or
   * left by the offset; order 4 runs the range finder.
   */
  function Phase3(s: State, judge: Option<(real, int)>, o: Outcome): State
  {
    if s.camFlag.None? then s
    else
      var x := if judge.Some? then judge.value.0 else 0.0;
      var order := if judge.Some? then Some(judge.value.1) else s.order;
      var s1 := s.(camFlag := Some(true), order := order);
      if order.None? then s1
      else if order.value == 0 then s1.(actions := s.actions + [Move('d', 1.0, 0.2)])
      else if order.value == 1 then s1.(actions := s.actions + [Move('w', 1.0, 0.5)])
      else if order.value == 2 then s1.(actions := s.actions + [Move('d', 1.0, Rotation(x))])
      else if order.value == 3 then s1.(actions := s.actions + [Move('a', 1.0, Rotation(x))])
      else if order.value == 4 then
        s1.(timeout := o.timeout, phase := if o.done then 4 else s.phase, actions := s.actions + o.moves)
      else s1
  }

  /** The forward nudge of the short-range phase, in seconds. */
  const Nudge: real := 0.1

  // ---------------------------------------------------------------------------------
  // The main loop
  // ---------------------------------------------------------------------------------

  /** One pass of the main loop: the current phase's block; phase 4 only reports. */
  function Cycle(s: State, inp: Inputs): (r: State)
    requires Valid(s)
    ensures Valid(r) && r.repaired == s.repaired
    ensures s.phase <= r.phase <= s.phase + 1
    ensures s.hung ==> r == s
  {
    if s.hung then s
    else if s.phase == 0 then Phase0(s, inp.alt)
    else if s.phase == 1 then Phase1(s, inp.samples, inp.raised)
    else if s.phase == 2 then Phase2(s, inp, Fixed(s, inp))
    else if s.phase == 3 then Phase3(s, inp.judge, RangeOutcome(s.timeout, inp.defined, inp.ranges, Nudge))
    else s
  }

  /** The loop over a sequence of cycles: the phase never goes back and gains at most one per cycle. */
  function Steps(s: State, inps: seq<Inputs>): (r: State)
    requires Valid(s)
    ensures Valid(r)
    ensures s.phase <= r.phase <= s.phase + |inps|
  {
    if inps == [] then s else Cycle(Steps(s, inps[..|inps| - 1]), inps[|inps| - 1])
  }

  /** One pass of `main`'s loop. */
  method Step(s: State, inp: Inputs) returns (t: State)
    requires Valid(s)
    ensures t == Cycle(s, inp)
  {
    if s.hung {
      t := s;
    } else if s.phase == 0 {
      t := Phase0(s, inp.alt);
    } else if s.phase == 1 {
      t := FallingCycle(s, inp.samples, inp.raised);
    } else if s.phase == 2 {
      var fix := RefreshLoop(s.repaired, inp.first, inp.retries);
      t := Phase2(s, inp, fix.Some?);
    } else if s.phase == 3 {
      var o := RangeBlock(s.timeout, inp.defined, inp.ranges, Nudge);
      t := Phase3(s, inp.judge, o);
    } else {
      t := s;
    }
  }

  /** `main`'s loop over the cycles whose inputs are given. */
  method Flight(inputs: seq<Inputs>) returns (s: State)
    ensures s == Steps(Start(), inputs)
  {
    s := Start();
    for i := 0 to |inputs|
      invariant Valid(s) && s == Steps(Start(), inputs[..i])
    {
      s := Step(s, inputs[i]);
      StepsSnoc(Start(), inputs, i);
    }
    assert inputs[..|inputs|] == inputs;
  }

  /** One more cycle extends the loop by that cycle. */
  lemma StepsSnoc(s: State, inps: seq<Inputs>, i: nat)
    requires Valid(s) && i < |inps|
    ensures Steps(s, inps[..i + 1]) == Cycle(Steps(s, inps[..i]), inps[i])
  {
    assert inps[..i + 1][..i] == inps[..i];
  }

  // ---------------------------------------------------------------------------------
  // Properties over several cycles
  // ---------------------------------------------------------------------------------

  predicate NoMovementCourse(inp: Inputs)
  {
    inp.course.Some? && inp.course.value.distance == Bearing.ErrorDistance
  }

  /** The state after `j` cycles without movement from a bound counter `k`, none of them hanging. */
  function Standstill(s: State, k: nat, j: nat): State
  {
    s.(noMovement := Some(k + j), phase := if k + j >= NoMovementLimit then 3 else 2)
  }

  /**
   * One more cycle without movement after `j` of them: a hung state stays hung, and a
   * standstill state counts one more, hanging only when its refresh gets no fix.
   */
  lemma SentinelStep(s: State, k: nat, j: nat, prev: State, inp: Inputs)
    requires Valid(s) && s.phase == 2 && !s.hung && s.noMovement == Some(k) && k + j < NoMovementLimit
    requires Valid(prev) && (prev.hung || prev == Standstill(s, k, j)) && NoMovementCourse(inp)
    ensures Cycle(prev, inp).hung || Cycle(prev, inp) == Standstill(s, k, j + 1)
    ensures prev == Standstill(s, k, j) && Fixed(s, inp) ==> Cycle(prev, inp) == Standstill(s, k, j + 1)
  {
  }

  /** `j` cycles without movement from a bound counter `k` hang or reach the standstill state. */
  lemma {:induction false} SentinelPrefix(s: State, k: nat, inps: seq<Inputs>)
    requires Valid(s) && s.phase == 2 && !s.hung && s.noMovement == Some(k) && k < NoMovementLimit
    requires |inps| <= NoMovementLimit - k
    requires forall i :: 0 <= i < |inps| ==> NoMovementCourse(inps[i])
    ensures Steps(s, inps).hung || Steps(s, inps) == Standstill(s, k, |inps|)
    ensures (forall i :: 0 <= i < |inps| ==> Fixed(s, inps[i])) ==> Steps(s, inps) == Standstill(s, k, |inps|)
  {
    if inps != [] {
      var init := inps[..|inps| - 1];
      SentinelPrefix(s, k, init);
      SentinelStep(s, k, |init|, Steps(s, init), inps[|inps| - 1]);
    }
  }

  /**
   * From a bound counter `k`, `20 - k` cycles without movement end the long-range phase,
   * unless a position refresh among them hangs the flight; when every refresh gets its
   * fix, they do end it.
   */
  lemma NoMovementForcesShortRange(s: State, k: nat, inps: seq<Inputs>)
    requires Valid(s) && s.phase == 2 && !s.hung && s.noMovement == Some(k) && k < NoMovementLimit
    requires |inps| == NoMovementLimit - k
    requires forall i :: 0 <= i < |inps| ==> NoMovementCourse(inps[i])
    ensures Steps(s, inps).phase == 3 || Steps(s, inps).hung
    ensures (forall i :: 0 <= i < |inps| ==> Fixed(s, inps[i])) ==> Steps(s, inps).phase == 3 && !Steps(s, inps).hung
  {
    SentinelPrefix(s, k, inps);
  }

  /** A cycle without movement while the counter is still unbound changes nothing. */
  lemma UnboundCounterIgnoresStandstill(s: State, inp: Inputs)
    requires Valid(s) && s.phase == 2 && s.noMovement.None? && NoMovementCourse(inp)
    ensures Cycle(s, inp) == s
  {
  }

  /** Order 4 in two cycles where the range finder never answers ends the short-range phase. */
  lemma BlindRangingEndsShortRange(s: State, a: Inputs, b: Inputs)
    requires Valid(s) && s.phase == 3 && !s.hung && s.camFlag.Some? && s.timeout.Some?
    requires a.judge.Some? && a.judge.value.1 == 4 && a.defined
    requires b.judge.Some? && b.judge.value.1 == 4 && b.defined
    requires forall j :: 0 <= j < |a.ranges| ==> a.ranges[j].None?
    requires forall j :: 0 <= j < |b.ranges| ==> b.ranges[j].None?
    ensures Steps(s, [a, b]).phase == 4
  {
    TwoBlindPassesEnd(s.timeout.value, a.ranges, b.ranges, Nudge);
    assert [a, b][..1] == [a];
    assert [a][..0] == [];
    var s1 := Cycle(s, a);
    assert Steps(s, [a]) == s1;
    assert s1.phase == 4 || (s1.phase == 3 && s1.camFlag.Some?
      && s1.timeout == RangeOutcome(s.timeout, true, a.ranges, Nudge).timeout);
  }

  /** A hung flight stays as it is, whatever the later cycles bring. */
  lemma {:induction false} HungIsFinal(s: State, inps: seq<Inputs>)
    requires Valid(s) && s.hung
    ensures Steps(s, inps) == s
  {
    if inps != [] {
      HungIsFinal(s, inps[..|inps| - 1]);
    }
  }

  /**
   * As written, a first read without a fix in the refresh after a move that brings the goal
   * within 10 m keeps the flight in phase 2 for good.
   */
  lemma FailedFirstReadStallsFlight(s: State, inp: Inputs, later: seq<Inputs>)
    requires Valid(s) && s.phase == 2 && !s.hung && !s.repaired
    requires inp.course.Some? && inp.course.value.distance != Bearing.ErrorDistance
    requires inp.course.value.distance <= 10.0 && !inp.raised && !inp.orient.Late? && inp.first.None?
    ensures Steps(Cycle(s, inp), later).phase == 2
  {
    ArrivalWithinTenMetres(s, inp);
    HungIsFinal(Cycle(s, inp), later);
  }

  /** Repaired, the same move starts the short-range phase as soon as one retry gets a fix. */
  lemma RetriedFixStartsShortRange(s: State, inp: Inputs, i: nat)
    requires Valid(s) && s.phase == 2 && !s.hung && s.repaired
    requires inp.course.Some? && inp.course.value.distance != Bearing.ErrorDistance
    requires inp.course.value.distance <= 10.0 && !inp.raised && !inp.orient.Late?
    requires i < |inp.retries| && inp.retries[i].Some?
    ensures Cycle(s, inp).phase == 3
  {
    ArrivalWithinTenMetres(s, inp);
    assert FirstFix(inp.first, inp.retries).Some?;
  }

  /** As written, the camera flag stays unbound and the goal phase is never reached. */
  lemma {:induction false} UnboundFlagNeverReachesGoal(s: State, inps: seq<Inputs>)
    requires Valid(s) && s.camFlag.None? && s.phase <= 3
    ensures Steps(s, inps).camFlag.None? && Steps(s, inps).phase <= 3
  {
    if inps != [] {
      UnboundFlagNeverReachesGoal(s, inps[..|inps| - 1]);
    }
  }

  /** With the counters as globals, a flight can end in the goal phase. */
  lemma FlightReachesGoal()
    ensures exists inps :: |inps| == 4 && Steps(Start(), inps).phase == 4
  {
    var quiet := Sample(Some((0.0, 0.0, 0.0)), Some(0.0));
    var samples := [quiet, quiet, quiet, quiet, quiet];
    var idle := Inputs(None, [], false, None, false, Upright, Some((0.0, 0.0)), [], None, true, []);
    var i0 := idle.(alt := Some(10.0));
    var i1 := idle.(samples := samples);
    var i2 := idle.(course := Some(Bearing.Course(5.0, 0.0)));
    var i3 := idle.(judge := Some((0.0, 4)), ranges := [Some(30.0)]);
    var s1 := Cycle(Start(), i0);
    assert s1.phase == 1;
    assert Rounds(samples) == 5;
    assert QuietRun(samples, 5);
    FallEndsOnFiveQuietRounds(s1, samples, false);
    var s2 := Cycle(s1, i1);
    assert s2.phase == 2 && s2.camFlag == Some(false);
    var s3 := Cycle(s2, i2);
    assert s3.phase == 3;
    FirstAnswerDecides(0, i3.ranges, Nudge, 0, 30.0);
    var s4 := Cycle(s3, i3);
    assert s4.phase == 4;
    var inps := [i0, i1, i2, i3];
    assert inps[..3] == [i0, i1, i2] && [i0, i1, i2][..2] == [i0, i1] && [i0, i1][..1] == [i0];
    assert Steps(Start(), [i0]) == s1 by { assert [i0][..0] == []; }
    assert Steps(Start(), [i0, i1]) == s2;
    assert Steps(Start(), [i0, i1, i2]) == s3;
    assert Steps(Start(), inps) == s4;
  }
}
