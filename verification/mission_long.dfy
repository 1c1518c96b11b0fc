/**
 * The SC-27 long-range script `enkyori.py`. Phase 0 moves on at once; phase 1 makes the
 * first 5 s advance; phase 2 steers toward the goal. `main` returns when the goal is within
 * 10 m or after 27 cycles without movement, and the script's entry point calls `main`
 * again for ever, which restarts at phase 0 with fresh locals. The movement counter is
 * assigned inside `main` without a `global` declaration, so it is a local of `main`,
 * unbound at each start (`None` here) until a cycle with movement sets it to 0.
 */
module MissionLong {
  import opened Common
  import opened MissionCommon
  import Bearing

  /** Why a call of `main` returned. */
  datatype Exit = Arrived | GaveUp

  /** What the GPS and the motors report during one cycle. */
  datatype Inputs = Inputs(
    raised: bool,                       // phases 1 and 2: the monitored 5 s advance raises
    course: Option<Bearing.Course>,     // phase 2: distance and angle to the goal
    stacked: bool,                      // phase 2: what the 5 s advance reports
    orient: Orientation,                // phase 2: the gravity check
    first: Option<Fix>,                 // phase 2: the position refresh's first read
    retries: seq<Option<Fix>>)          // phase 2: the reads of its retries

  /**
   * `repaired` says whether the position refresh retries into the current fix, as intended,
   * or into the start position, as written; `hung` that a refresh loop never returned.
   */
  datatype State = State(phase: nat, noMovement: Option<nat>, actions: seq<Action>, exits: seq<Exit>,
                         repaired: bool, hung: bool)

  /** Consecutive "not moved" courses after which `main` gives up. */
  const NoMovementLimit: nat := 27

  /** A call of `main`, after `exits` earlier calls that returned. */
  function Fresh(actions: seq<Action>, exits: seq<Exit>, repaired: bool): (s: State)
    ensures s.phase == 0 && s.noMovement.None? && !s.hung
  {
    State(0, None, actions, exits, repaired, false)
  }

  function Start(repaired: bool): State { Fresh([], [], repaired) }

  /** Whether the position refresh of this cycle would leave its loop. */
  predicate Fixed(s: State, inp: Inputs)
  {
    RefreshedFix(s.repaired, inp.first, inp.retries).Some?
  }

  /**
   * One cycle of `main`'s loop, with the entry point's next call of `main` folded in when
   * this one returns. Phase 1's advance ends the cycle in phase 1 when it raises. Phase 2
   * is as in the flight script, with 27 cycles for the standstill limit (reached before
   * the refresh) and a return from `main` in place of each move to phase 3.
   */
  function Cycle(s: State, inp: Inputs): (r: State)
    requires s.phase <= 2
    ensures r.phase <= 2 && r.repaired == s.repaired
    ensures |s.actions| <= |r.actions| && r.actions[..|s.actions|] == s.actions
    ensures r.exits == s.exits ==> s.phase <= r.phase <= s.phase + 1
    ensures r.exits != s.exits ==>
      s.phase == 2 && r.phase == 0 && r.noMovement.None? && |r.exits| == |s.exits| + 1 && r.exits[..|s.exits|] == s.exits
    ensures s.hung ==> r == s
  {
    if s.hung then s
    else if s.phase == 0 then s.(phase := 1)
    else if s.phase == 1 then
      if inp.raised then s.(actions := s.actions + [Move('w', 1.0, 5.0)])
      else s.(phase := 2, actions := s.actions + [Move('w', 1.0, 5.0), Stop])
    else
      match inp.course
      case None => s
      case Some(c) =>
        if c.distance == Bearing.ErrorDistance then
          match s.noMovement
          case None => s
          case Some(k) =>
            if k + 1 >= NoMovementLimit then Fresh(s.actions, s.exits + [GaveUp], s.repaired)
            else s.(noMovement := Some(k + 1), hung := !Fixed(s, inp))
        else if inp.raised then s.(noMovement := Some(0), actions := s.actions + Interrupted(c.angle))
        else
          var moved := s.(noMovement := Some(0), actions := s.actions + Advance(c.angle, inp.stacked, inp.orient));
          if inp.orient.Late? then moved
          else if !Fixed(s, inp) then moved.(hung := true)
          else if c.distance <= 10.0 then Fresh(moved.actions, s.exits + [Arrived], s.repaired)
          else moved
  }

  function Steps(s: State, inps: seq<Inputs>): (r: State)
    requires s.phase <= 2
    ensures r.phase <= 2 && r.repaired == s.repaired
    ensures |s.exits| <= |r.exits| && r.exits[..|s.exits|] == s.exits
  {
    if inps == [] then s
    else
      var p := Steps(s, inps[..|inps| - 1]);
      var r := Cycle(p, inps[|inps| - 1]);
      assert r.exits[..|s.exits|] == p.exits[..|s.exits|];
      r
  }

  /** The entry point's endless calls of `main`, over the cycles whose inputs are given. */
  method Run(repaired: bool, inputs: seq<Inputs>) returns (s: State)
    ensures s == Steps(Start(repaired), inputs)
  {
    s := Start(repaired);
    for i := 0 to |inputs|
      invariant s.phase <= 2 && s == Steps(Start(repaired), inputs[..i])
    {
      var inp := inputs[i];
      if s.hung {
      } else if s.phase == 0 {
        s := s.(phase := 1);
      } else if s.phase == 1 {
        if inp.raised {
          s := s.(actions := s.actions + [Move('w', 1.0, 5.0)]);
        } else {
          s := s.(phase := 2, actions := s.actions + [Move('w', 1.0, 5.0), Stop]);
        }
      } else if inp.course.Some? {
        var c := inp.course.value;
        if c.distance == Bearing.ErrorDistance {
          if s.noMovement.Some? {
            var count := s.noMovement.value + 1;
            if count >= NoMovementLimit {
              s := Fresh(s.actions, s.exits + [GaveUp], s.repaired);
            } else {
              var fix := RefreshLoop(s.repaired, inp.first, inp.retries);
              s := s.(noMovement := Some(count), hung := fix.None?);
            }
          }
        } else if inp.raised {
          s := s.(noMovement := Some(0), actions := s.actions + Interrupted(c.angle));
        } else {
          s := s.(noMovement := Some(0), actions := s.actions + Advance(c.angle, inp.stacked, inp.orient));
          if !inp.orient.Late? {
            var fix := RefreshLoop(s.repaired, inp.first, inp.retries);
            if fix.None? {
              s := s.(hung := true);
            } else if c.distance <= 10.0 {
              s := Fresh(s.actions, s.exits + [Arrived], s.repaired);
            }
          }
        }
      }
      assert inputs[..i + 1][..i] == inputs[..i];
    }
    assert inputs[..|inputs|] == inputs;
  }

  /**
   * A real course in phase 2 issues the steering commands, cut short when the advance
   * raises. `main` hangs exactly when the refresh runs and never gets its fix, and returns
   * with `Arrived` exactly when the goal is within 10 m, the advance returned, the gravity
   * check did not run late and the refresh got its fix.
   */
  lemma ArrivalWithinTenMetres(s: State, inp: Inputs)
    requires s.phase == 2 && !s.hung && inp.course.Some? && inp.course.value.distance != Bearing.ErrorDistance
    ensures var c := inp.course.value; var r := Cycle(s, inp);
      var arrives := c.distance <= 10.0 && !inp.raised && !inp.orient.Late? && Fixed(s, inp);
      r.actions == s.actions + (if inp.raised then Interrupted(c.angle) else Advance(c.angle, inp.stacked, inp.orient))
      && (r.exits == s.exits + [Arrived] <==> arrives)
      && (r.exits == s.exits <==> !arrives)
      && (r.hung <==> !inp.raised && !inp.orient.Late? && !Fixed(s, inp))
  {
  }

  /** A `main` whose refresh hung stays as it is, whatever the later cycles bring. */
  lemma {:induction false} HungIsFinal(s: State, inps: seq<Inputs>)
    requires s.phase <= 2 && s.hung
    ensures Steps(s, inps) == s
  {
    if inps != [] {
      HungIsFinal(s, inps[..|inps| - 1]);
    }
  }

  /**
   * As written, a first read without a fix in the refresh after a move that brings the goal
   * within 10 m means `main` never returns.
   */
  lemma FailedFirstReadNeverArrives(s: State, inp: Inputs, later: seq<Inputs>)
    requires s.phase == 2 && !s.hung && !s.repaired
    requires inp.course.Some? && inp.course.value.distance != Bearing.ErrorDistance
    requires inp.course.value.distance <= 10.0 && !inp.raised && !inp.orient.Late? && inp.first.None?
    ensures Steps(Cycle(s, inp), later).exits == s.exits
  {
    ArrivalWithinTenMetres(s, inp);
    HungIsFinal(Cycle(s, inp), later);
  }

  predicate NoMovementCourse(inp: Inputs)
  {
    inp.course.Some? && inp.course.value.distance == Bearing.ErrorDistance
  }

  lemma {:induction false} SentinelPrefix(s: State, k: nat, inps: seq<Inputs>, j: nat)
    requires s.phase == 2 && !s.hung && s.noMovement == Some(k) && k < NoMovementLimit
    requires j <= |inps| && j < NoMovementLimit - k
    requires forall i :: 0 <= i < |inps| ==> NoMovementCourse(inps[i])
    ensures Steps(s, inps[..j]).hung || Steps(s, inps[..j]) == s.(noMovement := Some(k + j))
    ensures (forall i :: 0 <= i < j ==> Fixed(s, inps[i])) ==> Steps(s, inps[..j]) == s.(noMovement := Some(k + j))
  {
    if j > 0 {
      SentinelPrefix(s, k, inps, j - 1);
      assert inps[..j][..j - 1] == inps[..j - 1];
      assert NoMovementCourse(inps[j - 1]);
    }
  }

  /**
   * From a bound counter `k`, `27 - k` cycles without movement make `main` give up and
   * restart, unless a refresh in one of the first `26 - k` hangs it; when those refreshes
   * get their fixes, it does give up.
   */
  lemma StandstillRestarts(s: State, k: nat, inps: seq<Inputs>)
    requires s.phase == 2 && !s.hung && s.noMovement == Some(k) && k < NoMovementLimit
    requires |inps| == NoMovementLimit - k
    requires forall i :: 0 <= i < |inps| ==> NoMovementCourse(inps[i])
    ensures Steps(s, inps).hung || Steps(s, inps) == Fresh(s.actions, s.exits + [GaveUp], s.repaired)
    ensures (forall i :: 0 <= i < |inps| - 1 ==> Fixed(s, inps[i])) ==>
      Steps(s, inps) == Fresh(s.actions, s.exits + [GaveUp], s.repaired)
  {
    var n := |inps| - 1;
    SentinelPrefix(s, k, inps, n);
    assert inps[..|inps|][..n] == inps[..n];
    assert inps[..|inps|] == inps;
    assert NoMovementCourse(inps[n]);
  }

  /** Until a cycle with movement binds the counter, cycles without movement change nothing. */
  lemma UnboundCounterIgnoresStandstill(s: State, inp: Inputs)
    requires s.phase == 2 && s.noMovement.None? && NoMovementCourse(inp)
    ensures Cycle(s, inp) == s
  {
  }
}
