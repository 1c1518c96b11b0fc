/**
 * The SC-27 short-range script `kinkyori.py`. Phases 0, 1 and 2 are placeholders that
 * each move on at once, in separate `if`s, so the first pass of the loop already runs the
 * short-range block; phase 4 only reports. Here the camera flag is a declared global and
 * the range finder's failure count a local set to 0 before the loop.
 */
module MissionShort {
  import opened Common
  import opened MissionCommon

  /** What the camera and the range finder give during one pass. */
  datatype Inputs = Inputs(
    judge: Option<(real, int)>,         // `(relative_cone_x, camera_order)`, `None` when it raises
    defined: bool,                      // the range finder can be called
    ranges: seq<Option<real>>)          // its answers in cm

  datatype State = State(phase: nat, timeout: nat, camFrag: bool, order: Option<int>, actions: seq<Action>)

  predicate Valid(s: State)
  {
    s.phase <= 4 && (s.phase < 4 ==> s.timeout < 20)
  }

  function Start(): (s: State)
    ensures Valid(s)
  {
    State(0, 0, false, None, [])
  }

  /** The forward nudge of this script, in seconds. */
  const Nudge: real := 0.5

  /**
   * The short-range block, given the outcome of the order-4 block. Differs from the
   * flight script in the stop after the search turn and the longer nudge.
   */
  function ShortRange(s: State, judge: Option<(real, int)>, o: Outcome): State
    requires o.timeout.Some?
  {
    var x := if judge.Some? then judge.value.0 else 0.0;
    var order := if judge.Some? then Some(judge.value.1) else s.order;
    var s1 := s.(camFrag := true, order := order);
    if order.None? then s1
    else if order.value == 0 then s1.(actions := s.actions + [Move('d', 1.0, 0.2), Stop])
    else if order.value == 1 then s1.(actions := s.actions + [Move('w', 1.0, 0.5)])
    else if order.value == 2 then s1.(actions := s.actions + [Move('d', 1.0, Rotation(x))])
    else if order.value == 3 then s1.(actions := s.actions + [Move('a', 1.0, Rotation(x))])
    else if order.value == 4 then
      s1.(timeout := o.timeout.value, phase := if o.done then 4 else s.phase, actions := s.actions + o.moves)
    else s1
  }

  /**
   * One pass of the loop: the placeholder phases step 0 to 3 in a single pass, then the
   * short-range block runs when the phase is 3.
   */
  function Pass(s: State, inp: Inputs): (r: State)
    requires Valid(s)
    ensures Valid(r) && s.phase <= r.phase
    ensures s.phase < 3 ==> r.phase >= 3
    ensures r.phase == 4 ==> s.phase == 4 || r.timeout == 0 || r.timeout == 20 || !inp.defined
  {
    var p0 := if s.phase == 0 then 1 else s.phase;
    var p1 := if p0 == 1 then 2 else p0;
    var p2 := if p1 == 2 then 3 else p1;
    var s1 := s.(phase := p2);
    if p2 == 3 then ShortRange(s1, inp.judge, RangeOutcome(Some(s1.timeout), inp.defined, inp.ranges, Nudge))
    else s1
  }

  function Passes(s: State, inps: seq<Inputs>): (r: State)
    requires Valid(s)
    ensures Valid(r) && s.phase <= r.phase
  {
    if inps == [] then s else Pass(Passes(s, inps[..|inps| - 1]), inps[|inps| - 1])
  }

  /** One pass, with the order-4 block run as its loop. */
  method Step(s: State, inp: Inputs) returns (t: State)
    requires Valid(s)
    ensures t == Pass(s, inp)
  {
    var phase := s.phase;
    if phase == 0 {
      phase := 1;
    }
    if phase == 1 {
      phase := 2;
    }
    if phase == 2 {
      phase := 3;
    }
    t := s.(phase := phase);
    if phase == 3 {
      var o := RangeBlock(Some(t.timeout), inp.defined, inp.ranges, Nudge);
      t := ShortRange(t, inp.judge, o);
    }
  }

  method Run(inputs: seq<Inputs>) returns (s: State)
    ensures s == Passes(Start(), inputs)
  {
    s := Start();
    for i := 0 to |inputs|
      invariant Valid(s) && s == Passes(Start(), inputs[..i])
    {
      s := Step(s, inputs[i]);
      assert inputs[..i + 1][..i] == inputs[..i];
    }
    assert inputs[..|inputs|] == inputs;
  }

  /** The first pass starts the camera and acts on the first judgement. */
  lemma FirstPassIsShortRange(inp: Inputs)
    ensures Pass(Start(), inp).phase >= 3 && Pass(Start(), inp).camFrag
  {
  }

  /** A cone close enough and a range-finder answer under 60 cm end the phase in one pass. */
  lemma CloseConeEndsPhase(s: State, inp: Inputs, k: nat, d: real)
    requires Valid(s) && s.phase == 3
    requires inp.judge.Some? && inp.judge.value.1 == 4 && inp.defined
    requires k < Target(s.timeout) - s.timeout && d < 60.0
    requires forall j :: 0 <= j < k ==> ReadingAt(inp.ranges, j).None?
    requires ReadingAt(inp.ranges, k) == Some(d)
    ensures var r := Pass(s, inp);
      r.phase == 4 && r.timeout == 0 && r.actions == s.actions + [Move('w', 0.8, Nudge)]
  {
    FirstAnswerDecides(s.timeout, inp.ranges, Nudge, k, d);
  }

  /** Order 4 in two passes where the range finder never answers ends the phase. */
  lemma BlindRangingEndsPhase(s: State, a: Inputs, b: Inputs)
    requires Valid(s) && s.phase == 3
    requires a.judge.Some? && a.judge.value.1 == 4 && a.defined
    requires b.judge.Some? && b.judge.value.1 == 4 && b.defined
    requires forall j :: 0 <= j < |a.ranges| ==> a.ranges[j].None?
    requires forall j :: 0 <= j < |b.ranges| ==> b.ranges[j].None?
    ensures Passes(s, [a, b]).phase == 4
  {
    TwoBlindPassesEnd(s.timeout, a.ranges, b.ranges, Nudge);
    assert [a, b][..1] == [a];
    assert [a][..0] == [];
    var s1 := Pass(s, a);
    assert Passes(s, [a]) == s1;
    assert s1.phase == 4 || (s1.phase == 3
      && Some(s1.timeout) == RangeOutcome(Some(s.timeout), true, a.ranges, Nudge).timeout);
  }
}
