/**
 * The chatGPT copy of the SC-28 `camera.py`: the steering order computed from the red
 * blob and the cone detector, the detector throttle and the class-name filter.
 *
 * Image processing is replaced by its numeric outputs: one captured frame is its size,
 * the largest red contour (area and bounding rectangle) and the detector's boxes.
 */
module CameraChat {
  import opened Common

  type Positive = n: int | n >= 1 witness 1

  /** The largest red contour: its area and the x and width of its bounding rectangle. */
  datatype Blob = Blob(area: real, x: int, w: nat)

  /** A detector box: corners, confidence and class as the detector reports them (floats). */
  datatype Box = Box(xmin: real, ymin: real, xmax: real, ymax: real, conf: real, cls: real)

  /** What one capture yields; `biggest` is `None` when no contour was found. */
  datatype Shot = Shot(width: nat, height: nat, biggest: Option<Blob>, boxes: seq<Box>)

  /** `(target_x_percent, camera_order, red_area)`; the frame itself is not modelled. */
  datatype Detection = Detection(x: real, order: int, area: real)

  const NoDetection: Detection := Detection(0.0, 0, 0.0)

  /** The model's class names: missing, a dict `{id: name}` in iteration order, a list, or something else. */
  datatype Names = Absent | Dict(entries: seq<(int, string)>) | List(items: seq<string>) | Other

  /** The camera settings fixed by the constructor. */
  datatype Config = Config(model: bool, yoloEvery: Positive, targetClass: string, names: Names,
                           confMin: real, redMin: real, redMax: real)

  // ---- `_decide_direction` ----

  /** 1 (straight) inside the ±25 % band, 2 (right) beyond it, 3 (left) below it; never 0. */
  function DecideDirection(x: real): (order: int)
    ensures order == 1 <==> -0.25 <= x <= 0.25
    ensures order == 2 <==> x > 0.25
    ensures order == 3 <==> x < -0.25
    ensures order != 0
  {
    if -0.25 <= x <= 0.25 then 1
    else if x > 0.25 then 2
    else if x < -0.25 then 3
    else 0
  }

  /** `max(-0.5, min(0.5, x))`. */
  function ClampHalf(x: real): (r: real)
    ensures -0.5 <= r <= 0.5
    ensures r == x <==> -0.5 <= x <= 0.5
  {
    MaxReal(-0.5, MinReal(0.5, x))
  }

  /** `(cx - width // 2) / float(width)`. */
  function Offset(cx: int, width: nat): real
    requires width > 0
  {
    (cx - width / 2) as real / width as real
  }

  /** Steer towards column `cx`: the clamped offset and the order it decides. */
  function Steer(cx: int, width: nat, area: real): (d: Detection)
    requires width > 0
    ensures -0.5 <= d.x <= 0.5 && d.order in {1, 2, 3} && d.area == area
    ensures d.order == DecideDirection(d.x)
  {
    var x := ClampHalf(Offset(cx, width));
    Detection(x, DecideDirection(x), area)
  }

  // ---- the red blob ----

  /** Only a contour larger than 20 px counts as the red area. */
  predicate Counts(s: Shot) { s.biggest.Some? && s.biggest.value.area > 20.0 }

  function RedArea(s: Shot): (a: real)
    ensures Counts(s) ==> a == s.biggest.value.area
    ensures !Counts(s) ==> a == 0.0
    ensures a == 0.0 || a > 20.0
  {
    if Counts(s) then s.biggest.value.area else 0.0
  }

  /** The bounding rectangle's centre column, or the frame centre when no contour counts. */
  function RedCenterX(s: Shot): int
  {
    if Counts(s) then s.biggest.value.x + s.biggest.value.w / 2 else s.width / 2
  }

  function RedPercent(s: Shot): real
    requires s.width * s.height > 0
  {
    RedArea(s) / (s.width * s.height) as real
  }

  // ---- `_get_yolo_class_ids` ----

  function LowerChar(c: char): char { if 'A' <= c <= 'Z' then (c as int + 32) as char else c }

  /**
   * `s.lower()` on ASCII letters: the length is kept, no capital A-Z is left, and exactly
   * the capitals change, each to its small letter.
   */
  function Lower(s: string): (t: string)
    ensures |t| == |s|
    ensures forall i :: 0 <= i < |s| ==> !('A' <= t[i] <= 'Z')
    ensures forall i :: 0 <= i < |s| ==> (t[i] == s[i] <==> !('A' <= s[i] <= 'Z'))
    ensures forall i :: 0 <= i < |s| && 'A' <= s[i] <= 'Z' ==> t[i] as int - s[i] as int == 'a' as int - 'A' as int
  {
    seq(|s|, i requires 0 <= i < |s| => LowerChar(s[i]))
  }

  /** `str(v).strip().lower()`. */
  function Norm(s: string): string { Lower(Strip(s)) }

  /** The dict ids whose name matches `t`, in iteration order. */
  function DictMatches(es: seq<(int, string)>, t: string): seq<int>
  {
    if es == [] then []
    else DictMatches(es[..|es| - 1], t) + (if Norm(es[|es| - 1].1) == t then [es[|es| - 1].0] else [])
  }

  /** The list positions whose name matches `t`, ascending. */
  function ListMatches(vs: seq<string>, t: string): seq<int>
  {
    if vs == [] then []
    else ListMatches(vs[..|vs| - 1], t) + (if Norm(vs[|vs| - 1]) == t then [|vs| - 1] else [])
  }

  /** An id is collected exactly when some entry carries it under a matching name. */
  lemma {:induction false} DictMatchesMeaning(es: seq<(int, string)>, t: string, k: int)
    ensures k in DictMatches(es, t) <==> exists i :: 0 <= i < |es| && es[i].0 == k && Norm(es[i].1) == t
  {
    if es != [] {
      var init := es[..|es| - 1];
      DictMatchesMeaning(init, t, k);
      if k in DictMatches(init, t) {
        var i :| 0 <= i < |init| && init[i].0 == k && Norm(init[i].1) == t;
        assert es[i] == init[i];
      }
      if exists i :: 0 <= i < |es| && es[i].0 == k && Norm(es[i].1) == t {
        var i :| 0 <= i < |es| && es[i].0 == k && Norm(es[i].1) == t;
        if i < |es| - 1 {
          assert init[i] == es[i];
        }
      }
    }
  }

  /** A position is collected exactly when the name there matches, each once and in ascending order. */
  lemma {:induction false} ListMatchesMeaning(vs: seq<string>, t: string)
    ensures forall i :: i in ListMatches(vs, t) <==> 0 <= i < |vs| && Norm(vs[i]) == t
    ensures forall a, b :: 0 <= a < b < |ListMatches(vs, t)| ==> ListMatches(vs, t)[a] < ListMatches(vs, t)[b]
  {
    if vs != [] {
      var init := vs[..|vs| - 1];
      ListMatchesMeaning(init, t);
      forall i | 0 <= i < |init|
        ensures init[i] == vs[i]
      {
      }
      var m := ListMatches(init, t);
      forall a | 0 <= a < |m|
        ensures m[a] < |vs| - 1
      {
        assert m[a] in m;
      }
    }
  }

  /** `ids if ids else None`. */
  function NonEmpty(ids: seq<int>): Option<seq<int>> { if ids == [] then None else Some(ids) }

  /** The ids whose class name equals the target, ignoring case and surrounding white space. */
  function ClassIds(model: bool, names: Names, target: string): (r: Option<seq<int>>)
    ensures r.Some? ==> r.value != []
    ensures !model || names.Absent? || names.Other? ==> r.None?
  {
    if !model then None
    else match names
      case Absent => None
      case Other => None
      case Dict(es) => NonEmpty(DictMatches(es, Norm(target)))
      case List(vs) => NonEmpty(ListMatches(vs, Norm(target)))
  }

  /** The ids the box filter uses: the matching ids, or `[0]` when there are none. */
  function TargetIds(c: Config): seq<int>
  {
    match ClassIds(c.model, c.names, c.targetClass)
    case None => [0]
    case Some(ids) => ids
  }

  // ---- the detector box ----

  /** `np.argmax`: the first index holding the largest value. */
  function FirstArgmax(cs: seq<real>): (i: nat)
    requires |cs| > 0
    ensures i < |cs|
    ensures forall j :: 0 <= j < |cs| ==> cs[j] <= cs[i]
    ensures forall j :: 0 <= j < i ==> cs[j] < cs[i]
  {
    if |cs| == 1 then 0
    else
      var k := FirstArgmax(cs[1..]) + 1;
      if cs[0] >= cs[k] then 0 else k
  }

  predicate ValidBox(b: Box, ids: seq<int>, confMin: real) { Trunc(b.cls) in ids && b.conf >= confMin }

  /** `boxes[valid_mask]`: the valid boxes, in detector order. */
  function ValidBoxes(boxes: seq<Box>, ids: seq<int>, confMin: real): (v: seq<Box>)
    ensures forall b :: b in v <==> b in boxes && ValidBox(b, ids, confMin)
  {
    if boxes == [] then []
    else (if ValidBox(boxes[0], ids, confMin) then [boxes[0]] else []) + ValidBoxes(boxes[1..], ids, confMin)
  }

  /**
   * The chosen box: the valid box of highest confidence, the first of them in detector
   * order on a tie; `None` when no box is valid.
   */
  function Pick(boxes: seq<Box>, ids: seq<int>, confMin: real): (r: Option<Box>)
    ensures r.None? <==> forall b :: b in boxes ==> !ValidBox(b, ids, confMin)
    ensures r.Some? ==> r.value in boxes && ValidBox(r.value, ids, confMin)
    ensures r.Some? ==> forall b :: b in boxes && ValidBox(b, ids, confMin) ==> b.conf <= r.value.conf
  {
    var v := ValidBoxes(boxes, ids, confMin);
    if v == [] then None
    else
      var cs := seq(|v|, k requires 0 <= k < |v| => v[k].conf);
      var i := FirstArgmax(cs);
      assert v[0] in v;
      assert forall b :: b in boxes && ValidBox(b, ids, confMin) ==> b.conf <= v[i].conf by {
        forall b | b in boxes && ValidBox(b, ids, confMin)
          ensures b.conf <= v[i].conf
        {
          var k :| 0 <= k < |v| && v[k] == b;
          assert cs[k] <= cs[i];
        }
      }
      Some(v[i])
  }

  /** `(int(xmin) + int(xmax)) // 2`. */
  function BoxCenterX(b: Box): int { (Trunc(b.xmin) + Trunc(b.xmax)) / 2 }

  // ---- the decision ----

  /** The detector runs only with a model, on every `yoloEvery`-th frame, and in the far red band. */
  predicate RunYolo(c: Config, frameCount: nat, p: real)
  {
    c.model && frameCount % c.yoloEvery == 0 && c.redMin <= p < c.redMax
  }

  /**
   * The decision of `capture_and_detect` on a captured frame, `frameCount` being the
   * counter after its increment. A zero-sized frame makes the area division raise, which
   * the handler turns into order 0 and x = 0.0.
   */
  function Judge(c: Config, frameCount: nat, s: Shot): (d: Detection)
    ensures -0.5 <= d.x <= 0.5 && 0 <= d.order <= 4
    ensures d.order == 0 ==> d.x == 0.0
    ensures s.width * s.height == 0 ==> d == NoDetection
    ensures s.width * s.height > 0 ==> d.area == RedArea(s) && (d.order == 4 <==> RedPercent(s) > 0.3)
    ensures s.width * s.height > 0 && RedPercent(s) > 0.3 ==> d.x == 0.0
    ensures s.width * s.height > 0 && 0.05 < RedPercent(s) <= 0.3 ==> d == Steer(RedCenterX(s), s.width, RedArea(s))
    ensures s.width * s.height > 0 && RedPercent(s) <= 0.3 && !RunYolo(c, frameCount, RedPercent(s)) ==>
      (d.order == 0 <==> RedPercent(s) <= 0.001)
  {
    if s.width * s.height == 0 then NoDetection
    else
      var p := RedPercent(s);
      var area := RedArea(s);
      if p > 0.3 then Detection(0.0, 4, area)
      else if p > 0.05 then Steer(RedCenterX(s), s.width, area)
      else
        var hit := if RunYolo(c, frameCount, p) then Pick(s.boxes, TargetIds(c), c.confMin) else None;
        if hit.Some? then Steer(BoxCenterX(hit.value), s.width, area)
        else if p > 0.001 then Steer(RedCenterX(s), s.width, area)
        else Detection(0.0, 0, area)
  }

  /** A detector hit in the far band steers by that box's centre, overriding the red centroid. */
  lemma YoloHitSteers(c: Config, n: nat, s: Shot)
    requires s.width * s.height > 0 && RedPercent(s) <= 0.05 && RunYolo(c, n, RedPercent(s))
    requires Pick(s.boxes, TargetIds(c), c.confMin).Some?
    ensures Judge(c, n, s) == Steer(BoxCenterX(Pick(s.boxes, TargetIds(c), c.confMin).value), s.width, RedArea(s))
  {
  }

  /** On a frame where the detector is not run, its boxes have no effect on the decision. */
  lemma BoxesIgnoredUnlessRun(c: Config, n: nat, s: Shot, other: seq<Box>)
    requires !c.model || n % c.yoloEvery != 0
    ensures Judge(c, n, s) == Judge(c, n, s.(boxes := other))
  {
  }

  /** The throttle admits the same frames every `yoloEvery` frames. */
  lemma ThrottlePeriodic(c: Config, n: nat, p: real)
    ensures RunYolo(c, n, p) <==> RunYolo(c, n + c.yoloEvery, p)
  {
    ModShift(n, c.yoloEvery);
  }

  lemma ModShift(n: nat, k: Positive)
    ensures (n + k) % k == n % k
  {
    var a, r1 := (n + k) / k, (n + k) % k;
    var b, r2 := n / k, n % k;
    var d := a - b - 1;
    assert k * d == r2 - r1 by {
      assert n + k == a * k + r1;
      assert n == b * k + r2;
    }
    if d > 0 {
      AtLeastOneMultiple(k, d);
    } else if d < 0 {
      AtLeastOneMultiple(k, -d);
    }
  }

  lemma AtLeastOneMultiple(k: nat, d: int)
    requires d >= 1
    ensures k * d >= k
  {
    assert k * d == k * (d - 1) + k;
  }

  /** A counted blob centred in the frame, in the middle band, means straight ahead. */
  lemma CentredBlobGoesStraight(c: Config, n: nat, s: Shot)
    requires s.width * s.height > 0 && 0.05 < RedPercent(s) <= 0.3 && RedCenterX(s) == s.width / 2
    ensures Judge(c, n, s).order == 1 && Judge(c, n, s).x == 0.0
  {
  }

  /** The `Camera` object. */
  class Camera {
    var config: Config
    /** `self.picam2` is present. */
    var picam: bool
    var frameCount: nat

    /**
     * `yoloEvery` is raised to at least 1; `modelLoads` and `cameraStarts` stand for the
     * outcome of loading the detector and starting the camera.
     */
    constructor (modelLoads: bool, cameraStarts: bool, names: Names, yoloEvery: int, targetClass: string,
                 confMin: real, redMin: real, redMax: real)
      ensures config.model == modelLoads && picam == cameraStarts && frameCount == 0
      ensures config.yoloEvery == (if yoloEvery >= 1 then yoloEvery else 1)
      ensures config.names == names && config.targetClass == targetClass
      ensures config.confMin == confMin && config.redMin == redMin && config.redMax == redMax
    {
      config := Config(modelLoads, if yoloEvery >= 1 then yoloEvery else 1, targetClass, names,
                       confMin, redMin, redMax);
      picam := cameraStarts;
      frameCount := 0;
    }

    /** `close`: the camera is released and later captures report order 0. */
    method Close()
      modifies this`picam
      ensures !picam
    {
      picam := false;
    }

    /** `_get_yolo_class_ids`. */
    method GetYoloClassIds() returns (ids: Option<seq<int>>)
      ensures ids == ClassIds(config.model, config.names, config.targetClass)
    {
      if !config.model {
        return None;
      }
      var target := Norm(config.targetClass);
      var found: seq<int> := [];
      match config.names {
        case Absent =>
          return None;
        case Other =>
          return None;
        case Dict(es) =>
          for i := 0 to |es|
            invariant found == DictMatches(es[..i], target)
          {
            assert es[..i + 1][..i] == es[..i];
            if Norm(es[i].1) == target {
              found := found + [es[i].0];
            }
          }
          assert es[..|es|] == es;
        case List(vs) =>
          for i := 0 to |vs|
            invariant found == ListMatches(vs[..i], target)
          {
            assert vs[..i + 1][..i] == vs[..i];
            if Norm(vs[i]) == target {
              found := found + [i];
            }
          }
          assert vs[..|vs|] == vs;
      }
      ids := NonEmpty(found);
    }

    /**
     * `capture_and_detect`: an uninitialised camera reports order 0 without counting the
     * frame; otherwise the frame is counted and a failed capture (`None`) also reports order 0.
     */
    method CaptureAndDetect(shot: Option<Shot>) returns (d: Detection)
      modifies this`frameCount
      ensures !picam ==> d == NoDetection && frameCount == old(frameCount)
      ensures picam ==> frameCount == old(frameCount) + 1
      ensures picam && shot.None? ==> d == NoDetection
      ensures picam && shot.Some? ==> d == Judge(config, frameCount, shot.value)
    {
      if !picam {
        return NoDetection;
      }
      frameCount := frameCount + 1;
      if shot.None? {
        return NoDetection;
      }
      var s := shot.value;
      if s.width * s.height == 0 {
        return NoDetection;
      }
      var p := RedPercent(s);
      var area := RedArea(s);
      if p > 0.3 {
        d := Detection(0.0, 4, area);
      } else if p > 0.05 {
        d := Steer(RedCenterX(s), s.width, area);
      } else {
        var found := false;
        d := Detection(0.0, 0, area);
        if RunYolo(config, frameCount, p) {
          var named := GetYoloClassIds();
          var ids := if named.None? then [0] else named.value;
          var hit := Pick(s.boxes, ids, config.confMin);
          if hit.Some? {
            d := Steer(BoxCenterX(hit.value), s.width, area);
            found := true;
          }
        }
        if !found && p > 0.001 {
          d := Steer(RedCenterX(s), s.width, area);
        }
      }
    }
  }
}
