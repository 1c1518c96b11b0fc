/**
 * `YOLO/camera_wintest.py`: the detector box chosen by a running-maximum loop, the red
 * blob summary, and `judge_cone`, which steers by the detector box's pixel offset.
 */
module CameraWintest {
  import opened Common
  import CameraSc27

  type Box = CameraSc27.Box

  /**
   * The outcome of `yolo_detect`: no boxes (`(0, 0)`), a `NameError` when no box ever
   * reached the running maximum (all confidences negative), or `yolo_xylist` and the centre.
   */
  datatype YoloResult = NoBoxes | Unbound | Found(list: Box, centerX: int)

  /** The last index holding the largest value. */
  function LastArgmax(cs: seq<real>): (i: nat)
    requires |cs| > 0
    ensures i < |cs|
    ensures forall j :: 0 <= j < |cs| ==> cs[j] <= cs[i]
    ensures forall j :: i < j < |cs| ==> cs[j] < cs[i]
  {
    if |cs| == 1 then 0
    else
      var k := LastArgmax(cs[..|cs| - 1]);
      if cs[|cs| - 1] >= cs[k] then |cs| - 1 else k
  }

  /** Only one index is a maximum with every later value strictly smaller. */
  lemma LastArgmaxUnique(cs: seq<real>, k: nat)
    requires k < |cs|
    requires forall j :: 0 <= j < |cs| ==> cs[j] <= cs[k]
    requires forall j :: k < j < |cs| ==> cs[j] < cs[k]
    ensures k == LastArgmax(cs)
  {
  }

  /**
   * What `yolo_detect` computes: the last box of highest confidence (ties go to the later
   * box), reported with its corners and the LAST box's confidence.
   */
  function YoloSpec(boxes: seq<Box>): YoloResult
  {
    if boxes == [] then NoBoxes
    else
      var i := LastArgmax(CameraSc27.Confidences(boxes));
      if boxes[i].conf < 0.0 then Unbound
      else
        var b := boxes[i];
        Found(CameraSc27.Box(b.xmin, b.ymin, b.xmax, b.ymax, boxes[|boxes| - 1].conf), CameraSc27.CenterX(b))
  }

  /**
   * `yolo_detect`: each box whose confidence is not below the best so far becomes the
   * best; `confidence` is left holding the last box's value.
   */
  method YoloDetect(boxes: seq<Box>) returns (r: YoloResult)
    ensures r == YoloSpec(boxes)
  {
    if |boxes| == 0 {
      return NoBoxes;
    }
    var best := 0.0;
    var confidence := 0.0;
    // `xmin, ymin, xmax, ymax`, and whether they were ever bound
    var chosen := boxes[0];
    var bound := false;
    ghost var k := -1;
    for i := 0 to |boxes|
      invariant bound <==> k != -1
      invariant best >= 0.0
      invariant forall j :: 0 <= j < i ==> boxes[j].conf <= best
      invariant k == -1 ==> best == 0.0 && forall j :: 0 <= j < i ==> boxes[j].conf < 0.0
      invariant k != -1 ==> 0 <= k < i && chosen == boxes[k] && boxes[k].conf == best
      invariant k != -1 ==> forall j :: k < j < i ==> boxes[j].conf < best
      invariant i > 0 ==> confidence == boxes[i - 1].conf
    {
      confidence := boxes[i].conf;
      if confidence < best {
        continue;
      }
      best := confidence;
      chosen := boxes[i];
      bound := true;
      k := i;
    }
    if !bound {
      return Unbound;
    }
    var cs := CameraSc27.Confidences(boxes);
    LastArgmaxUnique(cs, k);
    r := Found(CameraSc27.Box(chosen.xmin, chosen.ymin, chosen.xmax, chosen.ymax, confidence), CameraSc27.CenterX(chosen));
  }

  /**
   * On two equally confident boxes this loop keeps the second, where the SC-27 copy's
   * `np.argmax` keeps the first.
   */
  lemma TieGoesToLaterBox(a: Box, b: Box)
    requires a.conf == b.conf >= 0.0 && a != b
    ensures YoloSpec([a, b]) == Found(b, CameraSc27.CenterX(b))
    ensures CameraSc27.YoloDetect([a, b]).0 == Some(a)
  {
    assert CameraSc27.Confidences([a, b]) == [a.conf, b.conf];
    assert LastArgmax([a.conf, b.conf]) == 1;
  }

  /** The stored confidence is the last box's, not the chosen one's. */
  lemma StoredConfidenceIsLast(a: Box, b: Box)
    requires a.conf > b.conf >= 0.0
    ensures YoloSpec([a, b]) == Found(a.(conf := b.conf), CameraSc27.CenterX(a))
  {
    assert CameraSc27.Confidences([a, b]) == [a.conf, b.conf];
    assert LastArgmax([a.conf, b.conf]) == 0;
  }

  /** `analyze_red`: the SC-27 summary without the rectangle. */
  function AnalyzeRed(biggest: Option<CameraSc27.Contour>): (r: (real, int, int))
    ensures biggest.None? ==> r == (0.0, 0, 0)
    ensures biggest.Some? ==> r.0 == biggest.value.area
    ensures biggest.Some? ==> var rect := biggest.value.rect;
      rect.x <= r.1 <= rect.x + rect.w && rect.y <= r.2 <= rect.y + rect.h
  {
    var blob := CameraSc27.AnalyzeRed(biggest);
    (blob.area, blob.cx, blob.cy)
  }

  /**
   * `judge_cone`: a red area above 7000 px means close (4); above 5 px the detector's
   * centre column steers within a ±50 px band around the frame centre; a frame without
   * a detection (`yolo_xylist == 0`) always gives 0, even when close.
   */
  function JudgeCone(width: nat, detected: bool, yoloCenterX: int, redArea: real): (order: int)
    ensures !detected ==> order == 0
    ensures detected ==> (order == 4 <==> redArea > 7000.0) && (order == 0 <==> redArea <= 5.0)
    ensures detected && 5.0 < redArea <= 7000.0 ==>
      (order == 1 <==> -50 <= yoloCenterX - width / 2 <= 50)
      && (order == 2 <==> yoloCenterX - width / 2 > 50)
      && (order == 3 <==> yoloCenterX - width / 2 < -50)
  {
    var center := width / 2;
    var order :=
      if redArea > 7000.0 then 4
      else if redArea > 5.0 then
        if center - 50 <= yoloCenterX <= center + 50 then 1
        else if yoloCenterX > center + 50 then 2
        else if yoloCenterX < center - 50 then 3
        else 0
      else 0;
    if detected then order else 0
  }

  /** What `judge_cone` is given as `yolo_xylist != 0` after a completed detection. */
  predicate Detected(r: YoloResult) { r.Found? }
}
