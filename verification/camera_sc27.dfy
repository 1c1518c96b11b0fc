/**
 * The SC-27 `camera.py`: the red-blob summary, the detector's best box and the steering
 * order `judge_cone` derives from them. Image processing is replaced by its outputs: the
 * largest red contour and the detector's boxes.
 */
module CameraSc27 {
  import opened Common
  import CameraChat

  /** A bounding rectangle `(x, y, w, h)`. */
  datatype Rect = Rect(x: int, y: int, w: nat, h: nat)

  /** The largest contour: its area and bounding rectangle. */
  datatype Contour = Contour(area: real, rect: Rect)

  /** `(area, center_x, center_y, rect)`. */
  datatype RedBlob = RedBlob(area: real, cx: int, cy: int, rect: Rect)

  /** A detector box `(xmin, ymin, xmax, ymax)` with its confidence. */
  datatype Box = Box(xmin: real, ymin: real, xmax: real, ymax: real, conf: real)

  /**
   * One frame: its size, the largest red contour (`None` when there is none) and the
   * detector's boxes, `None` when loading the model or running it raises.
   */
  datatype Frame = Frame(width: nat, height: nat, biggest: Option<Contour>, yolo: Option<seq<Box>>)

  /** `(colorcone_x_persent, camera_order, red_area)`; the annotated frame is not modelled. */
  datatype Judgement = Judgement(x: real, order: int, area: real)

  /**
   * `analyze_red`: all zeros without a contour; otherwise the largest contour's area and
   * rectangle, and a centre inside the rectangle, within half a pixel of its middle.
   */
  function AnalyzeRed(biggest: Option<Contour>): (r: RedBlob)
    ensures biggest.None? ==> r == RedBlob(0.0, 0, 0, Rect(0, 0, 0, 0))
    ensures biggest.Some? ==> r.area == biggest.value.area && r.rect == biggest.value.rect
    ensures r.rect.x <= r.cx <= r.rect.x + r.rect.w && r.rect.y <= r.cy <= r.rect.y + r.rect.h
    ensures 0 <= r.rect.w - 2 * (r.cx - r.rect.x) <= 1
    ensures 0 <= r.rect.h - 2 * (r.cy - r.rect.y) <= 1
  {
    match biggest
    case None => RedBlob(0.0, 0, 0, Rect(0, 0, 0, 0))
    case Some(c) => RedBlob(c.area, c.rect.x + c.rect.w / 2, c.rect.y + c.rect.h / 2, c.rect)
  }

  function Confidences(boxes: seq<Box>): (cs: seq<real>)
    ensures |cs| == |boxes| && forall i :: 0 <= i < |boxes| ==> cs[i] == boxes[i].conf
  {
    seq(|boxes|, i requires 0 <= i < |boxes| => boxes[i].conf)
  }

  /** `int(xmin + (xmax - xmin) / 2)`. */
  function CenterX(b: Box): int { Trunc(b.xmin + (b.xmax - b.xmin) / 2.0) }

  /**
   * `yolo_detect`: `(0, 0)` without boxes (here `None` and 0); otherwise the box of
   * highest confidence, the first one on a tie, and its truncated centre column.
   */
  function YoloDetect(boxes: seq<Box>): (r: (Option<Box>, int))
    ensures r.0.None? <==> boxes == []
    ensures r.0.None? ==> r.1 == 0
    ensures r.0.Some? ==> r.1 == CenterX(r.0.value)
    ensures r.0.Some? ==>
      exists i :: (0 <= i < |boxes| && boxes[i] == r.0.value
                   && (forall j :: 0 <= j < |boxes| ==> boxes[j].conf <= boxes[i].conf)
                   && (forall j :: 0 <= j < i ==> boxes[j].conf < boxes[i].conf))
  {
    if boxes == [] then (None, 0)
    else
      var cs := Confidences(boxes);
      var i := CameraChat.FirstArgmax(cs);
      assert forall j :: 0 <= j < |boxes| ==> boxes[j].conf <= boxes[i].conf by {
        assert forall j :: 0 <= j < |boxes| ==> cs[j] <= cs[i];
      }
      (Some(boxes[i]), CenterX(boxes[i]))
  }

  /** `red_persent`: 0.0 when the division by the frame size raises. */
  function Percent(f: Frame): real
  {
    if f.width * f.height == 0 then 0.0 else AnalyzeRed(f.biggest).area / (f.width * f.height) as real
  }

  /**
   * `judge_cone`. Only a zero-width frame makes it raise (the far-band position is then
   * divided by 0), and it returns `None`; a zero-height frame leaves `red_persent` at 0.
   */
  function JudgeCone(f: Frame): (r: Option<Judgement>)
    ensures r.None? <==> f.width == 0
    ensures r.Some? ==> r.value.area == AnalyzeRed(f.biggest).area
    ensures r.Some? ==> (r.value.order == 4 <==> Percent(f) > 0.3)
    ensures r.Some? && r.value.order == 4 ==> r.value.x == 0.0
    ensures r.Some? && 0.1 < Percent(f) <= 0.3 ==>
      r.value.x == CameraChat.Offset(AnalyzeRed(f.biggest).cx, f.width) && r.value.order == CameraChat.DecideDirection(r.value.x)
    ensures r.Some? && 0.01 < Percent(f) <= 0.1 ==>
      (r.value.order != 0 <==> f.yolo.Some? && f.yolo.value != [])
    ensures r.Some? && 0.01 < Percent(f) <= 0.1 ==>
      if f.yolo.Some? && f.yolo.value != [] then
        r.value.x == CameraChat.Offset(YoloDetect(f.yolo.value).1, f.width)
        && r.value.order == CameraChat.DecideDirection(r.value.x)
      else r.value.x == 0.0 && r.value.order == 0
    ensures r.Some? && Percent(f) <= 0.01 ==>
      r.value.order == 0 && r.value.x == CameraChat.Offset(AnalyzeRed(f.biggest).cx, f.width)
  {
    var red := AnalyzeRed(f.biggest);
    var p := Percent(f);
    if p > 0.3 then Some(Judgement(0.0, 4, red.area))
    else if p > 0.1 then
      var x := CameraChat.Offset(red.cx, f.width);
      Some(Judgement(x, CameraChat.DecideDirection(x), red.area))
    else if p > 0.01 then
      match f.yolo
      case None => Some(Judgement(0.0, 0, red.area))
      case Some(boxes) =>
        var (hit, cx) := YoloDetect(boxes);
        if hit.None? then Some(Judgement(0.0, 0, red.area))
        else
          var x := CameraChat.Offset(cx, f.width);
          Some(Judgement(x, CameraChat.DecideDirection(x), red.area))
    else if f.width == 0 then None
    else Some(Judgement(CameraChat.Offset(red.cx, f.width), 0, red.area))
  }

  /**
   * No clamp is needed for a centre inside the frame: the offset already lies in
   * [-0.5, 0.5], where the chatGPT copy's clamp changes nothing.
   */
  lemma InFrameOffsetIsClamped(cx: int, width: nat)
    requires 0 <= cx < width
    ensures -0.5 <= CameraChat.Offset(cx, width) <= 0.5
    ensures CameraChat.ClampHalf(CameraChat.Offset(cx, width)) == CameraChat.Offset(cx, width)
  {
    var h := width / 2;
    assert 2 * h <= width <= 2 * h + 1;
    HalfBound((cx - h) as real, width as real);
  }

  lemma HalfBound(a: real, w: real)
    requires w > 0.0 && -w <= 2.0 * a <= w
    ensures -0.5 <= a / w <= 0.5
  {
    assert a / w * w == a;
  }
}
