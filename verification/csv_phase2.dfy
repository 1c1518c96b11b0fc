/**
 * The phase-2 telemetry logger `2_phase/make_csv.py`: `print(msg_type, msg_data)` writes
 * one record with a field for each column of `msg_types`, in that order, every field
 * quoted, with inner quotes doubled and line breaks turned into spaces.
 *
 * The clock, the date, the caller's frame and the exception being handled are inputs
 * (`Context`); `str` of the data and of its items are inputs too (`Data`). Opening,
 * appending to and syncing the file are not modelled.
 */
module CsvPhase2 {
  import opened Common
  import opened Csv

  /** The columns, in order, in the groups the logger lists them. */
  const Bookkept: seq<string> :=
    ["time", "date", "file", "func", "line", "serious_error", "error", "warning", "msg", "format_exception"]
  const Navigation: seq<string> :=
    ["phase", "gnss_time", "lat", "lon", "alt", "alt_base_press", "goal_lat", "goal_lon"]
  const WeatherAndCamera: seq<string> :=
    ["temp", "press", "camera_area", "camera_order", "camera_center_x", "camera_center_y"]
  const FrameAndMotors: seq<string> :=
    ["camera_frame_size_x", "camera_frame_size_y", "motor_l", "motor_r"]
  const Goal: seq<string> :=
    ["goal_relative_x", "goal_relative_y", "goal_relative_angle_rad", "goal_distance"]
  const Acceleration: seq<string> :=
    ["accel_all_x", "accel_all_y", "accel_all_z", "accel_line_x", "accel_line_y", "accel_line_z"]
  const Field: seq<string> :=
    ["mag_x", "mag_y", "mag_z", "gyro_x", "gyro_y", "gyro_z", "grav_x", "grav_y", "grav_z"]
  const Attitude: seq<string> :=
    ["euler_x", "euler_y", "euler_z", "nmea"]
  const MsgTypes: seq<string> := Bookkept + Navigation + WeatherAndCamera + FrameAndMotors + Goal + Acceleration + Field + Attitude

  /** Types whose data fills `_x`, `_y` and `_z` columns. */
  const Axis3: seq<string> := ["accel_all", "accel_line", "mag", "gyro", "grav", "euler"]

  /** Types whose data fills `_x` and `_y` columns. */
  const Axis2: seq<string> := ["goal_relative", "camera_center", "camera_frame_size"]

  /** `msg_data` as `str` shows it, and `str` of its items when it is a list or tuple. */
  datatype Data = Data(text: string, items: Option<seq<string>>)

  /**
   * The clock, the date, the caller's `(file, function, line)` (`None` when inspecting the
   * frame raises) and the formatted exception being handled, if any.
   */
  datatype Context = Context(clock: string, date: string, frame: Option<(string, string, string)>,
                             exception: Option<string>)

  predicate Known(t: string)
  {
    t in MsgTypes || t in Axis3 || t in Axis2 || t == "motor" || t == "lat_lon"
  }

  function HasItems(data: Data, n: nat): bool
  {
    data.items.Some? && |data.items.value| >= n
  }

  /** The column `c` as the key expansion of a known type leaves it. */
  function Expanded(t: string, data: Data, c: string): string
  {
    if t in Axis3 then
      if HasItems(data, 3) then
        if c == t + "_x" then data.items.value[0]
        else if c == t + "_y" then data.items.value[1]
        else if c == t + "_z" then data.items.value[2]
        else ""
      else if c == "error" then "Invalid format for " + t + ": " + data.text
      else ""
    else if t in Axis2 then
      if HasItems(data, 2) && c == t + "_x" then data.items.value[0]
      else if HasItems(data, 2) && c == t + "_y" then data.items.value[1]
      else ""
    else if t == "motor" then
      if HasItems(data, 2) && c == "motor_l" then data.items.value[0]
      else if HasItems(data, 2) && c == "motor_r" then data.items.value[1]
      else ""
    else if t == "lat_lon" then
      if HasItems(data, 2) && c == "lat" then data.items.value[0]
      else if HasItems(data, 2) && c == "lon" then data.items.value[1]
      else ""
    else if c == t then data.text
    else ""
  }

  /**
   * The value of column `c`, from the last writer back: the exception text for error
   * types, the caller's frame, the clock and date, and otherwise the message itself.
   */
  function CellValue(t: string, data: Data, ctx: Context, c: string): string
  {
    if c == "format_exception" && (t == "error" || t == "serious_error") && ctx.exception.Some? then
      ['"'] + Escape(ctx.exception.value) + ['"']
    else if c == "file" && ctx.frame.Some? then ctx.frame.value.0
    else if c == "func" && ctx.frame.Some? then ctx.frame.value.1
    else if c == "line" && ctx.frame.Some? then ctx.frame.value.2
    else if c == "time" then ctx.clock
    else if c == "date" then ctx.date
    else Base(t, data, c)
  }

  /** `.replace('\n', ' ')`. */
  function NewlineToSpace(s: string): (r: string)
    ensures |r| == |s| && forall i :: 0 <= i < |s| ==> r[i] == (if s[i] == '\n' then ' ' else s[i])
  {
    if s == [] then [] else [if s[0] == '\n' then ' ' else s[0]] + NewlineToSpace(s[1..])
  }

  /** One field of `clean_values`. */
  function Clean(v: string): string
  {
    ['"'] + NewlineToSpace(Escape(v)) + ['"']
  }

  /** The record `print` writes, without its line break. */
  function Record(t: string, data: Data, ctx: Context): string
  {
    Join(seq(|MsgTypes|, i requires 0 <= i < |MsgTypes| => Clean(CellValue(t, data, ctx, MsgTypes[i]))))
  }

  function Lookup(d: map<string, string>, k: string): string
  {
    if k in d then d[k] else ""
  }

  /** The column `c` once the message itself is in place, before the bookkeeping columns. */
  function Base(t: string, data: Data, c: string): string
  {
    if !Known(t) then (if c == "msg" then "UNKNOWN TYPE [" + t + "]: " + data.text else "")
    else Expanded(t, data, c)
  }

  /** The three axis columns of one type are three different keys. */
  lemma AxisKeysDiffer(t: string)
    ensures t + "_x" != t + "_y" && t + "_y" != t + "_z" && t + "_x" != t + "_z"
  {
    assert (t + "_x")[|t| + 1] == 'x';
    assert (t + "_y")[|t| + 1] == 'y';
    assert (t + "_z")[|t| + 1] == 'z';
  }

  /** The key expansion of `print`, into a dictionary whose columns are all empty. */
  method Expand(d: map<string, string>, t: string, data: Data) returns (r: map<string, string>)
    requires forall c :: c in d ==> d[c] == ""
    ensures forall c :: Lookup(r, c) == Base(t, data, c)
  {
    r := d;
    AxisKeysDiffer(t);
    if !Known(t) {
      r := r["msg" := "UNKNOWN TYPE [" + t + "]: " + data.text];
    } else if t in Axis3 {
      if HasItems(data, 3) {
        r := r[t + "_x" := data.items.value[0]];
        r := r[t + "_y" := data.items.value[1]];
        r := r[t + "_z" := data.items.value[2]];
      } else {
        r := r["error" := "Invalid format for " + t + ": " + data.text];
      }
    } else if t in Axis2 {
      if HasItems(data, 2) {
        r := r[t + "_x" := data.items.value[0]];
        r := r[t + "_y" := data.items.value[1]];
      }
    } else if t == "motor" {
      if HasItems(data, 2) {
        r := r["motor_l" := data.items.value[0]];
        r := r["motor_r" := data.items.value[1]];
      }
    } else if t == "lat_lon" {
      if HasItems(data, 2) {
        r := r["lat" := data.items.value[0]];
        r := r["lon" := data.items.value[1]];
      }
    } else {
      r := r[t := data.text];
    }
  }

  /** The bookkeeping columns of `print`, written after the message. */
  method Stamp(d: map<string, string>, t: string, data: Data, ctx: Context) returns (r: map<string, string>)
    requires forall c :: Lookup(d, c) == Base(t, data, c)
    ensures forall c :: Lookup(r, c) == CellValue(t, data, ctx, c)
  {
    r := d["time" := ctx.clock];
    r := r["date" := ctx.date];
    if ctx.frame.Some? {
      r := r["file" := ctx.frame.value.0];
      r := r["func" := ctx.frame.value.1];
      r := r["line" := ctx.frame.value.2];
    }
    if (t == "error" || t == "serious_error") && ctx.exception.Some? {
      r := r["format_exception" := ['"'] + Escape(ctx.exception.value) + ['"']];
    }
  }

  /**
   * `print`: fills a copy of the all-empty dictionary key by key, then joins the columns,
   * each quoted and cleaned.
   */
  method Print(t: string, data: Data, ctx: Context) returns (record: string)
    ensures record == Record(t, data, ctx)
  {
    var d := map c | c in MsgTypes :: "";
    d := Expand(d, t, data);
    d := Stamp(d, t, data, ctx);
    var clean := seq(|MsgTypes|, i requires 0 <= i < |MsgTypes| => Clean(Lookup(d, MsgTypes[i])));
    assert clean == seq(|MsgTypes|, i requires 0 <= i < |MsgTypes| => Clean(CellValue(t, data, ctx, MsgTypes[i])));
    record := Join(clean);
  }

  lemma NewlineToSpaceAppend(a: string, b: string)
    ensures NewlineToSpace(a + b) == NewlineToSpace(a) + NewlineToSpace(b)
  {
  }

  /** Quoting commutes with turning line breaks into spaces. */
  lemma {:induction false} EscapeNewlineCommute(v: string)
    ensures NewlineToSpace(Escape(v)) == Escape(NewlineToSpace(v))
  {
    if v != [] {
      EscapeNewlineCommute(v[1..]);
      var head := if v[0] == '"' then ['"', '"'] else [v[0]];
      var n0 := if v[0] == '\n' then ' ' else v[0];
      assert Escape(v) == head + Escape(v[1..]);
      NewlineToSpaceAppend(head, Escape(v[1..]));
      assert NewlineToSpace(v) == [n0] + NewlineToSpace(v[1..]);
      var w := [n0] + NewlineToSpace(v[1..]);
      assert w[0] == n0 && w[1..] == NewlineToSpace(v[1..]);
      if v[0] == '"' {
        assert NewlineToSpace(head) == head;
      } else if v[0] == '\n' {
        assert NewlineToSpace(head) == [' '];
      } else {
        assert NewlineToSpace(head) == head;
      }
      assert Escape(w) == NewlineToSpace(head) + Escape(NewlineToSpace(v[1..]));
    }
  }

  /** What reading the record back gives for column `c`. */
  function Shown(t: string, data: Data, ctx: Context, c: string): string
  {
    NewlineToSpace(CellValue(t, data, ctx, c))
  }

  /**
   * Read back as a record of RFC 4180 fields, the line holds one field per column, in column
   * order, each the column's value with line breaks turned into spaces.
   */
  lemma RecordReadsBack(t: string, data: Data, ctx: Context)
    ensures ParseFields(Record(t, data, ctx))
         == Some(seq(|MsgTypes|, i requires 0 <= i < |MsgTypes| => Shown(t, data, ctx, MsgTypes[i])))
  {
    var cs := seq(|MsgTypes|, i requires 0 <= i < |MsgTypes| => Quoted(Shown(t, data, ctx, MsgTypes[i])));
    forall i | 0 <= i < |MsgTypes|
      ensures Render(cs[i]) == Clean(CellValue(t, data, ctx, MsgTypes[i]))
    {
      EscapeNewlineCommute(CellValue(t, data, ctx, MsgTypes[i]));
    }
    assert Renders(cs) == seq(|MsgTypes|, i requires 0 <= i < |MsgTypes| => Clean(CellValue(t, data, ctx, MsgTypes[i])));
    ReadBack(cs);
    assert Texts(cs) == seq(|MsgTypes|, i requires 0 <= i < |MsgTypes| => Shown(t, data, ctx, MsgTypes[i]));
  }

  /** A record never spans two lines of the log. */
  lemma RecordIsOneLine(t: string, data: Data, ctx: Context)
    ensures forall j :: 0 <= j < |Record(t, data, ctx)| ==> Record(t, data, ctx)[j] != '\n'
  {
    var fs := seq(|MsgTypes|, i requires 0 <= i < |MsgTypes| => Clean(CellValue(t, data, ctx, MsgTypes[i])));
    forall i, j | 0 <= i < |fs| && 0 <= j < |fs[i]|
      ensures fs[i][j] != '\n'
    {
      var e := NewlineToSpace(Escape(CellValue(t, data, ctx, MsgTypes[i])));
      assert fs[i] == ['"'] + e + ['"'];
      if 0 < j <= |e| {
        assert fs[i][j] == e[j - 1];
      }
    }
    JoinAvoids(fs, '\n');
  }

  /** The columns the logger fills whatever the message. */
  predicate Bookkeeping(c: string)
  {
    c == "time" || c == "date" || c == "file" || c == "func" || c == "line" || c == "format_exception"
  }

  /** An unknown type is reported in `msg`, and no other message column is filled. */
  lemma UnknownTypeGoesToMsg(t: string, data: Data, ctx: Context, c: string)
    requires !Known(t) && !Bookkeeping(c)
    ensures CellValue(t, data, ctx, c) == if c == "msg" then "UNKNOWN TYPE [" + t + "]: " + data.text else ""
  {
  }

  /**
   * Three-axis data with at least three items fills that type's `_x`, `_y`, `_z` columns
   * with its first three items; anything else leaves them empty and fills `error` instead.
   */
  lemma AxisDataFillsAxisColumns(t: string, data: Data, ctx: Context)
    requires t in Axis3
    ensures HasItems(data, 3) ==>
      CellValue(t, data, ctx, t + "_x") == data.items.value[0]
      && CellValue(t, data, ctx, t + "_y") == data.items.value[1]
      && CellValue(t, data, ctx, t + "_z") == data.items.value[2]
      && CellValue(t, data, ctx, "error") == ""
    ensures !HasItems(data, 3) ==>
      CellValue(t, data, ctx, "error") == "Invalid format for " + t + ": " + data.text
      && CellValue(t, data, ctx, t + "_x") == ""
  {
    AxisKeysDiffer(t);
    assert Known(t);
    assert (t + "_x")[|t| + 1] == 'x';
    if |t| + 2 == |"error"| {
      assert "error"[|t| + 1] == 'r';
    }
  }

  /**
   * The traceback column is filled exactly for `error` and `serious_error` messages logged
   * while an exception is being handled, quoted once before the record quotes it again.
   */
  lemma TracebackOnlyForErrors(t: string, data: Data, ctx: Context)
    requires t != "format_exception"
    ensures CellValue(t, data, ctx, "format_exception") != ""
        <==> (t == "error" || t == "serious_error") && ctx.exception.Some?
  {
    if (t == "error" || t == "serious_error") && ctx.exception.Some? {
      assert CellValue(t, data, ctx, "format_exception")[0] == '"';
    }
  }

  lemma FirstGroupsSeparable()
    ensures Separable(Bookkept) && Separable(Navigation) && Separable(WeatherAndCamera) && Separable(FrameAndMotors)
  {
    BookkeptSeparable();
  }

  lemma BookkeptSeparable()
    ensures Separable(Bookkept) && Separable(Navigation)
  {
  }

  lemma LastGroupsSeparable()
    ensures Separable(Goal) && Separable(Acceleration) && Separable(Field) && Separable(Attitude)
  {
  }

  lemma ColumnNamesSeparable()
    ensures Separable(MsgTypes)
  {
    FirstGroupsSeparable();
    LastGroupsSeparable();
    SeparableAppend(Bookkept, Navigation);
    SeparableAppend(Bookkept + Navigation, WeatherAndCamera);
    SeparableAppend(Bookkept + Navigation + WeatherAndCamera, FrameAndMotors);
    SeparableAppend(Bookkept + Navigation + WeatherAndCamera + FrameAndMotors, Goal);
    SeparableAppend(Bookkept + Navigation + WeatherAndCamera + FrameAndMotors + Goal, Acceleration);
    SeparableAppend(Bookkept + Navigation + WeatherAndCamera + FrameAndMotors + Goal + Acceleration, Field);
    SeparableAppend(Bookkept + Navigation + WeatherAndCamera + FrameAndMotors + Goal + Acceleration + Field, Attitude);
  }

  /**
   * The file after the logger starts: the header line goes into a missing or empty file
   * only, and nothing already in the file is lost.
   */
  function Opened(existing: string): (r: string)
    ensures |existing| <= |r| && r[..|existing|] == existing
  {
    if existing == [] then Join(MsgTypes) + "\n" else existing
  }

  /** Starting the logger again on the file it wrote adds no second header. */
  lemma HeaderWrittenOnce(existing: string)
    ensures Opened(Opened(existing)) == Opened(existing)
  {
  }

  /** The header line reads back as the column names: as many fields as every record has. */
  lemma HeaderReadsBack()
    ensures ParseFields(Join(MsgTypes)) == Some(MsgTypes)
  {
    ColumnNamesSeparable();
    NamesReadBack(MsgTypes);
  }
}
