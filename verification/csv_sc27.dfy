/**
 * The SC-27 telemetry logger `1_definition/SC-27/make_csv.py`. `print(msg_type, msg_data)`
 * fills a copy of an ordered dictionary with one empty entry per column, quoting what it
 * writes, and appends the dictionary's values joined by commas. Unlike the phase-2 logger it
 * quotes only the entries it writes, never fills `date`, gives an unknown type a column of its
 * own at the end, and indexes the data of the axis types without checking it.
 *
 * The module also defines a function named `print`, so the calls `print(f"...")` in its own
 * exception handlers reach that function with one argument, which raises `TypeError`. An
 * error inside `print` therefore always reaches the caller (`Raised` here).
 */
module CsvSc27 {
  import opened Common
  import opened Csv
  import CsvPhase2

  /** The columns, in order: the phase-2 columns with `date` moved after `gnss_time`. */
  const Head: seq<string> := ["time", "file", "func", "line", "serious_error", "error", "warning", "msg", "format_exception"]
  const Fix: seq<string> := ["phase", "gnss_time", "date", "lat", "lon", "alt", "alt_base_press", "goal_lat", "goal_lon"]
  const MsgTypes: seq<string> :=
    Head + Fix + CsvPhase2.WeatherAndCamera + CsvPhase2.FrameAndMotors + CsvPhase2.Goal
    + CsvPhase2.Acceleration + CsvPhase2.Field + CsvPhase2.Attitude

  /**
   * `msg_data` as `str` shows it, and `str` of `msg_data[0]`, `msg_data[1]`, ... as far as
   * indexing it succeeds (none for a number, one per character for a string).
   */
  datatype Message = Message(text: string, items: seq<string>)

  /**
   * The clock, the caller's `(file, function, line)` (`None` when inspecting the frame
   * raises) and the lines of the formatted exception being handled, if any.
   */
  datatype Context = Context(clock: string, frame: Option<(string, string, string)>,
                             exception: Option<seq<string>>)

  /** What one call of `print` does. */
  datatype Outcome = Written(record: string) | Dropped | Raised

  /** The items a type's expansion indexes. */
  function Needed(t: string): (n: nat)
    ensures n <= 3
  {
    if t in CsvPhase2.Axis3 then 3
    else if t in CsvPhase2.Axis2 || t == "motor" || t == "lat_lon" then 2
    else 0
  }

  /** A type written under its own name that is not a column. */
  predicate Extra(t: string)
  {
    Needed(t) == 0 && t !in MsgTypes
  }

  /** The dictionary's keys after `print` writes a message of type `t`. */
  function Columns(t: string): (ks: seq<string>)
    ensures |ks| == |MsgTypes| + (if Extra(t) then 1 else 0)
  {
    MsgTypes + (if Extra(t) then [t] else [])
  }

  /** A dictionary value: escaped and quoted, quoted as it is, or left empty. */
  datatype Entry = Escaped(text: string) | Wrapped(text: string) | Empty

  /** The text an entry stands for. */
  function Text(e: Entry): string
  {
    if e.Empty? then "" else e.text
  }

  function Show(e: Entry): string
  {
    match e
    case Escaped(x) => Render(Quoted(x))
    case Wrapped(x) => ['"'] + x + ['"']
    case Empty => ""
  }

  /** The entry for key `c` once the message itself is in place. */
  function MessageEntry(t: string, m: Message, c: string): Entry
    requires Needed(t) <= |m.items|
  {
    if t in CsvPhase2.Axis3 then
      if c == t + "_x" then Escaped(m.items[0])
      else if c == t + "_y" then Escaped(m.items[1])
      else if c == t + "_z" then Escaped(m.items[2])
      else Empty
    else if t in CsvPhase2.Axis2 then
      if c == t + "_x" then Escaped(m.items[0])
      else if c == t + "_y" then Escaped(m.items[1])
      else Empty
    else if t == "motor" then
      if c == "motor_l" then Escaped(m.items[0])
      else if c == "motor_r" then Escaped(m.items[1])
      else Empty
    else if t == "lat_lon" then
      if c == "lat" then Escaped(m.items[0])
      else if c == "lon" then Escaped(m.items[1])
      else Empty
    else if c == t then Escaped(m.text)
    else Empty
  }

  /** Whether reading the exception raises: it needs at least three lines. */
  predicate TraceFails(ctx: Context)
  {
    ctx.exception.Some? && |ctx.exception.value| < 3
  }

  /**
   * The entry for key `c`, from the last writer back: the first three lines of the
   * exception, the caller's frame, the clock, and otherwise the message.
   */
  function EntryAt(t: string, m: Message, ctx: Context, c: string): Entry
    requires Needed(t) <= |m.items|
  {
    if c == "format_exception" && ctx.exception.Some? && !TraceFails(ctx) then
      Escaped(ctx.exception.value[0] + ctx.exception.value[1] + ctx.exception.value[2])
    else if c == "file" && ctx.frame.Some? then Wrapped(ctx.frame.value.0)
    else if c == "func" && ctx.frame.Some? then Wrapped(ctx.frame.value.1)
    else if c == "line" && ctx.frame.Some? then Wrapped(ctx.frame.value.2)
    else if c == "time" then Wrapped(ctx.clock)
    else MessageEntry(t, m, c)
  }

  /** The dictionary's entries in key order. */
  function Entries(t: string, m: Message, ctx: Context): (es: seq<Entry>)
    requires Needed(t) <= |m.items|
    ensures |es| == |Columns(t)|
  {
    seq(|Columns(t)|, i requires 0 <= i < |Columns(t)| => EntryAt(t, m, ctx, Columns(t)[i]))
  }

  function Shows(es: seq<Entry>): (r: seq<string>)
    ensures |r| == |es| && forall i :: 0 <= i < |es| ==> r[i] == Show(es[i])
  {
    seq(|es|, i requires 0 <= i < |es| => Show(es[i]))
  }

  function TextsOf(es: seq<Entry>): (r: seq<string>)
    ensures |r| == |es| && forall i :: 0 <= i < |es| ==> r[i] == Text(es[i])
  {
    seq(|es|, i requires 0 <= i < |es| => Text(es[i]))
  }

  /** The record written for a message, without its line break. */
  function Record(t: string, m: Message, ctx: Context): string
    requires Needed(t) <= |m.items|
  {
    Join(Shows(Entries(t, m, ctx)))
  }

  /** Where an exception inside `print` comes from: the data, the frame or the traceback. */
  predicate Raises(t: string, m: Message, ctx: Context)
  {
    |m.items| < Needed(t) || ctx.frame.None? || TraceFails(ctx)
  }

  /** `print` as written: any exception inside it reaches the caller. */
  function Logged(t: string, m: Message, ctx: Context): Outcome
  {
    if Raises(t, m, ctx) then Raised else Written(Record(t, m, ctx))
  }

  /**
   * `print` with its handlers reporting through the built-in `print`, as the phase-2 logger
   * does: a frame or traceback failure only leaves those columns empty, and malformed data
   * loses the record without disturbing the caller.
   */
  function LoggedFixed(t: string, m: Message, ctx: Context): Outcome
  {
    if |m.items| < Needed(t) then Dropped else Written(Record(t, m, ctx))
  }

  /** Every key the logger writes for a known type is already a column. */
  lemma KeysAreColumns(t: string)
    ensures t in CsvPhase2.Axis3 ==> t + "_x" in MsgTypes && t + "_y" in MsgTypes && t + "_z" in MsgTypes
    ensures t in CsvPhase2.Axis2 ==> t + "_x" in MsgTypes && t + "_y" in MsgTypes
    ensures "motor_l" in MsgTypes && "motor_r" in MsgTypes && "lat" in MsgTypes && "lon" in MsgTypes
    ensures "time" in MsgTypes && "file" in MsgTypes && "func" in MsgTypes && "line" in MsgTypes
    ensures "format_exception" in MsgTypes
  {
    GroupsAreColumns();
    assert Head[0] == "time" && Head[1] == "file" && Head[2] == "func" && Head[3] == "line";
    assert Head[8] == "format_exception" && Fix[3] == "lat" && Fix[4] == "lon";
    assert CsvPhase2.FrameAndMotors[2] == "motor_l" && CsvPhase2.FrameAndMotors[3] == "motor_r";
    if t in CsvPhase2.Axis3 {
      AxisThreeColumns(t);
    }
    if t in CsvPhase2.Axis2 {
      AxisTwoColumns(t);
    }
  }

  lemma GroupsAreColumns()
    ensures forall k :: k in Head ==> k in MsgTypes
    ensures forall k :: k in Fix ==> k in MsgTypes
    ensures forall k :: k in CsvPhase2.WeatherAndCamera ==> k in MsgTypes
    ensures forall k :: k in CsvPhase2.FrameAndMotors ==> k in MsgTypes
    ensures forall k :: k in CsvPhase2.Goal ==> k in MsgTypes
    ensures forall k :: k in CsvPhase2.Acceleration ==> k in MsgTypes
    ensures forall k :: k in CsvPhase2.Field ==> k in MsgTypes
    ensures forall k :: k in CsvPhase2.Attitude ==> k in MsgTypes
  {
  }

  lemma AxisThreeColumns(t: string)
    requires t in CsvPhase2.Axis3
    ensures var g := CsvPhase2.Acceleration + CsvPhase2.Field + CsvPhase2.Attitude;
      t + "_x" in g && t + "_y" in g && t + "_z" in g
  {
    var g := CsvPhase2.Acceleration + CsvPhase2.Field + CsvPhase2.Attitude;
    var k := if t == "accel_all" then 0 else if t == "accel_line" then 3 else if t == "mag" then 6
      else if t == "gyro" then 9 else if t == "grav" then 12 else 15;
    assert g[k] == t + "_x" && g[k + 1] == t + "_y" && g[k + 2] == t + "_z";
  }

  lemma AxisTwoColumns(t: string)
    requires t in CsvPhase2.Axis2
    ensures var g := CsvPhase2.WeatherAndCamera + CsvPhase2.FrameAndMotors + CsvPhase2.Goal;
      t + "_x" in g && t + "_y" in g
  {
    var g := CsvPhase2.WeatherAndCamera + CsvPhase2.FrameAndMotors + CsvPhase2.Goal;
    var k := if t == "goal_relative" then 10 else if t == "camera_center" then 4 else 6;
    assert g[k] == t + "_x" && g[k + 1] == t + "_y";
  }

  /** The keys a known type's expansion writes all have values in `vals`. */
  predicate Covers(vals: map<string, string>, t: string)
  {
    (t in CsvPhase2.Axis3 ==> t + "_x" in vals && t + "_y" in vals && t + "_z" in vals)
    && (t in CsvPhase2.Axis2 ==> t + "_x" in vals && t + "_y" in vals)
    && "motor_l" in vals && "motor_r" in vals && "lat" in vals && "lon" in vals
  }

  /** The expansion of `print`: writes the message into a dictionary whose values are all empty. */
  method Expand(blank: Dict, t: string, m: Message) returns (d: Dict)
    requires Covers(blank.vals, t)
    requires forall c :: c in blank.vals ==> blank.vals[c] == ""
    requires Needed(t) <= |m.items|
    ensures d.keys == blank.keys + (if Needed(t) == 0 && t !in blank.vals then [t] else [])
    ensures blank.vals.Keys <= d.vals.Keys && (Needed(t) == 0 ==> t in d.vals)
    ensures forall c :: c in d.vals ==> d.vals[c] == Show(MessageEntry(t, m, c))
  {
    if t in CsvPhase2.Axis3 {
      d := ExpandAxis3(blank, t, m);
    } else if t in CsvPhase2.Axis2 {
      CsvPhase2.AxisKeysDiffer(t);
      d := ExpandPair(blank, t, m, t + "_x", t + "_y");
    } else if t == "motor" {
      d := ExpandPair(blank, t, m, "motor_l", "motor_r");
    } else if t == "lat_lon" {
      d := ExpandPair(blank, t, m, "lat", "lon");
    } else {
      d := Put(blank, t, Show(Escaped(m.text)));
    }
  }

  /** The expansion of a three-axis type: its first three items into `_x`, `_y` and `_z`. */
  method ExpandAxis3(blank: Dict, t: string, m: Message) returns (d: Dict)
    requires t in CsvPhase2.Axis3 && 3 <= |m.items|
    requires t + "_x" in blank.vals && t + "_y" in blank.vals && t + "_z" in blank.vals
    requires forall c :: c in blank.vals ==> blank.vals[c] == ""
    ensures d.keys == blank.keys && d.vals.Keys == blank.vals.Keys
    ensures forall c :: c in d.vals ==> d.vals[c] == Show(MessageEntry(t, m, c))
  {
    CsvPhase2.AxisKeysDiffer(t);
    d := Put(blank, t + "_x", Show(Escaped(m.items[0])));
    d := Put(d, t + "_y", Show(Escaped(m.items[1])));
    d := Put(d, t + "_z", Show(Escaped(m.items[2])));
  }

  /** The expansion of a two-item type: its first two items into the keys `kx` and `ky`. */
  method ExpandPair(blank: Dict, t: string, m: Message, kx: string, ky: string) returns (d: Dict)
    requires t !in CsvPhase2.Axis3 && 2 <= |m.items| && kx != ky
    requires (t in CsvPhase2.Axis2 && kx == t + "_x" && ky == t + "_y")
      || (t !in CsvPhase2.Axis2 && t == "motor" && kx == "motor_l" && ky == "motor_r")
      || (t !in CsvPhase2.Axis2 && t == "lat_lon" && kx == "lat" && ky == "lon")
    requires kx in blank.vals && ky in blank.vals
    requires forall c :: c in blank.vals ==> blank.vals[c] == ""
    ensures d.keys == blank.keys && d.vals.Keys == blank.vals.Keys
    ensures forall c :: c in d.vals ==> d.vals[c] == Show(MessageEntry(t, m, c))
  {
    d := Put(blank, kx, Show(Escaped(m.items[0])));
    d := Put(d, ky, Show(Escaped(m.items[1])));
  }

  /** The clock and the caller's frame, written after the message; `raised` when the frame cannot be read. */
  method StampFrame(d: Dict, t: string, m: Message, ctx: Context) returns (r: Dict, raised: bool)
    requires Needed(t) <= |m.items|
    requires "time" in d.vals && "file" in d.vals && "func" in d.vals && "line" in d.vals
    requires forall c :: c in d.vals ==> d.vals[c] == Show(MessageEntry(t, m, c))
    ensures raised <==> ctx.frame.None?
    ensures r.keys == d.keys && d.vals.Keys <= r.vals.Keys
    ensures !raised ==> forall c :: c in r.vals ==>
      r.vals[c] == Show(EntryAt(t, m, ctx.(exception := None), c))
  {
    r := Put(d, "time", Show(Wrapped(ctx.clock)));
    raised := ctx.frame.None?;
    if !raised {
      r := Put(r, "file", Show(Wrapped(ctx.frame.value.0)));
      r := Put(r, "func", Show(Wrapped(ctx.frame.value.1)));
      r := Put(r, "line", Show(Wrapped(ctx.frame.value.2)));
      var plain := ctx.(exception := None);
      forall c | c in r.vals
        ensures r.vals[c] == Show(EntryAt(t, m, plain, c))
      {
        if c != "time" && c != "file" && c != "func" && c != "line" {
          assert r.vals[c] == d.vals[c];
        }
      }
    }
  }

  /** The exception being handled, written last; `raised` when it has fewer than three lines. */
  method StampTrace(d: Dict, t: string, m: Message, ctx: Context) returns (r: Dict, raised: bool)
    requires Needed(t) <= |m.items| && ctx.frame.Some?
    requires "format_exception" in d.vals
    requires forall c :: c in d.vals ==> d.vals[c] == Show(EntryAt(t, m, ctx.(exception := None), c))
    ensures raised <==> TraceFails(ctx)
    ensures r.keys == d.keys && d.vals.Keys <= r.vals.Keys
    ensures !raised ==> forall c :: c in r.vals ==> r.vals[c] == Show(EntryAt(t, m, ctx, c))
  {
    r, raised := d, TraceFails(ctx);
    if ctx.exception.Some? && !raised {
      var lines := ctx.exception.value;
      r := Put(r, "format_exception", Show(Escaped(lines[0] + lines[1] + lines[2])));
    }
  }

  /** `print` as written, step by step; an exception ends the call with `Raised`. */
  method Print(t: string, m: Message, ctx: Context) returns (out: Outcome)
    ensures out == Logged(t, m, ctx)
  {
    if |m.items| < Needed(t) {
      return Raised;
    }
    KeysAreColumns(t);
    var blank := Blank(MsgTypes);
    var d := Expand(blank, t, m);
    assert d.keys == Columns(t);
    var raised;
    d, raised := StampFrame(d, t, m, ctx);
    if raised {
      return Raised;
    }
    d, raised := StampTrace(d, t, m, ctx);
    if raised {
      return Raised;
    }
    StampedValues(d, t, m, ctx);
    out := Written(Join(Values(d)));
  }

  /** A dictionary holding every column's entry lists those entries in key order. */
  lemma StampedValues(d: Dict, t: string, m: Message, ctx: Context)
    requires Needed(t) <= |m.items| && d.keys == Columns(t)
    requires Blank(MsgTypes).vals.Keys <= d.vals.Keys && (Needed(t) == 0 ==> t in d.vals)
    requires forall c :: c in d.vals ==> d.vals[c] == Show(EntryAt(t, m, ctx, c))
    ensures Values(d) == Shows(Entries(t, m, ctx))
  {
    forall i | 0 <= i < |d.keys|
      ensures d.keys[i] in d.vals
    {
      if i < |MsgTypes| {
        assert d.keys[i] == MsgTypes[i] && MsgTypes[i] in Blank(MsgTypes).vals;
      }
    }
  }

  predicate Unquoted(x: string)
  {
    forall i :: 0 <= i < |x| ==> x[i] != '"'
  }

  /** The clock and frame are written without escaping; read back they need no quotes of their own. */
  predicate PlainContext(ctx: Context)
  {
    Unquoted(ctx.clock)
    && (ctx.frame.Some? ==> Unquoted(ctx.frame.value.0) && Unquoted(ctx.frame.value.1) && Unquoted(ctx.frame.value.2))
  }

  /** An entry as an RFC 4180 field, when its text allows. */
  function AsCell(e: Entry): Cell
  {
    match e
    case Escaped(x) => Quoted(x)
    case Wrapped(x) => Quoted(x)
    case Empty => Bare("")
  }

  /** Entries written without escaping come from the clock and the frame. */
  lemma WrappedFromContext(t: string, m: Message, ctx: Context, c: string)
    requires Needed(t) <= |m.items| && PlainContext(ctx)
    ensures EntryAt(t, m, ctx, c).Wrapped? ==> Unquoted(EntryAt(t, m, ctx, c).text)
  {
  }

  /** An entry is rendered as the RFC 4180 field it stands for. */
  lemma EntryAsCell(e: Entry)
    requires e.Wrapped? ==> Unquoted(e.text)
    ensures Render(AsCell(e)) == Show(e) && Plain(AsCell(e))
  {
    if e.Wrapped? {
      EscapeUnquoted(e.text);
    }
  }

  /**
   * A written record reads back as one field per key, in key order, each the text of its
   * entry, provided the clock and frame hold no double quote.
   */
  lemma RecordReadsBack(t: string, m: Message, ctx: Context)
    requires Needed(t) <= |m.items| && PlainContext(ctx)
    ensures ParseFields(Record(t, m, ctx)) == Some(TextsOf(Entries(t, m, ctx)))
  {
    var es := Entries(t, m, ctx);
    var cs := seq(|es|, i requires 0 <= i < |es| => AsCell(es[i]));
    forall i | 0 <= i < |es|
      ensures Render(cs[i]) == Show(es[i]) && Plain(cs[i])
    {
      WrappedFromContext(t, m, ctx, Columns(t)[i]);
      EntryAsCell(es[i]);
    }
    assert Renders(cs) == Shows(es);
    ReadBack(cs);
    assert Texts(cs) == TextsOf(es);
  }

  /**
   * A type that is neither a column nor expanded gets a column of its own at the end: the
   * record has one field more than the header, and that last, extra field holds the
   * message under no header name.
   */
  lemma UnknownTypeWidensRecord(t: string, m: Message, ctx: Context)
    requires Extra(t) && PlainContext(ctx)
    ensures var fields := ParseFields(Record(t, m, ctx));
      fields.Some? && |fields.value| == |MsgTypes| + 1 && fields.value[|MsgTypes|] == m.text
  {
    RecordReadsBack(t, m, ctx);
    assert Columns(t)[|MsgTypes|] == t;
    assert Entries(t, m, ctx)[|MsgTypes|] == EntryAt(t, m, ctx, t);
  }

  /** A known type's record is exactly as wide as the header. */
  lemma KnownTypeKeepsWidth(t: string, m: Message, ctx: Context)
    requires !Extra(t) && Needed(t) <= |m.items| && PlainContext(ctx)
    ensures var fields := ParseFields(Record(t, m, ctx));
      fields.Some? && |fields.value| == |MsgTypes|
  {
    RecordReadsBack(t, m, ctx);
  }

  /**
   * Magnetometer data that cannot be indexed, a number say, raises `TypeError` inside
   * `print`; the handler's own call of `print` raises again, and the error reaches the
   * caller. With the handlers repaired the record is only dropped.
   */
  lemma MalformedDataRaises(ctx: Context)
    ensures Logged("mag", Message("0.5", []), ctx) == Raised
    ensures LoggedFixed("mag", Message("0.5", []), ctx) == Dropped
  {
    assert "mag" in CsvPhase2.Axis3;
  }

  /**
   * With the handlers repaired, `print` never raises: it drops a record only for data its
   * type cannot index, still writes the record when the frame or the exception cannot be
   * read, and otherwise writes what the original writes.
   */
  lemma RepairedLoggingNeverRaises(t: string, m: Message, ctx: Context)
    ensures LoggedFixed(t, m, ctx) != Raised
    ensures LoggedFixed(t, m, ctx) == Dropped <==> |m.items| < Needed(t)
    ensures !Raises(t, m, ctx) ==> LoggedFixed(t, m, ctx) == Logged(t, m, ctx)
    ensures Needed(t) <= |m.items| && (ctx.frame.None? || TraceFails(ctx)) ==>
      Logged(t, m, ctx) == Raised && LoggedFixed(t, m, ctx).Written?
  {
  }

  /** The file after the logger starts: four blank lines and the header, appended on every start. */
  function Opened(existing: string): (r: string)
    ensures |r| > |existing| && r[..|existing|] == existing
  {
    existing + "\n\n\n\n" + Join(MsgTypes) + "\n"
  }

  /** The header line reads back as the column names. */
  lemma HeaderReadsBack()
    ensures ParseFields(Join(MsgTypes)) == Some(MsgTypes)
  {
    assert Separable(Head) && Separable(Fix);
    CsvPhase2.FirstGroupsSeparable();
    CsvPhase2.LastGroupsSeparable();
    SeparableAppend(Head, Fix);
    SeparableAppend(Head + Fix, CsvPhase2.WeatherAndCamera);
    SeparableAppend(Head + Fix + CsvPhase2.WeatherAndCamera, CsvPhase2.FrameAndMotors);
    SeparableAppend(Head + Fix + CsvPhase2.WeatherAndCamera + CsvPhase2.FrameAndMotors, CsvPhase2.Goal);
    SeparableAppend(Head + Fix + CsvPhase2.WeatherAndCamera + CsvPhase2.FrameAndMotors + CsvPhase2.Goal, CsvPhase2.Acceleration);
    SeparableAppend(Head + Fix + CsvPhase2.WeatherAndCamera + CsvPhase2.FrameAndMotors + CsvPhase2.Goal + CsvPhase2.Acceleration,
                    CsvPhase2.Field);
    SeparableAppend(Head + Fix + CsvPhase2.WeatherAndCamera + CsvPhase2.FrameAndMotors + CsvPhase2.Goal + CsvPhase2.Acceleration
                    + CsvPhase2.Field, CsvPhase2.Attitude);
    NamesReadBack(MsgTypes);
  }
}
