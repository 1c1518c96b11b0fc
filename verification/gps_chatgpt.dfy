/**
 * The chatGPT copy of the SC-28 `gps.py`: fix-validity predicates for NMEA 0183 RMC and
 * GGA sentences, the zero-coordinate filter, and the receiver that re-opens its port.
 */
module GpsChatGpt {
  import opened Common
  import opened Nmea

  // ---- Python `int(str)` on the GGA quality field ----

  predicate IsDigit(c: char) { '0' <= c <= '9' }

  predicate AllDigits(s: string) { forall i :: 0 <= i < |s| ==> IsDigit(s[i]) }

  /** The value of a run of decimal digits, most significant first. */
  function DigitsValue(s: string): nat
    requires AllDigits(s)
  {
    if s == [] then 0 else DigitsValue(s[..|s| - 1]) * 10 + (s[|s| - 1] as int - '0' as int)
  }

  /**
   * `int(s)`: surrounding white space is ignored, an optional sign may precede at least
   * one digit; anything else raises, which is `None` here.
   */
  function ParseInt(s: string): Option<int>
  {
    var t := Strip(s);
    if |t| >= 2 && (t[0] == '+' || t[0] == '-') && AllDigits(t[1..]) then
      Some(if t[0] == '-' then -(DigitsValue(t[1..]) as int) else DigitsValue(t[1..]) as int)
    else if |t| >= 1 && AllDigits(t) then Some(DigitsValue(t))
    else None
  }

  /** The decimal numeral of `n`, as the receiver writes a quality indicator. */
  function Numeral(n: nat): (s: string)
    ensures |s| >= 1
  {
    var d := ['0' + ((n % 10) as char)];
    if n < 10 then d else Numeral(n / 10) + d
  }

  lemma {:induction false} NumeralValue(n: nat)
    ensures AllDigits(Numeral(n)) && DigitsValue(Numeral(n)) == n
  {
    if n >= 10 {
      NumeralValue(n / 10);
      var s := Numeral(n);
      assert s[..|s| - 1] == Numeral(n / 10);
    }
  }

  /** Reading back a numeral gives the number: `int(str(n)) == n`. */
  lemma ParseNumeral(n: nat)
    ensures ParseInt(Numeral(n)) == Some(n)
  {
    NumeralValue(n);
    var s := Numeral(n);
    assert TrimLeft(s) == s;
    assert TrimRight(s) == s;
  }

  // ---- fix validity ----

  /** `_is_valid_rmc`: the RMC status is 'A' (valid), not 'V' or absent. */
  predicate ValidRmc(status: Option<string>) { status == Some("A") }

  /**
   * `_is_valid_gga`: the quality indicator, read as an integer with a missing or empty
   * field counting as 0, is positive; a field `int` cannot read is invalid.
   */
  predicate ValidGga(qual: Option<string>)
  {
    if qual.None? || qual.value == "" then false
    else match ParseInt(qual.value)
      case None => false
      case Some(q) => q > 0
  }

  /** Quality 0 means no fix and 1 or more a fix; a missing or empty field is invalid. */
  lemma ValidGgaByQuality(n: nat)
    ensures ValidGga(Some(Numeral(n))) <==> n > 0
    ensures !ValidGga(None) && !ValidGga(Some(""))
  {
    ParseNumeral(n);
  }

  /** The position of a message, unless latitude or longitude is exactly 0.0. */
  function NonZeroPosition(m: Message): (p: Option<Point>)
    ensures p.Some? <==> m.position.Some? && m.position.value.lat != 0.0 && m.position.value.lon != 0.0
    ensures p.Some? ==> p == m.position
  {
    if m.position.Some? && m.position.value.lat != 0.0 && m.position.value.lon != 0.0 then m.position else None
  }

  /**
   * What one line contributes to `read_gps_data`: only `$GPRMC` lines with status 'A'
   * and `$GPGGA` lines with a positive quality are considered, and their position is
   * kept only when neither coordinate is 0.0.
   */
  function LineFix(s: Sentence): (p: Option<Point>)
    ensures p.Some? <==>
      s.parsed.Some? && NonZeroPosition(s.parsed.value).Some? &&
      ((IsRmc(s) && ValidRmc(s.parsed.value.status)) ||
       (!IsRmc(s) && IsGga(s) && ValidGga(s.parsed.value.gpsQual)))
    ensures p.Some? ==> p == s.parsed.value.position && p.value.lat != 0.0 && p.value.lon != 0.0
  {
    if IsRmc(s) then
      if s.parsed.Some? && ValidRmc(s.parsed.value.status) then NonZeroPosition(s.parsed.value) else None
    else if IsGga(s) then
      if s.parsed.Some? && ValidGga(s.parsed.value.gpsQual) then NonZeroPosition(s.parsed.value) else None
    else None
  }

  /** The serial port: absent (`self.ser is None`), or present and open or closed. */
  datatype Port = NoPort | Port(isOpen: bool)

  function Opened(succeeds: bool): Port { if succeeds then Port(true) else NoPort }

  /** The `GPS` receiver object; `succeeds` says whether opening the serial device works. */
  class Receiver {
    var ser: Port

    constructor (succeeds: bool)
      ensures ser == Opened(succeeds)
    {
      ser := Opened(succeeds);
    }

    /** `_open_serial`. */
    method OpenSerial(succeeds: bool) returns (ok: bool)
      modifies this
      ensures ok == succeeds && ser == Opened(succeeds)
    {
      ser := Opened(succeeds);
      ok := succeeds;
    }

    /** `_ensure_serial`: an open port is kept; otherwise it is dropped and re-opened. */
    method EnsureSerial(succeeds: bool) returns (ok: bool)
      modifies this
      ensures old(ser) == Port(true) ==> ok && ser == old(ser)
      ensures old(ser) != Port(true) ==> ok == succeeds && ser == Opened(succeeds)
    {
      if ser == NoPort {
        ok := OpenSerial(succeeds);
      } else if !ser.isOpen {
        ser := NoPort;
        ok := OpenSerial(succeeds);
      } else {
        ok := true;
      }
    }

    /** `close`: the port is always dropped. */
    method Close()
      modifies this
      ensures ser == NoPort
    {
      ser := NoPort;
    }

    /**
     * `read_gps_data`: when the port can be (re-)opened, the first line `LineFix` accepts
     * among those read before the timeout; `None` otherwise.
     */
    method ReadGpsData(succeeds: bool, lines: seq<Sentence>) returns (fix: Option<Point>)
      modifies this
      ensures old(ser) != Port(true) && !succeeds ==> fix.None? && ser == NoPort
      ensures old(ser) == Port(true) || succeeds ==> fix == FirstFix(lines, LineFix) && ser == Port(true)
    {
      var ok := EnsureSerial(succeeds);
      if !ok {
        return None;
      }
      fix := ScanForFix(lines, LineFix);
    }
  }

  /** Every fix `read_gps_data` returns has both coordinates non-zero. */
  lemma ReturnedFixIsValid(lines: seq<Sentence>)
    ensures FirstFix(lines, LineFix).Some? ==>
      FirstFix(lines, LineFix).value.lat != 0.0 && FirstFix(lines, LineFix).value.lon != 0.0
  {
    FirstFixIsEarliest(lines, LineFix);
  }
}
