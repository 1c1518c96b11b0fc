/**
 * The geminiPro copy of the SC-28 `gps.py`: no fix-validity check, a zero filter that
 * rejects a fix only when both coordinates are 0.0, and a receiver that never re-opens.
 */
module GpsGeminiPro {
  import opened Common
  import opened Nmea
  import GpsChatGpt

  /**
   * What one line contributes to `read_gps_data`: a `$GPGGA` or `$GPRMC` line that parses
   * and has a position, unless the position is (0.0, 0.0).
   */
  function LineFix(s: Sentence): (p: Option<Point>)
    ensures p.Some? <==>
      (IsGga(s) || IsRmc(s)) && s.parsed.Some? && s.parsed.value.position.Some? &&
      (s.parsed.value.position.value.lat != 0.0 || s.parsed.value.position.value.lon != 0.0)
    ensures p.Some? ==> p == s.parsed.value.position
  {
    if (IsGga(s) || IsRmc(s)) && s.parsed.Some? && s.parsed.value.position.Some? then
      var q := s.parsed.value.position.value;
      if q.lat != 0.0 || q.lon != 0.0 then Some(q) else None
    else None
  }

  /** A fix the chatGPT filter accepts is accepted here too, with the same position. */
  lemma ChatGptFilterIsStricter(s: Sentence)
    ensures GpsChatGpt.LineFix(s).Some? ==> LineFix(s) == GpsChatGpt.LineFix(s)
  {
  }

  /**
   * The two filters differ on a fix on the equator or the prime meridian: a valid GGA
   * sentence at latitude 0.0 is kept here and dropped by the chatGPT filter.
   */
  lemma FiltersDifferOnAxis(lon: real)
    requires lon != 0.0
    ensures var s := Sentence("$GPGGA,x", Some(Message(None, Some("1"), Some(Point(0.0, lon)))));
            LineFix(s) == Some(Point(0.0, lon)) && GpsChatGpt.LineFix(s).None?
  {
    var s := Sentence("$GPGGA,x", Some(Message(None, Some("1"), Some(Point(0.0, lon)))));
    assert IsGga(s);
  }

  /** The `GPS` receiver object; `succeeds` says whether opening the serial device works. */
  class Receiver {
    var ser: GpsChatGpt.Port

    constructor (succeeds: bool)
      ensures ser == GpsChatGpt.Opened(succeeds)
    {
      ser := GpsChatGpt.Opened(succeeds);
    }

    /** `close`: only a present, open port is closed and dropped. */
    method Close()
      modifies this
      ensures old(ser) == GpsChatGpt.Port(true) ==> ser == GpsChatGpt.NoPort
      ensures old(ser) != GpsChatGpt.Port(true) ==> ser == old(ser)
    {
      if ser.Port? && ser.isOpen {
        ser := GpsChatGpt.NoPort;
      }
    }

    /**
     * `read_gps_data`: a missing or closed port gives `None` without reading; otherwise
     * the first line `LineFix` accepts among those read before the timeout.
     */
    method ReadGpsData(lines: seq<Sentence>) returns (fix: Option<Point>)
      ensures ser != GpsChatGpt.Port(true) ==> fix.None?
      ensures ser == GpsChatGpt.Port(true) ==> fix == FirstFix(lines, LineFix)
    {
      if ser.NoPort? || !ser.isOpen {
        return None;
      }
      fix := ScanForFix(lines, LineFix);
    }
  }
}
