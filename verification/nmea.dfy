/**
 * The NMEA 0183 sentence filter shared by the SC-28 `gps.py` copies: what one received
 * line contributes, and the scan that returns the first accepted fix.
 *
 * Decoding a sentence (pynmea2) is not part of this model: a line arrives with its
 * stripped text and, when parsing succeeds, the fields the filter looks at.
 */
module Nmea {
  import opened Common

  datatype Point = Point(lat: real, lon: real)

  /**
   * The parsed fields the filter reads. `status` is the RMC status letter and `gpsQual`
   * the GGA quality field, `None` when the sentence has no such attribute or it is
   * `None`; `position` is `None` when latitude or longitude cannot be read.
   */
  datatype Message = Message(status: Option<string>, gpsQual: Option<string>, position: Option<Point>)

  /** One line read from the receiver: its stripped text and the parse result (`None` on a parse error). */
  datatype Sentence = Sentence(text: string, parsed: Option<Message>)

  predicate IsRmc(s: Sentence) { "$GPRMC" <= s.text }

  predicate IsGga(s: Sentence) { "$GPGGA" <= s.text }

  /** The first fix `extract` finds in `lines`, in arrival order. */
  function FirstFix(lines: seq<Sentence>, extract: Sentence -> Option<Point>): Option<Point>
  {
    if lines == [] then None
    else if extract(lines[0]).Some? then extract(lines[0])
    else FirstFix(lines[1..], extract)
  }

  /** `FirstFix` is `None` only when no line yields a fix, and otherwise is the earliest line's fix. */
  lemma {:induction false} FirstFixIsEarliest(lines: seq<Sentence>, extract: Sentence -> Option<Point>)
    ensures FirstFix(lines, extract).None? <==> forall i :: 0 <= i < |lines| ==> extract(lines[i]).None?
    ensures FirstFix(lines, extract).Some? ==>
      exists i :: 0 <= i < |lines| && extract(lines[i]) == FirstFix(lines, extract)
             && forall j :: 0 <= j < i ==> extract(lines[j]).None?
  {
    if lines != [] && extract(lines[0]).None? {
      FirstFixIsEarliest(lines[1..], extract);
      if FirstFix(lines, extract).Some? {
        var i :| 0 <= i < |lines[1..]| && extract(lines[1..][i]) == FirstFix(lines, extract)
                 && forall j :: 0 <= j < i ==> extract(lines[1..][j]).None?;
        assert extract(lines[i + 1]) == FirstFix(lines, extract);
        assert forall j :: 0 <= j < i + 1 ==> extract(lines[j]).None? by {
          forall j | 0 <= j < i + 1 ensures extract(lines[j]).None? {
            if j > 0 { assert lines[j] == lines[1..][j - 1]; }
          }
        }
      } else {
        forall i | 0 <= i < |lines| ensures extract(lines[i]).None? {
          if i > 0 { assert lines[i] == lines[1..][i - 1]; }
        }
      }
    }
  }

  /**
   * The read loop: lines are examined in arrival order and the first one `extract` turns
   * into a fix is returned; `None` when no line before the timeout yields one.
   */
  method ScanForFix(lines: seq<Sentence>, extract: Sentence -> Option<Point>) returns (fix: Option<Point>)
    ensures fix == FirstFix(lines, extract)
  {
    var k := 0;
    while k < |lines|
      invariant 0 <= k <= |lines|
      invariant FirstFix(lines[k..], extract) == FirstFix(lines, extract)
    {
      var candidate := extract(lines[k]);
      if candidate.Some? {
        return candidate;
      }
      assert lines[k..][1..] == lines[k + 1..];
      k := k + 1;
    }
    return None;
  }
}
