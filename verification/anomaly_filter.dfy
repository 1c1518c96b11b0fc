/**
 * The sensor plausibility filter (`abnormal_check`): a static table of inclusive
 * ranges per (sensor, field), scalars compared directly, lists compared by the sum
 * of their absolute components.
 */
module AnomalyFilter {
  import opened Common

  /** A reading handed to the filter: Python `None`, a number, or a list of numbers. */
  datatype Reading = Missing | Scalar(v: real) | Vector(vs: seq<real>)

  /** An inclusive range `[lo, hi]`. */
  datatype Range = Range(lo: real, hi: real)

  /** The range table, keyed by sensor name and then by field name. */
  const Table: map<string, map<string, Range>> := map[
    "bme" := map[
      "temperature" := Range(0.0, 60.0),
      "humidity" := Range(0.0, 100.0),
      "pressure" := Range(800.0, 1100.0)],
    "bno" := map[
      "accel" := Range(0.0, 50.0),
      "gyro" := Range(0.0, 45.0),
      "mag" := Range(0.0, 250.0),
      "linear_accel" := Range(0.0, 25.0),
      "gravity" := Range(0.0, 15.0),
      "temperature" := Range(0.0, 60.0)],
    "gps" := map[
      "latitude" := Range(30.0, 50.0),
      "longitude" := Range(130.0, 150.0),
      "altitude" := Range(-100.0, 500.0)],
    "distance_sensor" := map[
      "distance" := Range(-2.0, 100.0)]
  ]

  predicate Known(sensor: string, field: string) {
    sensor in Table && field in Table[sensor]
  }

  /** Sum of absolute values, the magnitude a list reading is judged by. */
  function SumAbs(vs: seq<real>): (s: real)
    ensures s >= 0.0
    ensures (forall i :: 0 <= i < |vs| ==> vs[i] == 0.0) ==> s == 0.0
  {
    if vs == [] then 0.0 else Abs(vs[0]) + SumAbs(vs[1..])
  }

  /** The quantity compared against the table: the value itself, or the list's `SumAbs`. */
  function Magnitude(x: Reading): real
    requires !x.Missing?
  {
    match x
    case Scalar(v) => v
    case Vector(vs) => SumAbs(vs)
  }

  predicate InRange(sensor: string, field: string, m: real)
    requires Known(sensor, field)
  {
    Table[sensor][field].lo <= m <= Table[sensor][field].hi
  }

  /** The range test for one key: `Missing` stays `Missing`, a reading outside `r` becomes `Missing`. */
  function CheckRange(r: Range, x: Reading): Reading
  {
    if x.Missing? then Missing
    else if r.lo <= Magnitude(x) <= r.hi then x
    else Missing
  }

  /**
   * `abnormal_check`: the reading itself when it is plausible, `Missing` when it is not.
   * The all-zero test on lists and `ERROR_FLAG` only change what is logged, so neither
   * appears here.
   */
  function AbnormalCheck(sensor: string, field: string, x: Reading): (r: Reading)
    ensures r == x || r.Missing?
    ensures x.Missing? ==> r.Missing?
    ensures !x.Missing? && !Known(sensor, field) ==> r == x
    ensures !x.Missing? && Known(sensor, field) ==> (r == x <==> InRange(sensor, field, Magnitude(x)))
  {
    if !Known(sensor, field) then x
    else CheckRange(Table[sensor][field], x)
  }

  /** The rows the motor drivers consult: `bno` gyro [0, 45] and gravity [0, 15]. */
  const BnoGyro: Range := Range(0.0, 45.0)
  const BnoGravity: Range := Range(0.0, 15.0)

  /** Filtering with a looked-up row is the same as `abnormal_check` on its key. */
  lemma BnoRows(x: Reading)
    ensures AbnormalCheck("bno", "gyro", x) == CheckRange(BnoGyro, x)
    ensures AbnormalCheck("bno", "gravity", x) == CheckRange(BnoGravity, x)
  {
    assert Known("bno", "gyro") && Known("bno", "gravity");
  }

  /** Filtering a filtered reading changes nothing. */
  lemma Idempotent(sensor: string, field: string, x: Reading)
    ensures AbnormalCheck(sensor, field, AbnormalCheck(sensor, field, x)) == AbnormalCheck(sensor, field, x)
  {
  }

  /** Both ends of every range are accepted, and a scalar just outside is rejected. */
  lemma BoundsInclusive(sensor: string, field: string, eps: real)
    requires Known(sensor, field) && eps > 0.0
    ensures AbnormalCheck(sensor, field, Scalar(Table[sensor][field].lo)) == Scalar(Table[sensor][field].lo)
    ensures AbnormalCheck(sensor, field, Scalar(Table[sensor][field].hi)) == Scalar(Table[sensor][field].hi)
    ensures AbnormalCheck(sensor, field, Scalar(Table[sensor][field].lo - eps)) == Missing
    ensures AbnormalCheck(sensor, field, Scalar(Table[sensor][field].hi + eps)) == Missing
  {
  }

  /**
   * The all-zero list is not rejected: every `bno` range starts at 0, so a list of zeros
   * (for any field, not only `gyro`) comes back unchanged.
   */
  lemma ZeroVectorPassesBno(field: string, vs: seq<real>)
    requires field in Table["bno"]
    requires forall i :: 0 <= i < |vs| ==> vs[i] == 0.0
    ensures AbnormalCheck("bno", field, Vector(vs)) == Vector(vs)
  {
  }

  /** `SumAbs` only sees magnitudes: lists with equal absolute components sum alike. */
  lemma {:induction false} SumAbsOfMagnitudes(us: seq<real>, vs: seq<real>)
    requires |us| == |vs|
    requires forall i :: 0 <= i < |us| ==> Abs(us[i]) == Abs(vs[i])
    ensures SumAbs(us) == SumAbs(vs)
  {
    if us != [] {
      SumAbsOfMagnitudes(us[1..], vs[1..]);
    }
  }

  /** A list's verdict ignores the signs of its components. */
  lemma SignBlind(sensor: string, field: string, us: seq<real>, vs: seq<real>)
    requires |us| == |vs|
    requires forall i :: 0 <= i < |us| ==> Abs(us[i]) == Abs(vs[i])
    ensures AbnormalCheck(sensor, field, Vector(us)) == Vector(us)
        <==> AbnormalCheck(sensor, field, Vector(vs)) == Vector(vs)
  {
    SumAbsOfMagnitudes(us, vs);
  }
}
