/**
 * The 2_phase `bme280.py` driver for the Bosch BME280: two's-complement helpers, the
 * trimming-parameter layout of section 4.2.2 of the BME280 datasheet, raw ADC assembly,
 * the compensation formulas over exact reals, and the baseline pressure average.
 *
 * I2C replies are inputs: a block read is `None` when pigpio raises and otherwise the
 * bytes received, so its count is their number.
 */
module Bme280 {
  import opened Common

  // ---- `_s8`, `_s16`, `_s12` ----

  /**
   * The two's-complement value of the low bits of `x`, `size` being 2 to their number.
   * `x & (size - 1)` is `x % size` for every Python integer, and the sign bit is set
   * exactly when that residue is at least `size / 2`.
   */
  function Signed(x: int, size: int): int
    requires size >= 2
  {
    var y := x % size;
    if y >= size / 2 then y - size else y
  }

  function S8(x: int): (r: int)
    ensures -0x80 <= r < 0x80 && (x - r) % 0x100 == 0
  {
    Signed(x, 0x100)
  }

  function S16(x: int): (r: int)
    ensures -0x8000 <= r < 0x8000 && (x - r) % 0x1_0000 == 0
  {
    Signed(x, 0x1_0000)
  }

  function S12(x: int): (r: int)
    ensures -0x800 <= r < 0x800 && (x - r) % 0x1000 == 0
  {
    Signed(x, 0x1000)
  }

  /** Each helper gives back a value in its signed range from its unsigned residue. */
  lemma SignedOfResidue(v: int)
    ensures -0x80 <= v < 0x80 ==> S8(v % 0x100) == v
    ensures -0x800 <= v < 0x800 ==> S12(v % 0x1000) == v
    ensures -0x8000 <= v < 0x8000 ==> S16(v % 0x1_0000) == v
  {
    var q := if v < 0 then -1 else 0;
    if -0x80 <= v < 0x80 {
      DivModUnique(v, 0x100, q, v - q * 0x100);
    }
    if -0x800 <= v < 0x800 {
      DivModUnique(v, 0x1000, q, v - q * 0x1000);
    }
    if -0x8000 <= v < 0x8000 {
      DivModUnique(v, 0x1_0000, q, v - q * 0x1_0000);
    }
  }

  /** ... and the unsigned residue back from the signed value. */
  lemma ResidueOfSigned(w: int)
    ensures 0 <= w < 0x100 ==> S8(w) % 0x100 == w
    ensures 0 <= w < 0x1000 ==> S12(w) % 0x1000 == w
    ensures 0 <= w < 0x1_0000 ==> S16(w) % 0x1_0000 == w
  {
    if 0 <= w < 0x100 {
      ResidueOf(w, S8(w), 0x100);
    }
    if 0 <= w < 0x1000 {
      ResidueOf(w, S12(w), 0x1000);
    }
    if 0 <= w < 0x1_0000 {
      ResidueOf(w, S16(w), 0x1_0000);
    }
  }

  lemma ResidueOf(w: int, s: int, size: int)
    requires size >= 2 && 0 <= w < size && s == Signed(w, size)
    ensures s % size == w
  {
    DivModUnique(w, size, 0, w);
    DivModUnique(s, size, if w >= size / 2 then -1 else 0, w);
  }

  // ---- trimming parameters ----

  /** `(hi << 8) | lo`: an unsigned little-endian 16-bit word. */
  function U16(lo: byte, hi: byte): (v: int)
    ensures 0 <= v < 0x1_0000
  {
    hi as int * 0x100 + lo as int
  }

  /** `dig_T1..T3`, `dig_P1..P9`, `dig_H1..H6`. */
  datatype Trim = Trim(digT: seq<int>, digP: seq<int>, digH: seq<int>)

  /** The ranges the datasheet gives: T1, P1 unsigned 16-bit; H1, H3 unsigned 8-bit; H4, H5 signed 12-bit; H6 signed 8-bit; the rest signed 16-bit. */
  predicate InRange(t: Trim)
  {
    |t.digT| == 3 && |t.digP| == 9 && |t.digH| == 6
    && 0 <= t.digT[0] < 0x1_0000 && 0 <= t.digP[0] < 0x1_0000
    && (forall i :: 1 <= i < 3 ==> -0x8000 <= t.digT[i] < 0x8000)
    && (forall i :: 1 <= i < 9 ==> -0x8000 <= t.digP[i] < 0x8000)
    && 0 <= t.digH[0] < 0x100 && -0x8000 <= t.digH[1] < 0x8000 && 0 <= t.digH[2] < 0x100
    && -0x800 <= t.digH[3] < 0x800 && -0x800 <= t.digH[4] < 0x800 && -0x80 <= t.digH[5] < 0x80
  }

  /** The little-endian word at `c[i], c[i + 1]`. */
  function WordAt(c: seq<byte>, i: nat): (v: int)
    requires i + 1 < |c|
    ensures 0 <= v < 0x1_0000
  {
    U16(c[i], c[i + 1])
  }

  /**
   * `get_calib_param` on the 32 collected bytes (0x88..0x9F, 0xA1, 0xE1..0xE7): T1..T3 and
   * P1..P9 are the twelve words at offsets 0, 2, .., 22, the first of each group
   * unsigned; H2 is the word at 25; H4 takes 0xE4 as its high 8 bits and the low nibble
   * of 0xE5, H5 takes 0xE6 and the high nibble of 0xE5.
   */
  function Unpack(c: seq<byte>): (t: Trim)
    requires |c| == 32
    ensures InRange(t)
  {
    var h4 := c[28] as int * 0x10 + c[29] as int % 0x10;
    var h5 := c[30] as int * 0x10 + c[29] as int / 0x10 % 0x10;
    Trim([WordAt(c, 0)] + seq(2, k requires 0 <= k < 2 => S16(WordAt(c, 2 + 2 * k))),
         [WordAt(c, 6)] + seq(8, k requires 0 <= k < 8 => S16(WordAt(c, 8 + 2 * k))),
         [c[24] as int, S16(WordAt(c, 25)), c[27] as int, S12(h4), S12(h5), S8(c[31] as int)])
  }

  function Lo(v: int): byte { (v % 0x100) as byte }

  function Hi(v: int): byte { (v % 0x1_0000 / 0x100) as byte }

  /** Byte `j` (0 low, 1 high) of the 16-bit value `v`. */
  function ByteOf(v: int, j: int): byte { if j == 0 then Lo(v) else Hi(v) }

  /** The calibration bytes a sensor holding `t` would return. */
  function Pack(t: Trim): (c: seq<byte>)
    requires InRange(t)
    ensures |c| == 32
  {
    var words := t.digT + t.digP;
    var u4, u5 := t.digH[3] % 0x1000, t.digH[4] % 0x1000;
    seq(24, i requires 0 <= i < 24 => ByteOf(words[i / 2], i % 2))
    + [t.digH[0] as byte, Lo(t.digH[1]), Hi(t.digH[1]), t.digH[2] as byte]
    + [(u4 / 0x10) as byte, (u4 % 0x10 + u5 % 0x10 * 0x10) as byte, (u5 / 0x10) as byte, Lo(t.digH[5])]
  }

  lemma WordRoundTrip(v: int, signed: bool)
    requires if signed then -0x8000 <= v < 0x8000 else 0 <= v < 0x1_0000
    ensures signed ==> S16(U16(Lo(v), Hi(v))) == v
    ensures !signed ==> U16(Lo(v), Hi(v)) == v
  {
    var u := v % 0x1_0000;
    var hi := u / 0x100;
    DivModUnique(v, 0x100, v / 0x1_0000 * 0x100 + hi, u % 0x100);
    assert U16(Lo(v), Hi(v)) == u;
    if signed {
      SignedOfResidue(v);
    } else {
      DivModUnique(v, 0x1_0000, 0, v);
    }
  }

  lemma BytesRoundTrip(lo: byte, hi: byte)
    ensures ByteOf(U16(lo, hi), 0) == lo && ByteOf(U16(lo, hi), 1) == hi
    ensures ByteOf(S16(U16(lo, hi)), 0) == lo && ByteOf(S16(U16(lo, hi)), 1) == hi
  {
    var u := U16(lo, hi);
    DivModUnique(u, 0x100, hi as int, lo as int);
    DivModUnique(u, 0x1_0000, 0, u);
    var s := S16(u);
    if s != u {
      DivModUnique(s, 0x100, hi as int - 0x100, lo as int);
      DivModUnique(s, 0x1_0000, -1, u);
    }
  }

  lemma NibblesRoundTrip(h4: int, h5: int)
    requires -0x800 <= h4 < 0x800 && -0x800 <= h5 < 0x800
    ensures var u4, u5 := h4 % 0x1000, h5 % 0x1000;
      var e4, e5, e6 := u4 / 0x10, u4 % 0x10 + u5 % 0x10 * 0x10, u5 / 0x10;
      S12(e4 * 0x10 + e5 % 0x10) == h4 && S12(e6 * 0x10 + e5 / 0x10 % 0x10) == h5
  {
    var u4, u5 := h4 % 0x1000, h5 % 0x1000;
    var e5 := u4 % 0x10 + u5 % 0x10 * 0x10;
    DivModUnique(e5, 0x10, u5 % 0x10, u4 % 0x10);
    DivModUnique(u5 % 0x10, 0x10, 0, u5 % 0x10);
    SignedOfResidue(h4);
    SignedOfResidue(h5);
  }

  lemma SplitNibbles(e4: byte, e5: byte, e6: byte)
    ensures var u4, u5 := S12(e4 as int * 0x10 + e5 as int % 0x10) % 0x1000, S12(e6 as int * 0x10 + e5 as int / 0x10 % 0x10) % 0x1000;
      u4 / 0x10 == e4 as int && u4 % 0x10 + u5 % 0x10 * 0x10 == e5 as int && u5 / 0x10 == e6 as int
  {
    var lo, hi := e5 as int % 0x10, e5 as int / 0x10;
    DivModUnique(hi, 0x10, 0, hi);
    var w4, w5 := e4 as int * 0x10 + lo, e6 as int * 0x10 + hi;
    ResidueOfSigned(w4);
    ResidueOfSigned(w5);
    DivModUnique(w4, 0x10, e4 as int, lo);
    DivModUnique(w5, 0x10, e6 as int, hi);
  }

  /** Unpacking what a sensor holding `t` returns gives back `t`: no parameter is lost or mixed. */
  lemma UnpackPack(t: Trim)
    requires InRange(t)
    ensures Unpack(Pack(t)) == t
  {
    var c := Pack(t);
    UnpackPackT(t, c);
    UnpackPackP(t, c);
    UnpackPackH(t, c);
  }

  lemma UnpackPackT(t: Trim, c: seq<byte>)
    requires InRange(t) && c == Pack(t)
    ensures Unpack(c).digT == t.digT
  {
    forall k | 0 <= k < 3
      ensures Unpack(c).digT[k] == t.digT[k]
    {
      UnpackPackWord(t, c, k);
    }
  }

  lemma UnpackPackP(t: Trim, c: seq<byte>)
    requires InRange(t) && c == Pack(t)
    ensures Unpack(c).digP == t.digP
  {
    forall k | 0 <= k < 9
      ensures Unpack(c).digP[k] == t.digP[k]
    {
      UnpackPackWord(t, c, k + 3);
    }
  }

  /** Word `k` of the twelve T and P words survives the round trip. */
  lemma UnpackPackWord(t: Trim, c: seq<byte>, k: int)
    requires InRange(t) && c == Pack(t) && 0 <= k < 12
    ensures k < 3 ==> Unpack(c).digT[k] == t.digT[k]
    ensures k >= 3 ==> Unpack(c).digP[k - 3] == t.digP[k - 3]
  {
    var w := (t.digT + t.digP)[k];
    PackWordBytes(t, k);
    WordRoundTrip(w, k != 0 && k != 3);
    UnpackWord(c, k);
    assert WordAt(c, 2 * k) == U16(Lo(w), Hi(w));
    var u := Unpack(c);
    assert (u.digT + u.digP)[k] == w;
    if k < 3 {
      assert (u.digT + u.digP)[k] == u.digT[k];
    } else {
      assert (u.digT + u.digP)[k] == u.digP[k - 3];
    }
  }

  lemma PackWordBytes(t: Trim, k: int)
    requires InRange(t) && 0 <= k < 12
    ensures var words := t.digT + t.digP;
      Pack(t)[2 * k] == Lo(words[k]) && Pack(t)[2 * k + 1] == Hi(words[k])
  {
  }

  lemma UnpackPackH(t: Trim, c: seq<byte>)
    requires InRange(t) && c == Pack(t)
    ensures Unpack(c).digH == t.digH
  {
    WordRoundTrip(t.digH[1], true);
    NibblesRoundTrip(t.digH[3], t.digH[4]);
    SignedOfResidue(t.digH[5]);
  }

  /** Every calibration byte is used: packing the unpacked parameters reproduces the 32 bytes. */
  lemma PackUnpack(c: seq<byte>)
    requires |c| == 32
    ensures Pack(Unpack(c)) == c
  {
    var p := Pack(Unpack(c));
    PackUnpackWords(c);
    PackUnpackH(c);
    assert p == p[..24] + p[24..];
    assert c == c[..24] + c[24..];
  }

  lemma PackUnpackH(c: seq<byte>)
    requires |c| == 32
    ensures Pack(Unpack(c))[24..] == c[24..]
  {
    var p := Pack(Unpack(c));
    PackUnpackH2(c);
    PackUnpackNibbles(c);
    assert p[24..] == [p[24], p[25], p[26], p[27], p[28], p[29], p[30], p[31]];
    assert c[24..] == [c[24], c[25], c[26], c[27], c[28], c[29], c[30], c[31]];
  }

  /** H1, H2 and H3 give back bytes 24 to 27. */
  lemma PackUnpackH2(c: seq<byte>)
    requires |c| == 32
    ensures var p := Pack(Unpack(c)); p[24] == c[24] && p[25] == c[25] && p[26] == c[26] && p[27] == c[27]
  {
    BytesRoundTrip(c[25], c[26]);
  }

  /** H4, H5 and H6 give back bytes 28 to 31. */
  lemma PackUnpackNibbles(c: seq<byte>)
    requires |c| == 32
    ensures var p := Pack(Unpack(c)); p[28] == c[28] && p[29] == c[29] && p[30] == c[30] && p[31] == c[31]
  {
    SplitNibbles(c[28], c[29], c[30]);
    assert Unpack(c).digH[5] == S8(c[31] as int);
    ResidueOfSigned(c[31] as int);
  }

  lemma PackUnpackWords(c: seq<byte>)
    requires |c| == 32
    ensures Pack(Unpack(c))[..24] == c[..24]
  {
    forall i | 0 <= i < 24
      ensures Pack(Unpack(c))[i] == c[i]
    {
      var k := i / 2;
      assert i == 2 * k || i == 2 * k + 1;
      PackUnpackWord(c, k);
    }
  }

  /** Word `k` of the twelve T and P words gives back its two bytes. */
  lemma PackUnpackWord(c: seq<byte>, k: int)
    requires |c| == 32 && 0 <= k < 12
    ensures Pack(Unpack(c))[2 * k] == c[2 * k] && Pack(Unpack(c))[2 * k + 1] == c[2 * k + 1]
  {
    var t := Unpack(c);
    var w := (t.digT + t.digP)[k];
    var lo, hi := c[2 * k], c[2 * k + 1];
    PackWordBytes(t, k);
    UnpackWord(c, k);
    BytesRoundTrip(lo, hi);
    if k == 0 || k == 3 {
      assert w == U16(lo, hi);
    } else {
      assert w == S16(U16(lo, hi));
    }
    assert Lo(w) == ByteOf(w, 0) && Hi(w) == ByteOf(w, 1);
  }

  /** Word `k` of the unpacked T and P parameters, read from its two bytes. */
  lemma UnpackWord(c: seq<byte>, k: int)
    requires |c| == 32 && 0 <= k < 12
    ensures var t := Unpack(c);
      (t.digT + t.digP)[k] == if k == 0 || k == 3 then WordAt(c, 2 * k) else S16(WordAt(c, 2 * k))
  {
  }

  // ---- raw ADC values ----

  /** `(msb << 12) | (lsb << 4) | (xlsb >> 4)`: a 20-bit pressure or temperature reading. */
  function Raw20(msb: byte, lsb: byte, xlsb: byte): (v: int)
    ensures 0 <= v < 0x10_0000
  {
    msb as int * 0x1000 + lsb as int * 0x10 + xlsb as int / 0x10
  }

  /** The low nibble of the extra byte is discarded, and every 20-bit value is reachable. */
  lemma Raw20Shape(msb: byte, lsb: byte, xlsb: byte, v: int)
    requires 0 <= v < 0x10_0000
    ensures Raw20(msb, lsb, xlsb) == Raw20(msb, lsb, (xlsb as int / 0x10 * 0x10) as byte)
    ensures Raw20((v / 0x1000) as byte, (v / 0x10 % 0x100) as byte, (v % 0x10 * 0x10) as byte) == v
  {
  }

  datatype Raw = Raw(temp: int, pres: int, hum: int)

  /** `read_data` on the 8 bytes from 0xF7: pressure, temperature, then humidity. */
  function Decode(d: seq<byte>): (r: Raw)
    requires |d| == 8
    ensures 0 <= r.temp < 0x10_0000 && 0 <= r.pres < 0x10_0000 && 0 <= r.hum < 0x1_0000
  {
    Raw(Raw20(d[3], d[4], d[5]), Raw20(d[0], d[1], d[2]), U16(d[7], d[6]))
  }

  // ---- compensation (section 8.1 of the BME280 datasheet, over exact reals) ----

  function TFine(adcT: int, digT: seq<int>): real
    requires |digT| == 3
  {
    var v1 := (adcT as real / 16384.0 - digT[0] as real / 1024.0) * digT[1] as real;
    var v2 := adcT as real / 131072.0 - digT[0] as real / 8192.0;
    v1 + v2 * v2 * digT[2] as real
  }

  function CompensateP(adcP: int, tFine: real, digP: seq<int>): real
    requires |digP| == 9
  {
    var a1 := tFine / 2.0 - 64000.0;
    var a2 := a1 / 4.0 * (a1 / 4.0) / 2048.0 * digP[5] as real;
    var b2 := a2 + a1 * digP[4] as real * 2.0;
    var c2 := b2 / 4.0 + digP[3] as real * 65536.0;
    var b1 := (digP[2] as real * (a1 / 4.0 * (a1 / 4.0) / 8192.0) / 8.0 + digP[1] as real * a1 / 2.0) / 262144.0;
    var c1 := (32768.0 + b1) * digP[0] as real / 32768.0;
    if c1 == 0.0 then 0.0
    else
      var p0 := (1048576.0 - adcP as real - c2 / 4096.0) * 3125.0;
      var p1 := if p0 < 2147483648.0 then p0 * 2.0 / c1 else p0 / c1 * 2.0;
      var d1 := digP[8] as real * (p1 / 8.0 * (p1 / 8.0) / 8192.0) / 4096.0;
      var d2 := p1 / 4.0 * digP[7] as real / 8192.0;
      (p1 + (d1 + d2 + digP[6] as real) / 16.0) / 100.0
  }

  /** The humidity formula before the clamp, for `var_h = t_fine - 76800 != 0`. */
  function HumidityRaw(adcH: int, varH: real, digH: seq<int>): real
    requires |digH| == 6
  {
    var h := (adcH as real - (digH[3] as real * 64.0 + digH[4] as real / 16384.0 * varH))
             * (digH[1] as real / 65536.0
                * (1.0 + digH[5] as real / 67108864.0 * varH * (1.0 + digH[2] as real / 67108864.0 * varH)));
    h * (1.0 - digH[0] as real * h / 524288.0)
  }

  /** `compensate_H`: a relative humidity in [0, 100] %, and 0.0 when `t_fine` is exactly 76800. */
  function CompensateH(adcH: int, tFine: real, digH: seq<int>): (h: real)
    requires |digH| == 6
    ensures 0.0 <= h <= 100.0
    ensures tFine == 76800.0 ==> h == 0.0
    ensures tFine != 76800.0 ==> var raw := HumidityRaw(adcH, tFine - 76800.0, digH);
      (0.0 <= raw <= 100.0 ==> h == raw) && (raw > 100.0 ==> h == 100.0) && (raw < 0.0 ==> h == 0.0)
  {
    var varH := tFine - 76800.0;
    if varH == 0.0 then 0.0
    else
      var h := HumidityRaw(adcH, varH, digH);
      if h > 100.0 then 100.0 else if h < 0.0 then 0.0 else h
  }

  /** `(t, p, h)` as `read_all` returns them. */
  datatype Reading = Reading(t: real, p: real, h: real)

  function Compensate(r: Raw, trim: Trim): Reading
    requires InRange(trim)
  {
    var tf := TFine(r.temp, trim.digT);
    Reading(tf / 5120.0, CompensateP(r.pres, tf, trim.digP), CompensateH(r.hum, tf, trim.digH))
  }

  /** A block read that raised, or returned other than `n` bytes, fails the call. */
  predicate Complete(reply: Option<seq<byte>>, n: nat) { reply.Some? && |reply.value| == n }

  // ---- baseline ----

  const DefaultBaseline: real := 1013.25
  const BaselineReads: nat := 100
  const WarmUp: nat := 25

  function Sum(vs: seq<real>): real
  {
    if vs == [] then 0.0 else Sum(vs[..|vs| - 1]) + vs[|vs| - 1]
  }

  function Mean(vs: seq<real>): real
    requires vs != []
  {
    Sum(vs) / |vs| as real
  }

  lemma {:induction false} SumBounds(vs: seq<real>, lo: real, hi: real)
    requires forall i :: 0 <= i < |vs| ==> lo <= vs[i] <= hi
    ensures |vs| as real * lo <= Sum(vs) <= |vs| as real * hi
  {
    if vs != [] {
      SumBounds(vs[..|vs| - 1], lo, hi);
    }
  }

  /** The mean lies between any bounds of the values averaged. */
  lemma MeanBounds(vs: seq<real>, lo: real, hi: real)
    requires vs != [] && forall i :: 0 <= i < |vs| ==> lo <= vs[i] <= hi
    ensures lo <= Mean(vs) <= hi
  {
    SumBounds(vs, lo, hi);
    var n := |vs| as real;
    assert Mean(vs) * n == Sum(vs);
  }

  function ReplyAt(replies: seq<Option<seq<byte>>>, i: nat): Option<seq<byte>>
  {
    if i < |replies| then replies[i] else None
  }

  /** The pressure one `read_all` contributes, if it completes. */
  function PressureOf(live: bool, reply: Option<seq<byte>>, trim: Trim): Option<real>
    requires InRange(trim)
  {
    if live && Complete(reply, 8) then Some(Compensate(Decode(reply.value), trim).p) else None
  }

  /** The pressures collected by the first `n` reads, in order. */
  function Samples(live: bool, replies: seq<Option<seq<byte>>>, n: nat, trim: Trim): seq<real>
    requires InRange(trim)
  {
    if n == 0 then []
    else
      var p := PressureOf(live, ReplyAt(replies, n - 1), trim);
      Samples(live, replies, n - 1, trim) + (if p.Some? then [p.value] else [])
  }

  /** `baseline`: the default without calibration or samples; otherwise the mean after the warm-up. */
  function BaselineOf(calibOk: bool, live: bool, replies: seq<Option<seq<byte>>>, trim: Trim): real
    requires InRange(trim)
  {
    if !calibOk then DefaultBaseline
    else
      var vs := Samples(live, replies, BaselineReads, trim);
      if vs == [] then DefaultBaseline
      else if |vs| > WarmUp then Mean(vs[WarmUp..])
      else Mean(vs)
  }

  /**
   * The baseline is the default 1013.25 hPa, or lies within the range of the samples it
   * averages: all of them when there are at most 25, the ones after the first 25 otherwise.
   */
  lemma BaselineWithinSamples(calibOk: bool, live: bool, replies: seq<Option<seq<byte>>>, trim: Trim, lo: real, hi: real)
    requires InRange(trim)
    requires var vs := Samples(live, replies, BaselineReads, trim);
      Within(vs, if |vs| > WarmUp then WarmUp else 0, lo, hi)
    ensures var b := BaselineOf(calibOk, live, replies, trim);
      b == DefaultBaseline || lo <= b <= hi
  {
    var vs := Samples(live, replies, BaselineReads, trim);
    if calibOk && vs != [] {
      if |vs| > WarmUp {
        var tail := vs[WarmUp..];
        assert forall i :: 0 <= i < |tail| ==> tail[i] == vs[WarmUp + i];
        MeanBounds(tail, lo, hi);
      } else {
        MeanBounds(vs, lo, hi);
      }
    }
  }

  /** Every value of `vs` from index `from` on lies in [lo, hi]. */
  predicate Within(vs: seq<real>, from: nat, lo: real, hi: real)
  {
    forall i :: from <= i < |vs| ==> lo <= vs[i] <= hi
  }

  /** Without a working handle no read completes, so the baseline is the default. */
  lemma NoHandleGivesDefault(calibOk: bool, replies: seq<Option<seq<byte>>>, trim: Trim)
    requires InRange(trim)
    ensures BaselineOf(calibOk, false, replies, trim) == DefaultBaseline
  {
    ZeroSamples(replies, trim, BaselineReads);
  }

  lemma {:induction false} ZeroSamples(replies: seq<Option<seq<byte>>>, trim: Trim, n: nat)
    requires InRange(trim)
    ensures Samples(false, replies, n, trim) == []
  {
    if n > 0 {
      ZeroSamples(replies, trim, n - 1);
    }
  }

  const SetupWrites: seq<(int, int)> := [(0xF2, 0x01), (0xF4, 0x27), (0xF5, 0xA0)]

  /** Whether the `k`-th write's transfer completes; a write without an entry completes. */
  function SentAt(sent: seq<bool>, k: nat): bool { k >= |sent| || sent[k] }

  /** The record of one write: the write itself when its transfer completed, nothing otherwise. */
  function Delivered(ok: bool, w: (int, int)): seq<(int, int)> { if ok then [w] else [] }

  /** The writes of `setup` that reach the device, given each transfer's outcome. */
  function SetupDelivered(sent: seq<bool>): seq<(int, int)>
  {
    Delivered(SentAt(sent, 0), SetupWrites[0]) + Delivered(SentAt(sent, 1), SetupWrites[1])
    + Delivered(SentAt(sent, 2), SetupWrites[2])
  }

  /**
   * When every transfer completes, `setup` writes ctrl_hum, ctrl_meas and config in that
   * order. A failing transfer only drops its own write: the writes that arrive are among
   * those three, at most once each, in rising register order, so ctrl_hum never arrives
   * after ctrl_meas; a dropped write is missing.
   */
  lemma SetupInOrder(sent: seq<bool>)
    ensures SetupDelivered([]) == SetupWrites
    ensures var d := SetupDelivered(sent);
      |d| <= 3 && (forall i :: 0 <= i < |d| ==> d[i] in SetupWrites)
      && (forall i, j :: 0 <= i < j < |d| ==> d[i].0 < d[j].0)
    ensures forall k :: 0 <= k < 3 && !SentAt(sent, k) ==> SetupWrites[k] !in SetupDelivered(sent)
  {
  }

  /** The `BME280Sensor` object. */
  class Sensor {
    /** `pi.connected`. */
    var connected: bool
    /** `i2c_handle` is not `None`. */
    var handle: bool
    var calibOk: bool
    var trim: Trim
    var tFine: real
    /** Every register write sent, as (register, value). */
    var writes: seq<(int, int)>

    ghost predicate Valid()
      reads this
    {
      InRange(trim) && (handle ==> connected)
    }

    /**
     * `__init__`: `connected` and `opens` stand for the pigpio connection and `i2c_open`;
     * with a handle, `setup` and then `get_calib_param` on the given replies.
     */
    constructor (connected: bool, opens: bool, sent: seq<bool>,
                 block1: Option<seq<byte>>, h1: Option<byte>, block2: Option<seq<byte>>)
      ensures Valid() && this.connected == connected && handle == (connected && opens) && tFine == 0.0
      ensures writes == (if handle then SetupDelivered(sent) else [])
      ensures calibOk <==> handle && Complete(block1, 24) && h1.Some? && Complete(block2, 7)
      ensures calibOk ==> trim == Unpack(block1.value + [h1.value] + block2.value)
    {
      this.connected := connected;
      handle := connected && opens;
      calibOk := false;
      trim := Unpack(seq(32, _ => 0 as byte));
      tFine := 0.0;
      writes := [];
      new;
      if handle {
        Setup(sent);
        GetCalibParam(block1, h1, block2);
      }
    }

    /**
     * `close`: with pigpio connected and a handle, `i2c_close` is called; `closes` says
     * whether it completes. The handle is dropped only then: when the call raises, the
     * error is swallowed and the handle kept.
     */
    method Close(closes: bool)
      requires Valid()
      modifies this`handle
      ensures Valid()
      ensures handle == (old(handle) && !(connected && closes))
    {
      if connected && handle && closes {
        handle := false;
      }
    }

    /**
     * `writeReg`: nothing without a handle; otherwise the transfer is tried, and `sent` says
     * whether it completes. A raising transfer is swallowed and nothing reaches the device.
     */
    method WriteReg(reg: int, data: int, sent: bool)
      modifies this`writes
      ensures writes == old(writes) + Delivered(handle && sent, (reg, data))
    {
      if !handle {
        return;
      }
      if sent {
        writes := writes + [(reg, data)];
      }
    }

    /**
     * `setup`: oversampling x1 for all three, normal mode, 1000 ms standby, filter off;
     * ctrl_hum (0xF2) is written before ctrl_meas (0xF4), as section 5.4.3 of the
     * datasheet requires for the humidity setting to take effect.
     */
    method Setup(sent: seq<bool>)
      modifies this`writes
      ensures writes == old(writes) + (if handle then SetupDelivered(sent) else [])
    {
      var osrsT, osrsP, osrsH, mode := 1, 1, 1, 3;
      var tSb, filt, spi3wEn := 5, 0, 0;
      var ctrlMeas := osrsT * 32 + osrsP * 4 + mode;
      var config := tSb * 32 + filt * 4 + spi3wEn;
      var ctrlHum := osrsH;
      ghost var w0 := writes;
      WriteReg(0xF2, ctrlHum, SentAt(sent, 0));
      WriteReg(0xF4, ctrlMeas, SentAt(sent, 1));
      WriteReg(0xF5, config, SentAt(sent, 2));
      if handle {
        assert writes == w0 + Delivered(SentAt(sent, 0), SetupWrites[0]) + Delivered(SentAt(sent, 1), SetupWrites[1])
          + Delivered(SentAt(sent, 2), SetupWrites[2]);
      }
    }

    /**
     * `get_calib_param`: calibration succeeds only after complete reads of 24 bytes, the
     * H1 byte and 7 bytes; any failure leaves `calibOk` false and the parameters as they were.
     */
    method GetCalibParam(block1: Option<seq<byte>>, h1: Option<byte>, block2: Option<seq<byte>>)
      requires Valid()
      modifies this`calibOk, this`trim
      ensures Valid()
      ensures calibOk <==> handle && Complete(block1, 24) && h1.Some? && Complete(block2, 7)
      ensures calibOk ==> trim == Unpack(block1.value + [h1.value] + block2.value)
      ensures !calibOk ==> trim == old(trim)
    {
      if !handle {
        calibOk := false;
        return;
      }
      if !Complete(block1, 24) || h1.None? || !Complete(block2, 7) {
        calibOk := false;
        return;
      }
      var calib := block1.value + [h1.value] + block2.value;
      trim := Unpack(calib);
      calibOk := |trim.digT| == 3 && |trim.digP| == 9 && |trim.digH| == 6;
    }

    /**
     * `read_data`: `None` without a handle or calibration, or when the 8-byte read fails;
     * otherwise the raw values, with `t_fine` updated from the temperature.
     */
    method ReadData(reply: Option<seq<byte>>) returns (r: Option<Raw>)
      requires Valid()
      modifies this`tFine
      ensures r.Some? <==> handle && calibOk && Complete(reply, 8)
      ensures r.Some? ==> r.value == Decode(reply.value) && tFine == TFine(r.value.temp, trim.digT)
      ensures r.None? ==> tFine == old(tFine)
    {
      if !handle || !calibOk {
        return None;
      }
      if !Complete(reply, 8) {
        return None;
      }
      var raw := Decode(reply.value);
      tFine := TFine(raw.temp, trim.digT);
      r := Some(raw);
    }

    /** `read_all`: `None` exactly when `read_data` fails; otherwise the compensated values. */
    method ReadAll(reply: Option<seq<byte>>) returns (r: Option<Reading>)
      requires Valid()
      modifies this`tFine
      ensures r.Some? <==> handle && calibOk && Complete(reply, 8)
      ensures r.Some? ==> r.value == Compensate(Decode(reply.value), trim) && 0.0 <= r.value.h <= 100.0
    {
      var raw := ReadData(reply);
      if raw.None? {
        return None;
      }
      var t := tFine / 5120.0;
      var p := CompensateP(raw.value.pres, tFine, trim.digP);
      var h := CompensateH(raw.value.hum, tFine, trim.digH);
      r := Some(Reading(t, p, h));
    }

    /** `pressure`: the compensated pressure of one read, `None` when it fails. */
    method Pressure(reply: Option<seq<byte>>) returns (p: Option<real>)
      requires Valid()
      modifies this`tFine
      ensures p == PressureOf(handle && calibOk, reply, trim)
    {
      var raw := ReadData(reply);
      if raw.None? {
        return None;
      }
      p := Some(CompensateP(raw.value.pres, tFine, trim.digP));
    }

    /** `temperature`: the temperature of one read in degrees Celsius, `None` when it fails. */
    method Temperature(reply: Option<seq<byte>>) returns (t: Option<real>)
      requires Valid()
      modifies this`tFine
      ensures t.Some? <==> handle && calibOk && Complete(reply, 8)
      ensures t.Some? ==> t.value == Compensate(Decode(reply.value), trim).t
    {
      var raw := ReadData(reply);
      if raw.None? {
        return None;
      }
      tFine := TFine(raw.value.temp, trim.digT);
      t := Some(tFine / 5120.0);
    }

    /** `humidity`: the clamped relative humidity of one read, `None` when it fails. */
    method Humidity(reply: Option<seq<byte>>) returns (h: Option<real>)
      requires Valid()
      modifies this`tFine
      ensures h.Some? <==> handle && calibOk && Complete(reply, 8)
      ensures h.Some? ==> h.value == Compensate(Decode(reply.value), trim).h && 0.0 <= h.value <= 100.0
    {
      var raw := ReadData(reply);
      if raw.None? {
        return None;
      }
      h := Some(CompensateH(raw.value.hum, tFine, trim.digH));
    }

    /** `baseline`: 100 reads, the successful pressures averaged after a 25-sample warm-up. */
    method Baseline(replies: seq<Option<seq<byte>>>) returns (b: real)
      requires Valid()
      modifies this`tFine
      ensures b == BaselineOf(calibOk, handle && calibOk, replies, trim)
    {
      if !calibOk {
        return DefaultBaseline;
      }
      var values: seq<real> := [];
      for i := 0 to BaselineReads
        invariant values == Samples(handle && calibOk, replies, i, trim)
      {
        var r := ReadAll(ReplyAt(replies, i));
        if r.Some? {
          values := values + [r.value.p];
        }
      }
      if |values| == 0 {
        return DefaultBaseline;
      }
      if |values| > WarmUp {
        var vals := values[WarmUp..];
        return Sum(vals) / |vals| as real;
      }
      b := Sum(values) / |values| as real;
    }
  }
}
