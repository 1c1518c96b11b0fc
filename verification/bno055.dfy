/**
 * The chatGPT `bno055.py` driver for the Bosch BNO055: guarded byte and block reads,
 * signed little-endian vectors, the calibration-status bit fields, the revision word,
 * unit scaling, the chip-id poll in `begin`, `close`, and the 0x28-then-0x29 address scan.
 *
 * I2C replies are inputs: a byte read is `None` when pigpio raises and otherwise the
 * integer it returned (negative on an error code); a block read is `None` when it raises
 * and otherwise the bytes received.
 */
module Bno055 {
  import opened Common
  import Bme280

  const AddressA: int := 0x28
  const AddressB: int := 0x29
  const ChipId: int := 0xA0

  const PageIdAddr: int := 0x07
  const ChipIdAddr: int := 0x00
  const AccelRevIdAddr: int := 0x01
  const MagRevIdAddr: int := 0x02
  const GyroRevIdAddr: int := 0x03
  const SwRevIdLsbAddr: int := 0x04
  const SwRevIdMsbAddr: int := 0x05
  const BlRevIdAddr: int := 0x06
  const AccelDataAddr: int := 0x08
  const MagDataAddr: int := 0x0E
  const GyroDataAddr: int := 0x14
  const EulerAddr: int := 0x1A
  const QuaternionAddr: int := 0x20
  const LinearAccelAddr: int := 0x28
  const GravityAddr: int := 0x2E
  const TempAddr: int := 0x34
  const CalibStatAddr: int := 0x35
  const OprModeAddr: int := 0x3D
  const PwrModeAddr: int := 0x3E
  const SysTriggerAddr: int := 0x3F

  const ModeConfig: int := 0x00
  const ModeNdof: int := 0x0C
  const PowerNormal: int := 0x00

  // ---- guarded reads ----

  /** `_read_byte`: `None` without a handle, on an exception or a negative result; else the low 8 bits. */
  function ByteResult(handle: bool, reply: Option<int>): (r: Option<int>)
    ensures r.None? <==> !handle || reply.None? || reply.value < 0
    ensures r.Some? ==> 0 <= r.value < 0x100 && (reply.value - r.value) % 0x100 == 0
    ensures r.Some? && reply.value < 0x100 ==> r.value == reply.value
  {
    if !handle || reply.None? || reply.value < 0 then None else Some(reply.value % 0x100)
  }

  /** `_read_bytes`: `None` unless exactly `length` bytes arrive on a present handle. */
  function BlockResult(handle: bool, length: nat, reply: Option<seq<byte>>): (r: Option<seq<byte>>)
    ensures r.Some? <==> handle && reply.Some? && |reply.value| == length
    ensures r.Some? ==> r == reply
  {
    if handle && reply.Some? && |reply.value| == length then reply else None
  }

  /** `_read_signed_byte`: a byte above 127 read as negative. */
  function SignedByteResult(handle: bool, reply: Option<int>): (r: Option<int>)
    ensures r.None? <==> ByteResult(handle, reply).None?
    ensures r.Some? ==> -0x80 <= r.value < 0x80 && r.value == Bme280.S8(ByteResult(handle, reply).value)
  {
    match ByteResult(handle, reply)
    case None => None
    case Some(v) => Some(if v > 127 then v - 256 else v)
  }

  // ---- vectors ----

  /** `((msb << 8) | lsb) & 0xFFFF`, less 65536 when above 32767. */
  function SignedWord(lo: byte, hi: byte): (v: int)
    ensures -0x8000 <= v < 0x8000
  {
    var raw := (hi as int * 0x100 + lo as int) % 0x1_0000;
    if raw > 32767 then raw - 65536 else raw
  }

  /** The vector decoding agrees with the BME280 driver's `_s16` of the same word. */
  lemma SignedWordIsS16(lo: byte, hi: byte)
    ensures SignedWord(lo, hi) == Bme280.S16(Bme280.U16(lo, hi))
  {
    var u := Bme280.U16(lo, hi);
    DivModUnique(u, 0x1_0000, 0, u);
  }

  /** The `count` signed words of `data`, word `i` at bytes `2i` (low) and `2i + 1` (high). */
  function VectorOf(data: seq<byte>, count: nat): (v: seq<int>)
    requires |data| == 2 * count
    ensures |v| == count
    ensures forall i :: 0 <= i < count ==> -0x8000 <= v[i] < 0x8000 && v[i] == SignedWord(data[2 * i], data[2 * i + 1])
  {
    seq(count, i requires 0 <= i < count => SignedWord(data[2 * i], data[2 * i + 1]))
  }

  predicate Int16s(v: seq<int>) { forall i :: 0 <= i < |v| ==> -0x8000 <= v[i] < 0x8000 }

  /** The bytes a sensor sends for the vector `v`. */
  function Encode(v: seq<int>): (d: seq<byte>)
    ensures |d| == 2 * |v|
  {
    seq(2 * |v|, j requires 0 <= j < 2 * |v| => Bme280.ByteOf(v[j / 2], j % 2))
  }

  /** Decoding what a sensor sends for a vector of 16-bit values gives the vector back. */
  lemma DecodeEncode(v: seq<int>)
    requires Int16s(v)
    ensures VectorOf(Encode(v), |v|) == v
  {
    var d := Encode(v);
    forall i | 0 <= i < |v|
      ensures VectorOf(d, |v|)[i] == v[i]
    {
      assert d[2 * i] == Bme280.Lo(v[i]) && d[2 * i + 1] == Bme280.Hi(v[i]);
      Bme280.WordRoundTrip(v[i], true);
      SignedWordIsS16(d[2 * i], d[2 * i + 1]);
    }
  }

  /** Every received byte is used: re-encoding a decoded vector reproduces the block. */
  lemma EncodeDecode(data: seq<byte>, count: nat)
    requires |data| == 2 * count
    ensures Encode(VectorOf(data, count)) == data
  {
    var v := VectorOf(data, count);
    forall j | 0 <= j < 2 * count
      ensures Encode(v)[j] == data[j]
    {
      var i := j / 2;
      SignedWordIsS16(data[2 * i], data[2 * i + 1]);
      Bme280.BytesRoundTrip(data[2 * i], data[2 * i + 1]);
    }
  }

  /** `_read_vector`: `None` on a failed or short read, else the decoded words. */
  function VectorResult(handle: bool, count: nat, reply: Option<seq<byte>>): Option<seq<int>>
  {
    match BlockResult(handle, 2 * count, reply)
    case None => None
    case Some(data) => Some(VectorOf(data, count))
  }

  // ---- calibration status and revision ----

  /** `(sys, gyro, accel, mag)`. */
  datatype CalibStatus = CalibStatus(sys: int, gyro: int, accel: int, mag: int)

  /** Bits 7:6, 5:4, 3:2 and 1:0 of the 0x35 byte. */
  function SplitCalib(b: int): (c: CalibStatus)
    requires 0 <= b < 0x100
    ensures 0 <= c.sys < 4 && 0 <= c.gyro < 4 && 0 <= c.accel < 4 && 0 <= c.mag < 4
  {
    CalibStatus(b / 64 % 4, b / 16 % 4, b / 4 % 4, b % 4)
  }

  function JoinCalib(c: CalibStatus): int
  {
    c.sys * 64 + c.gyro * 16 + c.accel * 4 + c.mag
  }

  /** Recombining the four fields reproduces the byte. */
  lemma JoinSplitCalib(b: int)
    requires 0 <= b < 0x100
    ensures JoinCalib(SplitCalib(b)) == b
  {
    var c := SplitCalib(b);
    DivModUnique(b / 64, 4, 0, b / 64);
    DivModUnique(b, 4, b / 4, c.mag);
    DivModUnique(b / 4, 4, b / 16, c.accel);
    DivModUnique(b / 16, 4, b / 64, c.gyro);
    DivModUnique(b, 16, b / 16, c.accel * 4 + c.mag);
    DivModUnique(b, 64, b / 64, c.gyro * 16 + c.accel * 4 + c.mag);
  }

  /** Every choice of four 2-bit fields is read back from its byte. */
  lemma SplitJoinCalib(c: CalibStatus)
    requires 0 <= c.sys < 4 && 0 <= c.gyro < 4 && 0 <= c.accel < 4 && 0 <= c.mag < 4
    ensures 0 <= JoinCalib(c) < 0x100 && SplitCalib(JoinCalib(c)) == c
  {
    var b := JoinCalib(c);
    DivModUnique(b, 4, c.sys * 16 + c.gyro * 4 + c.accel, c.mag);
    DivModUnique(b, 16, c.sys * 4 + c.gyro, c.accel * 4 + c.mag);
    DivModUnique(b, 64, c.sys, c.gyro * 16 + c.accel * 4 + c.mag);
    DivModUnique(b / 4, 4, c.sys * 4 + c.gyro, c.accel);
    DivModUnique(b / 16, 4, c.sys, c.gyro);
    DivModUnique(b / 64, 4, 0, c.sys);
  }

  /** `(sw, bl, accel, mag, gyro)`. */
  datatype Revision = Revision(sw: int, bl: int, accel: int, mag: int, gyro: int)

  // ---- scaling ----

  /** Each component divided by `d`. */
  function Scaled(v: seq<int>, d: real): (s: seq<real>)
    requires d > 0.0
    ensures |s| == |v| && forall i :: 0 <= i < |v| ==> s[i] * d == v[i] as real
  {
    seq(|v|, i requires 0 <= i < |v| => v[i] as real / d)
  }

  /** A scaled 16-bit vector lies in [-32768 / d, 32768 / d). */
  lemma ScaledBounds(v: seq<int>, d: real)
    requires d > 0.0 && Int16s(v)
    ensures forall i :: 0 <= i < |v| ==> -32768.0 / d <= Scaled(v, d)[i] < 32768.0 / d
  {
    forall i | 0 <= i < |v|
      ensures -32768.0 / d <= Scaled(v, d)[i] < 32768.0 / d
    {
      var x := v[i] as real;
      assert Scaled(v, d)[i] == x / d;
      assert x / d - -32768.0 / d == (x + 32768.0) / d;
      assert 32768.0 / d - x / d == (32768.0 - x) / d;
    }
  }

  /** Euler angles, gyroscope and magnetometer are in 1/16 units; accelerations in 1/100. */
  const DegreeScale: real := 16.0
  const AccelScale: real := 100.0
  /** Quaternion units: 2^14 per unit, so `scale = 1.0 / (1 << 14)`. */
  const QuaternionScale: real := 16384.0

  /** `euler`, `gyroscope`, `magnetometer`, `accelerometer`, `linear_acceleration`, `gravity`, `quaternion`. */
  function ScaledResult(handle: bool, count: nat, d: real, reply: Option<seq<byte>>): (r: Option<seq<real>>)
    requires d > 0.0
    ensures r.None? <==> VectorResult(handle, count, reply).None?
    ensures r.Some? ==> |r.value| == count && r.value == Scaled(VectorResult(handle, count, reply).value, d)
  {
    match VectorResult(handle, count, reply)
    case None => None
    case Some(v) => Some(Scaled(v, d))
  }

  /** A quaternion component lies in [-2, 2). */
  lemma QuaternionBounds(handle: bool, reply: Option<seq<byte>>)
    ensures var r := ScaledResult(handle, 4, QuaternionScale, reply);
      r.Some? ==> forall i :: 0 <= i < 4 ==> -2.0 <= r.value[i] < 2.0
  {
    var v := VectorResult(handle, 4, reply);
    if v.Some? {
      ScaledBounds(v.value, QuaternionScale);
    }
  }

  // ---- address scan ----

  /** A probe of `addr` answers when its chip-id read neither raises nor returns a negative value. */
  predicate Answers(probe: int -> Option<int>, addr: int) { probe(addr).Some? && probe(addr).value >= 0 }

  /**
   * `_scan_address`: 0x28 when it answers; otherwise 0x29 when it answers; otherwise
   * `None`. `probe(addr)` is what reading the chip id at `addr` gives (`None` when the
   * open, the read or the close raises).
   */
  method ScanAddress(probe: int -> Option<int>) returns (r: Option<int>)
    ensures r == Some(AddressA) <==> Answers(probe, AddressA)
    ensures r == Some(AddressB) <==> !Answers(probe, AddressA) && Answers(probe, AddressB)
    ensures r.None? <==> !Answers(probe, AddressA) && !Answers(probe, AddressB)
  {
    var candidates := [AddressA, AddressB];
    assert candidates[0] == AddressA && candidates[1] == AddressB;
    for i := 0 to |candidates|
      invariant forall j :: 0 <= j < i ==> !Answers(probe, candidates[j])
    {
      var v := probe(candidates[i]);
      if v.Some? && v.value >= 0 {
        return Some(candidates[i]);
      }
    }
    return None;
  }

  /** The `BNO055` object. */
  class Imu {
    /** `self.pi` is present and connected. */
    var piReady: bool
    /** `_i2c_handle` is not `None`. */
    var handle: bool
    var address: Option<int>
    var mode: int
    var ownsPi: bool
    var stopOnClose: bool
    /** `pi.stop()` was called. */
    var piStopped: bool
    /** Every byte write sent, as (register, value). */
    var writes: seq<(int, int)>

    ghost predicate Valid()
      reads this
    {
      handle ==> piReady && address.Some?
    }

    /**
     * `__init__`: without a connected pigpio there is no handle; otherwise the given
     * address or the scanned one, and `i2c_open` on it (`opens` says whether that succeeds).
     */
    constructor (piConnected: bool, ownsPi: bool, stopOnClose: bool, address: Option<int>, probe: int -> Option<int>, opens: bool)
      ensures Valid() && mode == ModeNdof && writes == [] && !piStopped
      ensures piReady == piConnected && this.ownsPi == ownsPi && this.stopOnClose == stopOnClose
      ensures !piConnected ==> !handle
      ensures piConnected && address.Some? ==> this.address == address
      ensures piConnected && address.None? ==>
        (this.address == Some(AddressA) <==> Answers(probe, AddressA))
        && (this.address.None? <==> !Answers(probe, AddressA) && !Answers(probe, AddressB))
      ensures piConnected ==> (handle <==> this.address.Some? && opens)
    {
      mode := ModeNdof;
      this.ownsPi := ownsPi;
      this.stopOnClose := stopOnClose;
      piStopped := false;
      writes := [];
      piReady := piConnected;
      if !piConnected {
        handle := false;
        this.address := None;
      } else {
        var a := address;
        if address.None? {
          a := ScanAddress(probe);
        }
        this.address := a;
        handle := a.Some? && opens;
      }
    }

    /** `close`: the handle is always released; an owned pigpio is stopped when asked to. */
    method Close()
      modifies this`handle, this`piStopped
      ensures !handle
      ensures piStopped == (old(piStopped) || (stopOnClose && ownsPi && piReady))
    {
      handle := false;
      if stopOnClose && ownsPi && piReady {
        piStopped := true;
      }
    }

    /**
     * `_write_byte`: `False` without a handle; otherwise the value's low 8 bits are
     * written. `sent` says whether pigpio's transfer completes; when it raises, the write
     * is not recorded and `False` is returned.
     */
    method WriteByte(reg: int, value: int, sent: bool) returns (ok: bool)
      modifies this`writes
      ensures ok == (handle && sent)
      ensures writes == old(writes) + Sent(handle && sent, (reg, value % 0x100))
    {
      if !handle {
        return false;
      }
      if !sent {
        return false;
      }
      writes := writes + [(reg, value % 0x100)];
      return true;
    }

    /** `set_mode`: the operating-mode register. */
    method SetMode(m: int, sent: bool)
      modifies this`writes
      ensures writes == old(writes) + Sent(handle && sent, (OprModeAddr, m % 0x100))
    {
      var _ := WriteByte(OprModeAddr, m % 0x100, sent);
      assert m % 0x100 % 0x100 == m % 0x100;
    }

    method ReadByte(reply: Option<int>) returns (r: Option<int>)
      ensures r == ByteResult(handle, reply)
    {
      if !handle {
        return None;
      }
      if reply.None? || reply.value < 0 {
        return None;
      }
      return Some(reply.value % 0x100);
    }

    method ReadBytes(length: nat, reply: Option<seq<byte>>) returns (r: Option<seq<byte>>)
      ensures r == BlockResult(handle, length, reply)
    {
      if !handle {
        return None;
      }
      if reply.None? || |reply.value| != length {
        return None;
      }
      return reply;
    }

    method ReadSignedByte(reply: Option<int>) returns (r: Option<int>)
      ensures r == SignedByteResult(handle, reply)
    {
      var v := ReadByte(reply);
      if v.None? {
        return None;
      }
      return Some(if v.value > 127 then v.value - 256 else v.value);
    }

    /** `_read_vector`: the words appended one by one. */
    method ReadVector(count: nat, reply: Option<seq<byte>>) returns (r: Option<seq<int>>)
      ensures r == VectorResult(handle, count, reply)
      ensures r.Some? ==> |r.value| == count && Int16s(r.value)
    {
      var data := ReadBytes(2 * count, reply);
      if data.None? || |data.value| < 2 * count {
        return None;
      }
      var d := data.value;
      var out: seq<int> := [];
      for i := 0 to count
        invariant out == VectorOf(d, count)[..i]
      {
        var raw := (d[i * 2 + 1] as int * 0x100 + d[i * 2] as int) % 0x1_0000;
        if raw > 32767 {
          raw := raw - 65536;
        }
        out := out + [raw];
      }
      assert out == VectorOf(d, count);
      return Some(out);
    }

    /**
     * `begin`: `False` without pigpio or a handle; otherwise the page, configuration and
     * power writes, then up to 10 chip-id reads; `True` only when one of them reads 0xA0,
     * after the trigger reset and the requested mode are written. On failure the handle
     * is closed, which stops an owned pigpio when asked to. `sent[k]` says whether the
     * k-th write's transfer completes; the results of the writes are not looked at.
     */
    method Begin(m: int, idReplies: seq<Option<int>>, sent: seq<bool>) returns (ok: bool)
      modifies this`mode, this`writes, this`handle, this`piStopped
      ensures mode == m
      ensures ok <==> old(piReady && handle) && IdSeen(idReplies)
      ensures old(piReady && handle) && !ok ==>
        !handle && writes == old(writes) + SetupWrites(sent)
        && piStopped == (old(piStopped) || (stopOnClose && ownsPi && piReady))
      ensures ok ==> handle && writes == old(writes) + BeginWrites(m, sent) && piStopped == old(piStopped)
      ensures !old(piReady && handle) ==>
        writes == old(writes) && handle == old(handle) && piStopped == old(piStopped)
    {
      mode := m;
      if !piReady || !handle {
        return false;
      }
      ghost var w0 := writes;
      WriteSetup(sent);
      var bnoId: Option<int> := None;
      ghost var polled := writes;
      for i := 0 to 10
        invariant handle && mode == m && writes == polled && piStopped == old(piStopped)
        invariant forall j :: 0 <= j < i ==> !IdAt(idReplies, j)
        invariant bnoId == Some(ChipId) ==> IdSeen(idReplies)
        invariant i > 0 ==> bnoId == ByteResult(true, ReplyAt(idReplies, i - 1))
      {
        bnoId := ReadByte(ReplyAt(idReplies, i));
        if bnoId == Some(ChipId) {
          assert IdAt(idReplies, i);
          break;
        }
      }
      if bnoId != Some(ChipId) {
        Close();
        return false;
      }
      WriteFinish(sent);
      AppendAssoc(w0, SetupWrites(sent), FinishWrites(m, sent));
      return true;
    }

    /** The writes of `begin` before the chip-id poll, with a handle. */
    method WriteSetup(sent: seq<bool>)
      requires handle
      modifies this`writes
      ensures writes == old(writes) + SetupWrites(sent)
    {
      var written := WriteByte(PageIdAddr, 0, SentAt(sent, 0));
      SetMode(ModeConfig, SentAt(sent, 1));
      written := WriteByte(PageIdAddr, 0, SentAt(sent, 2));
      written := WriteByte(PwrModeAddr, PowerNormal, SentAt(sent, 3));
    }

    /** The writes of `begin` after the chip id was seen, with a handle. */
    method WriteFinish(sent: seq<bool>)
      requires handle
      modifies this`writes
      ensures writes == old(writes) + FinishWrites(mode, sent)
    {
      var written := WriteByte(SysTriggerAddr, 0x00, SentAt(sent, 4));
      SetMode(mode, SentAt(sent, 5));
    }

    /** `get_calibration_status`. */
    method GetCalibrationStatus(reply: Option<int>) returns (r: Option<CalibStatus>)
      ensures r.None? <==> ByteResult(handle, reply).None?
      ensures r.Some? ==> r.value == SplitCalib(ByteResult(handle, reply).value)
    {
      var calib := ReadByte(reply);
      if calib.None? {
        return None;
      }
      return Some(SplitCalib(calib.value));
    }

    /**
     * `get_revision`: the six reads in order accel, mag, gyro, bootloader, software LSB,
     * software MSB; `None` if any is missing.
     */
    method GetRevision(accel: Option<int>, mag: Option<int>, gyro: Option<int>, bl: Option<int>, swLsb: Option<int>, swMsb: Option<int>)
      returns (r: Option<Revision>)
      ensures r == RevisionOf(ByteResult(handle, accel), ByteResult(handle, mag), ByteResult(handle, gyro),
                              ByteResult(handle, bl), ByteResult(handle, swLsb), ByteResult(handle, swMsb))
    {
      var a := ReadByte(accel);
      var mg := ReadByte(mag);
      var g := ReadByte(gyro);
      var b := ReadByte(bl);
      var lsb := ReadByte(swLsb);
      var msb := ReadByte(swMsb);
      if a.None? || mg.None? || g.None? || b.None? || lsb.None? || msb.None? {
        return None;
      }
      var sw := (msb.value * 0x100 + lsb.value) % 0x1_0000;
      return Some(Revision(sw, b.value, a.value, mg.value, g.value));
    }

    /** `temperature`: the signed byte at 0x34. */
    method Temperature(reply: Option<int>) returns (r: Option<int>)
      ensures r == SignedByteResult(handle, reply)
    {
      r := ReadSignedByte(reply);
    }

    /** The scaled accessors: `count` words read and each divided by `d`. */
    method ReadScaled(count: nat, d: real, reply: Option<seq<byte>>) returns (r: Option<seq<real>>)
      requires d > 0.0
      ensures r == ScaledResult(handle, count, d, reply)
    {
      var vec := ReadVector(count, reply);
      if vec.None? {
        return None;
      }
      return Some(Scaled(vec.value, d));
    }
  }

  /**
   * The revision from the six byte reads: `None` when any is missing; otherwise the
   * bytes as they are and the software revision as the 16-bit word MSB:LSB.
   */
  function RevisionOf(accel: Option<int>, mag: Option<int>, gyro: Option<int>, bl: Option<int>, swLsb: Option<int>, swMsb: Option<int>): (r: Option<Revision>)
    requires forall b | b in [accel, mag, gyro, bl, swLsb, swMsb] && b.Some? :: 0 <= b.value < 0x100
    ensures r.None? <==> None in [accel, mag, gyro, bl, swLsb, swMsb]
    ensures r.Some? ==> r.value.sw == swMsb.value * 0x100 + swLsb.value && 0 <= r.value.sw < 0x1_0000
    ensures r.Some? ==> r.value == Revision(r.value.sw, bl.value, accel.value, mag.value, gyro.value)
  {
    if None in [accel, mag, gyro, bl, swLsb, swMsb] then None
    else
      var w := swMsb.value * 0x100 + swLsb.value;
      DivModUnique(w, 0x1_0000, 0, w);
      Some(Revision(w % 0x1_0000, bl.value, accel.value, mag.value, gyro.value))
  }

  function ReplyAt(replies: seq<Option<int>>, i: nat): Option<int>
  {
    if i < |replies| then replies[i] else None
  }

  /** The `i`-th chip-id read returns 0xA0. */
  predicate IdAt(replies: seq<Option<int>>, i: nat) { ByteResult(true, ReplyAt(replies, i)) == Some(ChipId) }

  /** One of the 10 polls reads the chip id. */
  predicate IdSeen(replies: seq<Option<int>>) { exists i :: 0 <= i < 10 && IdAt(replies, i) }

  /** Whether the `k`-th write's transfer completes; a write without an entry completes. */
  function SentAt(sent: seq<bool>, k: nat): bool { k >= |sent| || sent[k] }

  /** The record of one write: the write itself when its transfer completed, nothing otherwise. */
  function Sent(ok: bool, w: (int, int)): seq<(int, int)> { if ok then [w] else [] }

  /** The writes of `begin` before the chip-id poll: page 0, CONFIG mode, page 0, normal power. */
  function SetupWrites(sent: seq<bool>): seq<(int, int)>
  {
    Sent(SentAt(sent, 0), (PageIdAddr, 0)) + Sent(SentAt(sent, 1), (OprModeAddr, ModeConfig))
    + Sent(SentAt(sent, 2), (PageIdAddr, 0)) + Sent(SentAt(sent, 3), (PwrModeAddr, PowerNormal))
  }

  /** The writes of `begin` after the chip id was seen: trigger reset and the mode. */
  function FinishWrites(m: int, sent: seq<bool>): seq<(int, int)>
  {
    Sent(SentAt(sent, 4), (SysTriggerAddr, 0x00)) + Sent(SentAt(sent, 5), (OprModeAddr, m % 0x100))
  }

  /** The writes of a successful `begin`. */
  function BeginWrites(m: int, sent: seq<bool>): seq<(int, int)>
  {
    SetupWrites(sent) + FinishWrites(m, sent)
  }

  /**
   * When every transfer completes, `begin` writes page 0, CONFIG mode, page 0, normal
   * power, trigger reset and the mode, in that order; a failing transfer only drops its
   * own write, so the writes recorded are always among those six and never more.
   */
  lemma BeginWritesInOrder(m: int, sent: seq<bool>)
    ensures BeginWrites(m, []) == [(PageIdAddr, 0), (OprModeAddr, ModeConfig), (PageIdAddr, 0),
      (PwrModeAddr, PowerNormal), (SysTriggerAddr, 0x00), (OprModeAddr, m % 0x100)]
    ensures |BeginWrites(m, sent)| <= 6 && BeginWrites(m, sent)[..|SetupWrites(sent)|] == SetupWrites(sent)
    ensures forall k :: 0 <= k < |sent| && k < 6 && !sent[k] ==> |BeginWrites(m, sent)| < 6
  {
  }

  /** After `close` every read gives `None` and every write `False`. */
  lemma ClosedReadsNothing(reply: Option<int>, block: Option<seq<byte>>, count: nat)
    ensures ByteResult(false, reply).None? && SignedByteResult(false, reply).None?
    ensures BlockResult(false, 2 * count, block).None? && VectorResult(false, count, block).None?
  {
  }
}
