/**
 * The telemetry frame of main.c: the frame checksum (calculatecrc), the
 * 10-byte frame layout (prepareframe) and the identifier record kept in
 * EEPROM (loadsettingsfromeeprom).
 *
 * The frame checksum is a CRC-8 with polynomial x^8 + x^5 + x^4 + 1 (0x31),
 * start value 0, data bits taken most significant first and no final XOR.
 */
module FrameCodec {
  import opened Common

  /** Polynomial of the frame checksum, without its x^8 term. */
  const Poly: bv8 := 0x31

  /** Fixed header bytes of a frame. */
  const StartByte: bv8 := 0xCC
  const PayloadLength: bv8 := 6
  const SensorType: bv8 := 0xF7

  /** Identifier used when the EEPROM record is not consistent. */
  const DefaultSensorId: bv8 := 3

  /** Length of a frame on the wire. */
  const FrameLength := 10

  // ---------------------------------------------------------------------
  // The checksum

  /** One shift of the register, adding the polynomial when its top bit falls out. */
  function Shift(r: bv8): bv8 {
    if r & 0x80 != 0 then (r << 1) ^ Poly else r << 1
  }

  /** `n` shifts of the register. */
  function Shifts(r: bv8, n: nat): bv8
    decreases n
  {
    if n == 0 then r else Shift(Shifts(r, n - 1))
  }

  /** Bits in a data byte. */
  const ByteBits: nat := 8

  /** The register after one data byte: the byte is XORed into the register, which is then shifted eight times. */
  function ByteStep(res: bv8, val: bv8): bv8 {
    Shifts(res ^ val, ByteBits)
  }

  /** The frame checksum of `d`: the bytes folded in order into a register that starts at 0. */
  function FrameCrc(d: seq<bv8>): bv8 {
    if |d| == 0 then 0 else ByteStep(FrameCrc(d[..|d| - 1]), d[|d| - 1])
  }

  // ---------------------------------------------------------------------
  // calculatecrc: the same checksum, one data bit at a time

  /**
   * One pass of calculatecrc's inner loop: the top bit of the register is
   * XORed with the top bit of the remaining data; the register is shifted
   * left and, when that XOR was 1, the polynomial is added.
   */
  function BitStep(res: bv8, val: bv8): bv8 {
    if (res ^ val) & 0x80 != 0 then (res << 1) ^ Poly else res << 1
  }

  /** `v` shifted left by `n`, one position at a time, as the inner loop shifts `val`. */
  function Shl(v: bv8, n: nat): bv8
    decreases n
  {
    if n == 0 then v else Shl(v, n - 1) << 1
  }

  lemma ShiftXor(r: bv8, v: bv8)
    ensures (r << 1) ^ (v << 1) == (r ^ v) << 1
  {
  }

  lemma ShiftXorPoly(r: bv8, v: bv8)
    ensures ((r << 1) ^ Poly) ^ (v << 1) == ((r ^ v) << 1) ^ Poly
  {
  }

  lemma TopBitSet(r: bv8, v: bv8)
    requires (r ^ v) & 0x80 != 0
    ensures BitStep(r, v) == (r << 1) ^ Poly
    ensures Shift(r ^ v) == ((r ^ v) << 1) ^ Poly
  {
  }

  lemma TopBitClear(r: bv8, v: bv8)
    requires (r ^ v) & 0x80 == 0
    ensures BitStep(r, v) == r << 1
    ensures Shift(r ^ v) == (r ^ v) << 1
  {
  }

  /**
   * One pass of the inner loop keeps "register XOR remaining data" moving as
   * the byte-wise form moves: that XOR goes through one shift.
   */
  lemma BitStepXor(r: bv8, v: bv8)
    ensures BitStep(r, v) ^ (v << 1) == Shift(r ^ v)
  {
    if (r ^ v) & 0x80 != 0 {
      TopBitSet(r, v);
      ShiftXorPoly(r, v);
    } else {
      TopBitClear(r, v);
      ShiftXor(r, v);
    }
  }

  /** A byte shifted left eight times is empty. */
  lemma ShlByte(v: bv8)
    ensures Shl(v, ByteBits) == 0
  {
    assert Shl(v, 8) == v << 1 << 1 << 1 << 1 << 1 << 1 << 1 << 1;
  }

  /**
   * One pass of the inner loop keeps its two invariants: `val` holds the data
   * byte shifted `i` times, and register XOR `val` is the byte-wise register
   * after `i` shifts.
   */
  lemma PassKeepsXorForm(res: bv8, val: bv8, start: bv8, data: bv8, i: nat)
    requires val == Shl(data, i)
    requires res ^ val == Shifts(start ^ data, i)
    ensures val << 1 == Shl(data, i + 1)
    ensures BitStep(res, val) ^ (val << 1) == Shifts(start ^ data, i + 1)
  {
    BitStepXor(res, val);
  }

  /** One pass of calculatecrc's inner loop, as the code writes it. */
  method Pass(r: bv8, v: bv8) returns (res: bv8, val: bv8)
    ensures res == BitStep(r, v) && val == v << 1
  {
    res, val := r, v;
    var tmp := (res ^ val) & 0x80;
    res := res << 1;
    if tmp != 0 {
      res := res ^ 0x31;
    }
    val := val << 1;
  }

  /** Once all eight data bits are shifted out, the register is the byte-wise one. */
  lemma AllBitsShiftedOut(res: bv8, val: bv8, x: bv8, data: bv8)
    requires val == Shl(data, ByteBits)
    requires res ^ val == Shifts(x, ByteBits)
    ensures res == Shifts(x, ByteBits)
  {
    ShlByte(data);
  }

  /**
   * The inner loop of calculatecrc: the eight passes over one data byte.
   * Done bit by bit, it yields the byte-wise register.
   */
  method CrcByte(start: bv8, data: bv8) returns (res: bv8)
    ensures res == ByteStep(start, data)
  {
    res := start;
    var val := data;
    var i := 0;
    while i < ByteBits
      invariant 0 <= i <= ByteBits
      invariant val == Shl(data, i)
      invariant res ^ val == Shifts(start ^ data, i)
    {
      PassKeepsXorForm(res, val, start, data, i);
      res, val := Pass(res, val);
      i := i + 1;
    }
    AllBitsShiftedOut(res, val, start ^ data, data);
  }

  /** calculatecrc: the checksum of the first `len` bytes of `data`, one byte per pass of the outer loop. */
  method CalculateCrc(data: array<bv8>, len: bv8) returns (res: bv8)
    requires len as int <= data.Length
    ensures res == FrameCrc(data[..len])
  {
    res := 0;
    var j := 0;
    while j < len as int
      invariant j <= len as int
      invariant res == FrameCrc(data[..j])
    {
      res := CrcByte(res, data[j]);
      assert data[..j + 1][..j] == data[..j];
      j := j + 1;
    }
  }

  // ---------------------------------------------------------------------
  // Distinct inputs give distinct registers

  lemma ShiftInjective(a: bv8, b: bv8)
    requires a != b
    ensures Shift(a) != Shift(b)
  {
  }

  lemma XorCancel(r: bv8, a: bv8, b: bv8)
    requires a != b
    ensures r ^ a != r ^ b && a ^ r != b ^ r
  {
  }

  /** Distinct registers stay distinct under the shifts. */
  lemma {:induction false} ShiftsInjective(a: bv8, b: bv8, n: nat)
    requires a != b
    ensures Shifts(a, n) != Shifts(b, n)
    decreases n
  {
    if n > 0 {
      ShiftsInjective(a, b, n - 1);
      ShiftInjective(Shifts(a, n - 1), Shifts(b, n - 1));
    }
  }

  /** Folding in two different bytes into the same register gives different registers. */
  lemma ByteStepInjectiveInData(r: bv8, a: bv8, b: bv8)
    requires a != b
    ensures ByteStep(r, a) != ByteStep(r, b)
  {
    XorCancel(r, a, b);
    ShiftsInjective(r ^ a, r ^ b, ByteBits);
  }

  /** Folding the same byte into two different registers gives different registers. */
  lemma ByteStepInjectiveInRegister(a: bv8, b: bv8, v: bv8)
    requires a != b
    ensures ByteStep(a, v) != ByteStep(b, v)
  {
    XorCancel(v, a, b);
    ShiftsInjective(a ^ v, b ^ v, ByteBits);
  }

  // ---------------------------------------------------------------------
  // Properties of the frame checksum

  /** Proof step for ZeroResidue: a zero register stays zero under the shifts. */
  lemma {:induction false} ShiftsZero(n: nat)
    ensures Shifts(0, n) == 0
    decreases n
  {
    if n > 0 {
      ShiftsZero(n - 1);
    }
  }

  /** Appending the checksum to the data gives a zero residue, because the start value is 0 and there is no final XOR. */
  lemma ZeroResidue(d: seq<bv8>)
    ensures FrameCrc(d + [FrameCrc(d)]) == 0
  {
    var e := d + [FrameCrc(d)];
    assert e[..|e| - 1] == d;
    assert FrameCrc(d) ^ FrameCrc(d) == 0;
    ShiftsZero(ByteBits);
  }

  /** Once two sequences of equal length differ only in byte `k`, their checksums differ on every prefix that includes it. */
  lemma {:induction false} PrefixCrcsDiffer(d: seq<bv8>, c: seq<bv8>, k: nat, j: nat)
    requires |d| == |c| && k < j <= |d|
    requires d[k] != c[k]
    requires forall i :: 0 <= i < |d| && i != k ==> d[i] == c[i]
    ensures FrameCrc(d[..j]) != FrameCrc(c[..j])
    decreases j
  {
    var dj, cj := d[..j], c[..j];
    assert dj[..j - 1] == d[..j - 1] && cj[..j - 1] == c[..j - 1];
    if j - 1 == k {
      assert d[..k] == c[..k];
      ByteStepInjectiveInData(FrameCrc(d[..k]), d[k], c[k]);
    } else {
      PrefixCrcsDiffer(d, c, k, j - 1);
      ByteStepInjectiveInRegister(FrameCrc(d[..j - 1]), FrameCrc(c[..j - 1]), d[j - 1]);
    }
  }

  /** Corrupting any bits of a single byte of the data changes the frame checksum. */
  lemma SingleByteErrorDetected(d: seq<bv8>, k: nat, e: bv8)
    requires k < |d| && e != 0
    ensures FrameCrc(d[k := d[k] ^ e]) != FrameCrc(d)
  {
    var c := d[k := d[k] ^ e];
    XorCancel(d[k], 0, e);
    assert d[k] ^ 0 == d[k];
    PrefixCrcsDiffer(d, c, k, |d|);
    assert d[..|d|] == d && c[..|c|] == c;
  }

  /** The nine header and payload bytes of an example frame:
      identifier 3, temperature 0x1234, humidity 0x5678, battery 0x9a. */
  const ExampleBody: seq<bv8> := [0xCC, 0x03, 0x06, 0xF7, 0x12, 0x34, 0x56, 0x78, 0x9A]

  /** The checksum register of each prefix of the example body, one byte after the other. */
  lemma ExampleRegisters()
    ensures ByteStep(0x00, 0xCC) == 0x3A && ByteStep(0x3A, 0x03) == 0x4D && ByteStep(0x4D, 0x06) == 0xD7
    ensures ByteStep(0xD7, 0xF7) == 0x86 && ByteStep(0x86, 0x12) == 0xFD && ByteStep(0xFD, 0x34) == 0xCF
    ensures ByteStep(0xCF, 0x56) == 0xB1 && ByteStep(0xB1, 0x78) == 0xCF && ByteStep(0xCF, 0x9A) == 0x8B
  {
  }

  /** Proof step: one unfolding of FrameCrc at the end of a sequence, with the registers named. */
  lemma FrameCrcAppend(d: seq<bv8>, b: bv8, c: bv8, c2: bv8)
    requires FrameCrc(d) == c && ByteStep(c, b) == c2
    ensures FrameCrc(d + [b]) == c2
  {
    var e := d + [b];
    assert e[..|e| - 1] == d;
  }

  /** The checksum of the whole example body is 0x8b. */
  lemma ExampleCrc()
    ensures FrameCrc(ExampleBody) == 0x8B
  {
    ExampleRegisters();
    var p0: seq<bv8> := [];
    var p1 := p0 + [0xCC];
    FrameCrcAppend(p0, 0xCC, 0x00, 0x3A);
    var p2 := p1 + [0x03];
    FrameCrcAppend(p1, 0x03, 0x3A, 0x4D);
    var p3 := p2 + [0x06];
    FrameCrcAppend(p2, 0x06, 0x4D, 0xD7);
    var p4 := p3 + [0xF7];
    FrameCrcAppend(p3, 0xF7, 0xD7, 0x86);
    var p5 := p4 + [0x12];
    FrameCrcAppend(p4, 0x12, 0x86, 0xFD);
    var p6 := p5 + [0x34];
    FrameCrcAppend(p5, 0x34, 0xFD, 0xCF);
    var p7 := p6 + [0x56];
    FrameCrcAppend(p6, 0x56, 0xCF, 0xB1);
    var p8 := p7 + [0x78];
    FrameCrcAppend(p7, 0x78, 0xB1, 0xCF);
    var p9 := p8 + [0x9A];
    FrameCrcAppend(p8, 0x9A, 0xCF, 0x8B);
    assert p9 == ExampleBody;
  }

  // ---------------------------------------------------------------------
  // The frame

  /** The frame prepareframe builds from the identifier, the sensor readings and the battery level. */
  function Encode(id: bv8, temp: bv16, hum: bv16, bat: bv8): (f: seq<bv8>)
    ensures |f| == FrameLength && f[9] == FrameCrc(f[..9])
  {
    var body := [StartByte, id, PayloadLength, SensorType, Hi(temp), Lo(temp), Hi(hum), Lo(hum), bat];
    assert (body + [FrameCrc(body)])[..9] == body;
    body + [FrameCrc(body)]
  }

  /**
   * The frame is ten bytes: start byte, identifier, payload length, sensor type,
   * temperature and humidity most significant byte first, battery level, and the
   * checksum of the nine bytes before it.
   */
  lemma EncodeFields(id: bv8, temp: bv16, hum: bv16, bat: bv8)
    ensures |Encode(id, temp, hum, bat)| == FrameLength
    ensures Encode(id, temp, hum, bat)[..9] == [StartByte, id, PayloadLength, SensorType, Hi(temp), Lo(temp), Hi(hum), Lo(hum), bat]
    ensures Encode(id, temp, hum, bat)[9] == FrameCrc(Encode(id, temp, hum, bat)[..9])
  {
  }

  /** A ten-byte sequence laid out as prepareframe lays out a frame is the frame Encode builds. */
  lemma EncodeLayout(id: bv8, temp: bv16, hum: bv16, bat: bv8, f: seq<bv8>)
    requires |f| == FrameLength
    requires f[..9] == [StartByte, id, PayloadLength, SensorType, Hi(temp), Lo(temp), Hi(hum), Lo(hum), bat]
    requires f[9] == FrameCrc(f[..9])
    ensures f == Encode(id, temp, hum, bat)
  {
    assert f == f[..9] + [f[9]];
  }

  /** What a frame carries. */
  datatype Telemetry = Telemetry(id: bv8, temp: bv16, hum: bv16, bat: bv8)

  /**
   * How a receiver reads a frame: the header bytes must be the fixed ones and
   * the last byte must be the checksum of the others; otherwise nothing.
   */
  function Decode(f: seq<bv8>): (r: Option<Telemetry>)
    ensures r.Some? ==> |f| == FrameLength && f[9] == FrameCrc(f[..9])
  {
    if |f| == FrameLength && f[0] == StartByte && f[2] == PayloadLength && f[3] == SensorType
      && f[9] == FrameCrc(f[..9])
    then Some(Telemetry(f[1], Word(f[4], f[5]), Word(f[6], f[7]), f[8]))
    else None
  }

  /** Every frame prepareframe builds is read back by a receiver as exactly the values it was built from. */
  lemma DecodeEncode(id: bv8, temp: bv16, hum: bv16, bat: bv8)
    ensures Decode(Encode(id, temp, hum, bat)) == Some(Telemetry(id, temp, hum, bat))
  {
    var f := Encode(id, temp, hum, bat);
    assert f[..9][4] == f[4] && f[..9][5] == f[5] && f[..9][6] == f[6] && f[..9][7] == f[7];
    WordOfBytes(temp);
    WordOfBytes(hum);
  }

  /** An example frame: identifier 3, temperature 0x1234, humidity 0x5678, battery 0x9A. */
  lemma ExampleFrame()
    ensures Encode(3, 0x1234, 0x5678, 0x9A) == [0xCC, 0x03, 0x06, 0xF7, 0x12, 0x34, 0x56, 0x78, 0x9A, 0x8B]
  {
    ExampleCrc();
    assert ExampleBody == [0xCC, 0x03, 0x06, 0xF7, 0x12, 0x34, 0x56, 0x78, 0x9A];
  }

  /** A whole frame has a zero checksum residue, so a receiver may also check it that way. */
  lemma FrameResidue(id: bv8, temp: bv16, hum: bv16, bat: bv8)
    ensures FrameCrc(Encode(id, temp, hum, bat)) == 0
  {
    var f := Encode(id, temp, hum, bat);
    assert f == f[..9] + [FrameCrc(f[..9])];
    ZeroResidue(f[..9]);
  }

  /** A frame with any bits of one of its first nine bytes corrupted is rejected by a receiver. */
  lemma CorruptedFrameRejected(id: bv8, temp: bv16, hum: bv16, bat: bv8, k: nat, e: bv8)
    requires k < 9 && e != 0
    ensures Decode(Encode(id, temp, hum, bat)[k := Encode(id, temp, hum, bat)[k] ^ e]) == None
  {
    var f := Encode(id, temp, hum, bat);
    var g := f[k := f[k] ^ e];
    assert g[..9] == f[..9][k := f[k] ^ e];
    assert g[9] == f[9];
    SingleByteErrorDetected(f[..9], k, e);
  }

  // ---------------------------------------------------------------------
  // The identifier record in EEPROM: the identifier followed by its complement

  /** The identifier the record holds, if its two bytes are consistent. */
  function StoredId(e1: bv8, e2: bv8): (r: Option<bv8>)
    ensures r.Some? <==> e2 == !e1
    ensures r.Some? ==> r.value == e1
  {
    if e1 ^ 0xff == e2 then Some(e1) else None
  }

  /** The record that stores identifier `id`. */
  function IdRecord(id: bv8): (r: (bv8, bv8))
    ensures r.0 == id && r.0 ^ r.1 == 0xff
  {
    (id, !id)
  }

  /** A stored record is read back as its identifier. */
  lemma StoredIdRecord(id: bv8)
    ensures StoredId(IdRecord(id).0, IdRecord(id).1) == Some(id)
  {
  }

  /** The identifier loadsettingsfromeeprom leaves: the stored one if the record is consistent, otherwise the current one. */
  function LoadedId(current: bv8, e1: bv8, e2: bv8): (r: bv8)
    ensures (e1 ^ 0xff == e2) ==> r == e1
    ensures (e1 ^ 0xff != e2) ==> r == current
  {
    match StoredId(e1, e2)
    case Some(id) => id
    case None => current
  }
}
