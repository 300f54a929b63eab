/**
 * The SHT4x humidity and temperature sensor driver of sht4x.c, on top of the
 * bit-banged bus of module SoftI2c.
 *
 * The sensor answers at 7-bit address 0x44. A measurement is started by
 * writing one command byte and read back, once finished, as six bytes:
 * temperature high and low byte and their checksum, then humidity high and
 * low byte and their checksum. The checksum is Sensirion's CRC-8: polynomial
 * x^8 + x^5 + x^4 + 1 (0x31), start value 0xFF, no final XOR.
 */
module Sht4x {
  import opened Common
  import opened FrameCodec
  import opened SoftI2c

  /** The result of one sensor read: the raw words and whether both passed their checksums (struct sht4xdata). */
  datatype Sht4xData = Sht4xData(temp: bv16, hum: bv16, valid: bool)

  /** The sensor's 7-bit bus address. */
  const SensorAddress: bv8 := 0x44

  /** The last bit of the address byte: 0 to write to the device, 1 to read from it. */
  const WriteFlag: bv8 := 0x00
  const ReadFlag: bv8 := 0x01

  /** Command byte: one measurement with high repeatability, without clock stretching. */
  const MeasureHigh: bv8 := 0xFD

  /** The address byte: the 7-bit address above the read/write bit (section 3.1.10 of UM10204). */
  function AddressByte(flag: bv8): (r: bv8)
    requires flag == WriteFlag || flag == ReadFlag
    ensures r >> 1 == SensorAddress && r & 1 == flag
  {
    (SensorAddress << 1) | flag
  }

  /** The address bytes the driver sends. */
  lemma AddressBytes()
    ensures AddressByte(WriteFlag) == 0x88 && AddressByte(ReadFlag) == 0x89
  {
  }

  // ---------------------------------------------------------------------
  // The checksum

  /**
   * Sensirion's CRC-8 over a 16-bit word sent high byte first. It is the
   * CRC of the frame checksum (same polynomial, same bit order), started
   * from 0xFF instead of 0, which is the frame checksum of the word with
   * its high byte inverted.
   */
  function WordCrc(b1: bv8, b2: bv8): (c: bv8)
    ensures c == FrameCrc([b1 ^ 0xFF, b2])
  {
    InvertedStart(b1, b2);
    ByteStep(ByteStep(0xFF, b1), b2)
  }

  /** Proof step for WordCrc: starting the register at 0xFF is inverting the first byte. */
  lemma InvertedStart(b1: bv8, b2: bv8)
    ensures ByteStep(ByteStep(0xFF, b1), b2) == FrameCrc([b1 ^ 0xFF, b2])
  {
    var x, z, ff: bv8 := b1 ^ 0xFF, 0, 0xFF;
    assert [x, b2][..1] == [x] && [x][..0] == [];
    assert z ^ x == ff ^ b1;
    assert FrameCrc([x]) == ByteStep(ff, b1);
  }

  /** In 16 bits, shifting and XORing 0x131 and then keeping the low byte is XORing 0x31 into the 8-bit shift: the x^8 term falls out. */
  lemma TruncatedPoly(c: bv8)
    ensures ((((c as bv16) << 1) ^ 0x131) & 0xFF) as bv8 == (c << 1) ^ Poly
  {
  }

  /** One of sht4x_crc's two identical loops: eight conditional shifts, computed in the promoted width and stored back in a byte. */
  method ShiftByte(c: bv8) returns (crc: bv8)
    ensures crc == Shifts(c, ByteBits)
  {
    crc := c;
    var b := 0;
    while b < 8
      invariant 0 <= b <= 8
      invariant crc == Shifts(c, b)
    {
      if crc & 0x80 != 0 {
        TruncatedPoly(crc);
        crc := ((((crc as bv16) << 1) ^ 0x131) & 0xFF) as bv8;
      } else {
        crc := crc << 1;
      }
      b := b + 1;
    }
  }

  /** sht4x_crc: each byte XORed into the register, which then goes through the eight shifts. */
  method Crc(b1: bv8, b2: bv8) returns (crc: bv8)
    ensures crc == WordCrc(b1, b2)
  {
    crc := 0xFF;
    crc := crc ^ b1;
    crc := ShiftByte(crc);
    crc := crc ^ b2;
    crc := ShiftByte(crc);
  }

  /** Sensirion's published check value: the checksum of 0xBEEF is 0x92. */
  lemma CheckValue()
    ensures WordCrc(0xBE, 0xEF) == 0x92
  {
    assert ByteStep(0xFF, 0xBE) == 0x0C;
    assert ByteStep(0x0C, 0xEF) == 0x92;
  }

  /** Changing either byte of a word, but not both, changes its checksum. */
  lemma WordCrcDetectsByteError(b1: bv8, b2: bv8, c1: bv8, c2: bv8)
    requires (b1 != c1 && b2 == c2) || (b1 == c1 && b2 != c2)
    ensures WordCrc(b1, b2) != WordCrc(c1, c2)
  {
    if b1 != c1 {
      ByteStepInjectiveInData(0xFF, b1, c1);
      ByteStepInjectiveInRegister(ByteStep(0xFF, b1), ByteStep(0xFF, c1), b2);
    } else {
      ByteStepInjectiveInData(ByteStep(0xFF, b1), b2, c2);
    }
  }


  // ---------------------------------------------------------------------
  // The reply

  /** How sht4x_read interprets the six reply bytes: the words high byte first, valid when both checksums match. */
  function Reading(b1: bv8, b2: bv8, b3: bv8, b4: bv8, b5: bv8, b6: bv8): (r: Sht4xData)
    ensures Hi(r.temp) == b1 && Lo(r.temp) == b2 && Hi(r.hum) == b4 && Lo(r.hum) == b5
    ensures r.valid <==> WordCrc(b1, b2) == b3 && WordCrc(b4, b5) == b6
  {
    Sht4xData(Word(b1, b2), Word(b4, b5), WordCrc(b1, b2) == b3 && WordCrc(b4, b5) == b6)
  }

  /** The six bytes the sensor sends for a temperature and a humidity word. */
  function Reply(temp: bv16, hum: bv16): (r: seq<bv8>)
    ensures |r| == 6
  {
    [Hi(temp), Lo(temp), WordCrc(Hi(temp), Lo(temp)), Hi(hum), Lo(hum), WordCrc(Hi(hum), Lo(hum))]
  }

  /** A reply as the sensor sends it is read as its words, valid. */
  lemma ReadingOfReply(temp: bv16, hum: bv16)
    ensures var r := Reply(temp, hum); Reading(r[0], r[1], r[2], r[3], r[4], r[5]) == Sht4xData(temp, hum, true)
  {
    WordOfBytes(temp);
    WordOfBytes(hum);
  }

  /** A reading is valid exactly when the six bytes are the reply the sensor sends for the words read. */
  lemma ReadingValidIff(b1: bv8, b2: bv8, b3: bv8, b4: bv8, b5: bv8, b6: bv8)
    ensures var r := Reading(b1, b2, b3, b4, b5, b6); r.valid <==> [b1, b2, b3, b4, b5, b6] == Reply(r.temp, r.hum)
  {
    var r := Reading(b1, b2, b3, b4, b5, b6);
    assert Hi(r.temp) == b1 && Lo(r.temp) == b2 && Hi(r.hum) == b4 && Lo(r.hum) == b5;
  }

  /** Exactly one of three bytes differs from its counterpart. */
  predicate OneDiffers(b1: bv8, b2: bv8, b3: bv8, c1: bv8, c2: bv8, c3: bv8) {
    || (b1 != c1 && b2 == c2 && b3 == c3)
    || (b1 == c1 && b2 != c2 && b3 == c3)
    || (b1 == c1 && b2 == c2 && b3 != c3)
  }

  /** A word and its checksum with any one of the three bytes changed fail the check. */
  lemma WordByteError(b1: bv8, b2: bv8, b3: bv8, c1: bv8, c2: bv8, c3: bv8)
    requires WordCrc(b1, b2) == b3 && OneDiffers(b1, b2, b3, c1, c2, c3)
    ensures WordCrc(c1, c2) != c3
  {
    if b3 == c3 {
      WordCrcDetectsByteError(b1, b2, c1, c2);
    }
  }

  /** A valid reading with any one byte of the temperature triple, or of the humidity triple, changed is read as invalid. */
  lemma CorruptedReadingInvalid(t1: bv8, t2: bv8, t3: bv8, h1: bv8, h2: bv8, h3: bv8, c1: bv8, c2: bv8, c3: bv8)
    requires Reading(t1, t2, t3, h1, h2, h3).valid
    ensures OneDiffers(t1, t2, t3, c1, c2, c3) ==> !Reading(c1, c2, c3, h1, h2, h3).valid
    ensures OneDiffers(h1, h2, h3, c1, c2, c3) ==> !Reading(t1, t2, t3, c1, c2, c3).valid
  {
    assert WordCrc(t1, t2) == t3 && WordCrc(h1, h2) == h3;
    if OneDiffers(t1, t2, t3, c1, c2, c3) {
      WordByteError(t1, t2, t3, c1, c2, c3);
      assert !Reading(c1, c2, c3, h1, h2, h3).valid;
    }
    if OneDiffers(h1, h2, h3, c1, c2, c3) {
      WordByteError(h1, h2, h3, c1, c2, c3);
      assert !Reading(t1, t2, t3, c1, c2, c3).valid;
    }
  }

  // ---------------------------------------------------------------------
  // The transactions on the bus

  /** The bytes of `n` consecutive byte reads from what the sensor supplies. */
  function InBytes(s: seq<bool>, n: nat): (r: seq<bv8>)
    ensures |r| == n
    decreases n
  {
    if n == 0 then [] else [Pack(Peeks(s, 8))] + InBytes(Drop(s, 8), n - 1)
  }

  /** What the sensor supplies after `n` byte reads. */
  function Skip(s: seq<bool>, n: nat): seq<bool>
    decreases n
  {
    if n == 0 then s else Skip(Drop(s, 8), n - 1)
  }

  /** The clock pulses of consecutive byte reads, the i-th acknowledged exactly when `acks[i]` is set. */
  function Reads(s: seq<bool>, acks: seq<bool>): seq<Symbol>
    decreases |acks|
  {
    if |acks| == 0 then [] else ByteInClocks(Peeks(s, 8), acks[0]) + Reads(Drop(s, 8), acks[1..])
  }

  /** The acknowledge flags of sht4x_read's six byte reads: all but the last are acknowledged. */
  const ReplyAcks: seq<bool> := [true, true, true, true, true, false]

  /** The bytes as a device reads them back, each with its acknowledge flag. */
  function Received(bs: seq<bv8>, acks: seq<bool>): (r: seq<Octet>)
    requires |bs| == |acks|
    ensures |r| == |bs|
    decreases |bs|
  {
    if |bs| == 0 then [] else [Octet(bs[0], acks[0])] + Received(bs[1..], acks[1..])
  }

  /** One byte read in front of more: the bytes, the remaining supply and the clock pulses of all of them. */
  lemma ReadsCons(t0: seq<bool>, acks: seq<bool>, b: bv8, more: seq<bv8>, t2: seq<bool>, h0: seq<Symbol>, h1: seq<Symbol>, e: seq<Symbol>)
    requires |acks| > 0
    requires b == Pack(Peeks(t0, 8))
    requires more == InBytes(Drop(t0, 8), |acks[1..]|)
    requires t2 == Skip(Drop(t0, 8), |acks[1..]|)
    requires h1 == h0 + ByteInClocks(Peeks(t0, 8), acks[0])
    requires e == h1 + Reads(Drop(t0, 8), acks[1..])
    ensures [b] + more == InBytes(t0, |acks|)
    ensures t2 == Skip(t0, |acks|)
    ensures e == h0 + Reads(t0, acks)
  {
    AppendAssoc(h0, ByteInClocks(Peeks(t0, 8), acks[0]), Reads(Drop(t0, 8), acks[1..]));
  }

  /** A device reads the clock pulses of consecutive byte reads as the bytes read, each acknowledged as requested. */
  lemma {:induction false} ReadsOctets(s: seq<bool>, acks: seq<bool>)
    ensures Octets(Reads(s, acks)) == Received(InBytes(s, |acks|), acks)
    decreases |acks|
  {
    if |acks| > 0 {
      var first := ByteInClocks(Peeks(s, 8), acks[0]);
      var bs := InBytes(s, |acks|);
      OctetsAppend(first, Reads(Drop(s, 8), acks[1..]));
      ReceivedOctet(Peeks(s, 8), acks[0]);
      ReadsOctets(Drop(s, 8), acks[1..]);
      assert bs[1..] == InBytes(Drop(s, 8), |acks[1..]|);
    }
  }

  /** A reading from six bytes. */
  function ReadingOf(bs: seq<bv8>): Sht4xData
    requires |bs| == 6
  {
    Reading(bs[0], bs[1], bs[2], bs[3], bs[4], bs[5])
  }

  /** The clock pulses of the measurement command: the write address, then the command byte. */
  function CommandClocks(s: seq<bool>): seq<Symbol> {
    ByteOutClocks(AddressByte(WriteFlag), false, Peek(s)) + ByteOutClocks(MeasureHigh, false, Peek(Rest(s)))
  }

  /** sht4x_startmeas: START, the write address and the measurement command, STOP; the sensor's acknowledgements are not looked at. */
  method StartMeas(bus: Bus)
    requires bus.Valid() && bus.sclPort && bus.sdaPort
    modifies bus
    ensures bus.Valid() && !bus.sclDdr && bus.sclPort && !bus.sdaDdr && bus.sdaPort
    ensures bus.incoming == Drop(old(bus.incoming), 2)
    ensures bus.symbols == old(bus.symbols) + [StartCondition] + CommandClocks(old(bus.incoming)) + [StopCondition]
  {
    ghost var s0, in0 := bus.symbols, bus.incoming;
    bus.Start();
    var _ := bus.TransmitByte(AddressByte(WriteFlag));
    var _ := bus.TransmitByte(MeasureHigh);
    bus.Stop();
    AppendAssoc(s0 + [StartCondition], ByteOutClocks(AddressByte(WriteFlag), false, Peek(in0)), ByteOutClocks(MeasureHigh, false, Peek(Rest(in0))));
  }

  /** A device on the bus reads the measurement command as the write address and the command byte, each acknowledged when the sensor pulled SDA low. */
  lemma CommandOctets(s: seq<bool>)
    ensures Octets(CommandClocks(s)) == [Octet(0x88, !Peek(s)), Octet(MeasureHigh, !Peek(Rest(s)))]
  {
    AddressBytes();
    TransmittedOctet(AddressByte(WriteFlag), Peek(s));
    TransmittedOctet(MeasureHigh, Peek(Rest(s)));
    OctetsAppend(ByteOutClocks(AddressByte(WriteFlag), false, Peek(s)), ByteOutClocks(MeasureHigh, false, Peek(Rest(s))));
  }

  /** The clock pulses of the read request: the read address. */
  function RequestClocks(s: seq<bool>): seq<Symbol> {
    ByteOutClocks(AddressByte(ReadFlag), false, Peek(s))
  }

  /**
   * Consecutive bbtwi_read_byte calls, one per acknowledge flag in `acks`:
   * sht4x_read makes six of them, with the flags of ReplyAcks.
   */
  method ReadBytes(bus: Bus, acks: seq<bool>) returns (bs: seq<bv8>)
    requires bus.Valid() && bus.sclDdr && !bus.sclPort
    modifies bus
    ensures bus.Valid() && bus.sclDdr && !bus.sclPort
    ensures if |acks| > 0 then !bus.sdaDdr && bus.sdaPort else bus.sdaDdr == old(bus.sdaDdr) && bus.sdaPort == old(bus.sdaPort)
    ensures bs == InBytes(old(bus.incoming), |acks|)
    ensures bus.incoming == Skip(old(bus.incoming), |acks|)
    ensures bus.symbols == old(bus.symbols) + Reads(old(bus.incoming), acks)
    decreases |acks|
  {
    if |acks| == 0 {
      return [];
    }
    ghost var t0, h0 := bus.incoming, bus.symbols;
    var b := bus.ReadByte(acks[0]);
    ghost var h1 := bus.symbols;
    var more := ReadBytes(bus, acks[1..]);
    bs := [b] + more;
    ReadsCons(t0, acks, b, more, bus.incoming, h0, h1, bus.symbols);
  }

  /**
   * The end of sht4x_read: with the reading already marked invalid, it
   * becomes valid when both checksums match, and the two words are
   * stored from the six bytes read.
   */
  method Store(d: Sht4xData, bs: seq<bv8>) returns (r: Sht4xData)
    requires |bs| == 6 && !d.valid
    ensures r == ReadingOf(bs)
  {
    var b1, b2, b3, b4, b5, b6 := bs[0], bs[1], bs[2], bs[3], bs[4], bs[5];
    r := d;
    var c1 := Crc(b1, b2);
    var c2 := Crc(b4, b5);
    if c1 == b3 && c2 == b6 {
      r := r.(valid := true);
    }
    r := r.(temp := Word(b1, b2));
    r := r.(hum := Word(b4, b5));
  }

  /**
   * The part of sht4x_read after the sensor acknowledged its address: six
   * byte reads, the checksums compared and the words stored, then
   * bbtwi_stop, which finds SDA released and shows nothing on the bus.
   */
  method ReadReply(bus: Bus, d: Sht4xData) returns (r: Sht4xData)
    requires bus.Valid() && bus.sclDdr && !bus.sclPort && !d.valid
    modifies bus
    ensures bus.Valid() && !bus.sclDdr && bus.sclPort && !bus.sdaDdr && bus.sdaPort
    ensures r == ReadingOf(InBytes(old(bus.incoming), 6))
    ensures bus.incoming == Skip(old(bus.incoming), 6)
    ensures bus.symbols == old(bus.symbols) + Reads(old(bus.incoming), ReplyAcks)
  {
    var bs := ReadBytes(bus, ReplyAcks);
    r := Store(d, bs);
    bus.Stop();
  }

  /**
   * sht4x_read: START and the read address. When the sensor does not
   * acknowledge it (no measurement finished yet), STOP and report the
   * reading as invalid, leaving the previous words; otherwise read the
   * reply.
   */
  method Read(bus: Bus, d: Sht4xData) returns (r: Sht4xData)
    requires bus.Valid() && bus.sclPort && bus.sdaPort
    modifies bus
    ensures bus.Valid() && !bus.sclDdr && bus.sclPort && !bus.sdaDdr && bus.sdaPort
    ensures var s := old(bus.incoming);
      Peek(s) ==> (r == d.(valid := false) && bus.incoming == Rest(s)
                   && bus.symbols == old(bus.symbols) + [StartCondition] + RequestClocks(s) + [StopCondition])
    ensures var s := old(bus.incoming);
      !Peek(s) ==> (r == ReadingOf(InBytes(Rest(s), 6)) && bus.incoming == Skip(Rest(s), 6)
                    && bus.symbols == old(bus.symbols) + [StartCondition] + RequestClocks(s) + Reads(Rest(s), ReplyAcks))
  {
    r := d.(valid := false);
    bus.Start();
    var ack := bus.TransmitByte(AddressByte(ReadFlag));
    if !ack {
      bus.Stop();
      return;
    }
    r := ReadReply(bus, r);
  }

  /** The levels a sensor presents to send bytes, most significant bit first. */
  function Supply(bs: seq<bv8>): seq<bool>
    decreases |bs|
  {
    if |bs| == 0 then [] else Unpack(bs[0]) + Supply(bs[1..])
  }

  /** Sampling as many levels as were put in front gives them back, and leaves what follows. */
  lemma {:induction false} PeeksPrefix(a: seq<bool>, rest: seq<bool>)
    ensures Peeks(a + rest, |a|) == a && Drop(a + rest, |a|) == rest
    decreases |a|
  {
    if |a| > 0 {
      assert (a + rest)[0] == a[0] && Rest(a + rest) == a[1..] + rest;
      PeeksPrefix(a[1..], rest);
    }
  }

  /** One byte read of a byte's levels gives the byte back and leaves what follows. */
  lemma ByteOfSupply(b: bv8, tail: seq<bool>)
    ensures Pack(Peeks(Unpack(b) + tail, 8)) == b && Drop(Unpack(b) + tail, 8) == tail
  {
    PeeksPrefix(Unpack(b), tail);
    PackUnpack(b);
  }

  /** The supply of a nonempty byte sequence starts with the levels of its first byte. */
  lemma SupplyCons(bs: seq<bv8>, rest: seq<bool>)
    requires |bs| > 0
    ensures Supply(bs) + rest == Unpack(bs[0]) + (Supply(bs[1..]) + rest)
  {
    AppendAssoc(Unpack(bs[0]), Supply(bs[1..]), rest);
  }

  /** A run of byte reads is one byte read followed by the others. */
  lemma InBytesCons(s: seq<bool>, n: nat, b: bv8, t: seq<bool>, more: seq<bv8>)
    requires n > 0 && Pack(Peeks(s, 8)) == b && Drop(s, 8) == t && InBytes(t, n - 1) == more
    ensures InBytes(s, n) == [b] + more
  {
  }

  /** The first byte read of a sensor's supply is the first byte it sent. */
  lemma FirstByteOfSupply(bs: seq<bv8>, rest: seq<bool>)
    requires |bs| > 0
    ensures InBytes(Supply(bs) + rest, |bs|) == [bs[0]] + InBytes(Supply(bs[1..]) + rest, |bs| - 1)
  {
    var t := Supply(bs[1..]) + rest;
    SupplyCons(bs, rest);
    ByteOfSupply(bs[0], t);
    InBytesCons(Unpack(bs[0]) + t, |bs|, bs[0], t, InBytes(t, |bs| - 1));
  }

  /** If the bytes after the first are read back, so are all of them; no bytes are read back as none. */
  lemma SupplyStep(bs: seq<bv8>, rest: seq<bool>)
    requires |bs| > 0 ==> InBytes(Supply(bs[1..]) + rest, |bs[1..]|) == bs[1..]
    ensures InBytes(Supply(bs) + rest, |bs|) == bs
  {
    if |bs| > 0 {
      FirstByteOfSupply(bs, rest);
      assert [bs[0]] + bs[1..] == bs;
    }
  }

  /** Byte reads of a sensor's supply give back the bytes it sent. */
  lemma {:induction false} InBytesSupply(bs: seq<bv8>, rest: seq<bool>)
    ensures InBytes(Supply(bs) + rest, |bs|) == bs
    decreases |bs|
  {
    if |bs| > 0 {
      InBytesSupply(bs[1..], rest);
    }
    SupplyStep(bs, rest);
  }

  /** A sensor that acknowledges its read address and then sends the reply for two words is read back as those words, valid. */
  lemma ReplyReadBack(temp: bv16, hum: bv16, rest: seq<bool>)
    ensures var s := [false] + Supply(Reply(temp, hum)) + rest;
      !Peek(s) && ReadingOf(InBytes(Rest(s), 6)) == Sht4xData(temp, hum, true)
  {
    AckedThen(Supply(Reply(temp, hum)), rest);
    InBytesSupply(Reply(temp, hum), rest);
    ReadBackOfReply(Supply(Reply(temp, hum)) + rest, temp, hum);
  }

  /** A sensor that pulls SDA low for the address acknowledge and then supplies `x` and `rest`. */
  lemma AckedThen(x: seq<bool>, rest: seq<bool>)
    ensures var s := [false] + x + rest; !Peek(s) && Rest(s) == x + rest
  {
    AppendAssoc([false], x, rest);
  }

  /** Six bytes read as the reply for two words are those words, valid. */
  lemma ReadBackOfReply(t: seq<bool>, temp: bv16, hum: bv16)
    requires InBytes(t, |Reply(temp, hum)|) == Reply(temp, hum)
    ensures ReadingOf(InBytes(t, 6)) == Sht4xData(temp, hum, true)
  {
    ReadingOfReply(temp, hum);
  }

  /** A device on the bus reads the read request and the reply as the read address and the six bytes, all acknowledged but the last. */
  lemma ReadOctets(s: seq<bool>)
    ensures Octets(RequestClocks(s) + Reads(Rest(s), ReplyAcks))
         == [Octet(0x89, !Peek(s))] + Received(InBytes(Rest(s), 6), ReplyAcks)
  {
    AddressBytes();
    TransmittedOctet(AddressByte(ReadFlag), Peek(s));
    OctetsAppend(RequestClocks(s), Reads(Rest(s), ReplyAcks));
    ReadsOctets(Rest(s), ReplyAcks);
  }

  // ---------------------------------------------------------------------
  // The missing STOP after a completed read

  /** A bus transaction closed by a STOP condition (section 3.1.4 of UM10204). */
  predicate EndsWithStop(cs: seq<Symbol>) {
    |cs| > 0 && cs[|cs| - 1] == StopCondition
  }

  /** Byte reads end on the clock pulse of the last acknowledge bit. */
  lemma {:induction false} ReadsEndOnAck(s: seq<bool>, acks: seq<bool>)
    requires |acks| > 0
    ensures var cs := Reads(s, acks); |cs| > 0 && cs[|cs| - 1] == Clock(AckLine(acks[|acks| - 1]), None)
    decreases |acks|
  {
    var first := ByteInClocks(Peeks(s, 8), acks[0]);
    if |acks| > 1 {
      ReadsEndOnAck(Drop(s, 8), acks[1..]);
    } else {
      assert Reads(Drop(s, 8), acks[1..]) == [];
    }
  }

  /** As written, an acknowledged sht4x_read leaves the transaction open: the last thing on the bus is the not-acknowledged ninth clock pulse, not a STOP. */
  lemma AckedReadLeavesBusOpen(h: seq<Symbol>, s: seq<bool>)
    ensures !EndsWithStop(h + [StartCondition] + RequestClocks(s) + Reads(Rest(s), ReplyAcks))
  {
    ReadsEndOnAck(Rest(s), ReplyAcks);
  }

  /** ReadReply with SDA pulled low before bbtwi_stop, so that the stop shows a STOP condition. */
  method ReadReplyWithStop(bus: Bus, d: Sht4xData) returns (r: Sht4xData)
    requires bus.Valid() && bus.sclDdr && !bus.sclPort && !d.valid
    modifies bus
    ensures bus.Valid() && !bus.sclDdr && bus.sclPort && !bus.sdaDdr && bus.sdaPort
    ensures r == ReadingOf(InBytes(old(bus.incoming), 6))
    ensures bus.incoming == Skip(old(bus.incoming), 6)
    ensures bus.symbols == old(bus.symbols) + Reads(old(bus.incoming), ReplyAcks) + [StopCondition]
  {
    var bs := ReadBytes(bus, ReplyAcks);
    r := Store(d, bs);
    bus.DriveSdaLow();
    bus.Stop();
  }

  /** sht4x_read as evidently intended: the same reading, and every transaction closed by a STOP. */
  method ReadWithStop(bus: Bus, d: Sht4xData) returns (r: Sht4xData)
    requires bus.Valid() && bus.sclPort && bus.sdaPort
    modifies bus
    ensures bus.Valid() && !bus.sclDdr && bus.sclPort && !bus.sdaDdr && bus.sdaPort
    ensures EndsWithStop(bus.symbols)
    ensures var s := old(bus.incoming);
      Peek(s) ==> (r == d.(valid := false) && bus.incoming == Rest(s)
                   && bus.symbols == old(bus.symbols) + [StartCondition] + RequestClocks(s) + [StopCondition])
    ensures var s := old(bus.incoming);
      !Peek(s) ==> (r == ReadingOf(InBytes(Rest(s), 6)) && bus.incoming == Skip(Rest(s), 6)
                    && bus.symbols == old(bus.symbols) + [StartCondition] + RequestClocks(s) + Reads(Rest(s), ReplyAcks) + [StopCondition])
  {
    r := d.(valid := false);
    bus.Start();
    var ack := bus.TransmitByte(AddressByte(ReadFlag));
    if !ack {
      bus.Stop();
      return;
    }
    r := ReadReplyWithStop(bus, r);
  }
}
