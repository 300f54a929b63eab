/**
 * The bit-banged two-wire bus of sht4x.c (bbtwi_start, bbtwi_stop,
 * bbtwi_transmit_byte, bbtwi_read_byte).
 *
 * The firmware drives the clock line SCL and the data line SDA through one
 * data-direction bit (DDRD) and one port bit (PORTD) each: with the direction
 * bit clear the pin is an input and the line is released to the pull-up;
 * with it set the pin drives the line to the level of its port bit.
 *
 * Every register write and every read of the data pin is fed to a decoder
 * that turns the line changes into what a device on the bus sees, following
 * the I2C-bus specification
 * (NXP UM10204): a START condition is SDA falling while SCL is high, a STOP
 * condition is SDA rising while SCL is high (section 3.1.4), and a data bit
 * is the level of SDA during one high period of SCL (sections 3.1.3, 3.1.5).
 */
module SoftI2c {
  import opened Common

  // ---------------------------------------------------------------------
  // Lines, events and the decoder

  /** The state of one line as the microcontroller leaves it. */
  datatype Line = DrivenLow | DrivenHigh | Released

  /** A line reads high unless it is driven low; a released line is held high by its pull-up. */
  predicate Up(l: Line) {
    l != DrivenLow
  }

  /** The line a pin produces from its direction bit and its port bit. */
  function LineOf(ddr: bool, port: bool): Line {
    if !ddr then Released else if port then DrivenHigh else DrivenLow
  }

  /** The two lines of the bus. */
  datatype Wire = Wire(scl: Line, sda: Line)

  /** A clock pulse in progress: the data line when the clock rose and the bit sampled so far, if any. */
  datatype Pulse = Pulse(sda: Line, sample: Option<bool>)

  /** The decoder's state: the current lines and the clock pulse in progress, if the clock is high. */
  datatype Decoder = Decoder(wire: Wire, pulse: Option<Pulse>)

  /**
   * What a device on the bus sees: START and STOP conditions, and completed
   * clock pulses with the data line during the pulse and the bit the
   * microcontroller sampled in it. A read of the data pin outside a clock
   * pulse is a stray sample.
   */
  datatype Symbol = StartCondition | StopCondition | Clock(sda: Line, sample: Option<bool>) | Stray(bit: bool)

  /** The bus at power-up and after sht4x_init: both lines released. */
  const Idle := Decoder(Wire(Released, Released), None)

  /** No clock pulse is open while the clock is driven low. */
  predicate Settled(d: Decoder) {
    d.wire.scl == DrivenLow ==> d.pulse == None
  }

  /** The symbols a register write leaving the lines at `w` completes. */
  function EmitSet(d: Decoder, w: Wire): seq<Symbol> {
    if Up(d.wire.scl) && Up(w.scl) && Up(d.wire.sda) != Up(w.sda) then
      (if Up(d.wire.sda) then [StartCondition] else [StopCondition])
    else if Up(d.wire.scl) && !Up(w.scl) && d.pulse.Some? then
      [Clock(d.pulse.value.sda, d.pulse.value.sample)]
    else []
  }

  /** The decoder's state after a register write leaving the lines at `w`. */
  function NextSet(d: Decoder, w: Wire): Decoder {
    if !Up(d.wire.scl) && Up(w.scl) then Decoder(w, Some(Pulse(w.sda, None)))
    else if Up(d.wire.scl) && (Up(d.wire.sda) != Up(w.sda) || !Up(w.scl)) then Decoder(w, None)
    else Decoder(w, d.pulse)
  }

  /** The symbols a read of the data pin completes: none inside a clock pulse, a stray sample outside one. */
  function EmitSample(d: Decoder, b: bool): seq<Symbol> {
    if d.pulse.Some? then [] else [Stray(b)]
  }

  /** The decoder's state after a read of the data pin: the bit is noted in the pulse in progress. */
  function NextSample(d: Decoder, b: bool): Decoder {
    if d.pulse.Some? then Decoder(d.wire, Some(Pulse(d.pulse.value.sda, Some(b)))) else d
  }

  // ---------------------------------------------------------------------
  // The sensor's side of the data line

  /** The level the sensor presents at the next sample: the next bit it supplies, or high from the pull-up once it supplies none. */
  function Peek(s: seq<bool>): bool {
    if |s| == 0 then true else s[0]
  }

  /** What the sensor supplies after one sample. */
  function Rest(s: seq<bool>): seq<bool> {
    if |s| == 0 then [] else s[1..]
  }

  /** The levels of the next `n` samples. */
  function Peeks(s: seq<bool>, n: nat): (r: seq<bool>)
    ensures |r| == n
    decreases n
  {
    if n == 0 then [] else [Peek(s)] + Peeks(Rest(s), n - 1)
  }

  /** What the sensor supplies after `n` samples. */
  function Drop(s: seq<bool>, n: nat): seq<bool>
    decreases n
  {
    if n == 0 then s else Drop(Rest(s), n - 1)
  }

  /** The samples and what remains, one sample further on. */
  lemma {:induction false} TakeSnoc(s: seq<bool>, n: nat)
    ensures Peeks(s, n + 1) == Peeks(s, n) + [Peek(Drop(s, n))]
    ensures Drop(s, n + 1) == Rest(Drop(s, n))
    decreases n
  {
    if n > 0 {
      TakeSnoc(Rest(s), n - 1);
    }
  }

  /** Packing one more bit shifts it in at the bottom. */
  lemma {:induction false} PackSnoc(bs: seq<bool>, b: bool)
    ensures Pack(bs + [b]) == ShiftIn(Pack(bs), b)
  {
    PackFromSnoc(0, bs, b);
  }

  /** Shifting in one more bit after a sequence of bits. */
  lemma {:induction false} PackFromSnoc(acc: bv8, bs: seq<bool>, b: bool)
    ensures PackFrom(acc, bs + [b]) == ShiftIn(PackFrom(acc, bs), b)
    decreases |bs|
  {
    if |bs| > 0 {
      assert (bs + [b])[1..] == bs[1..] + [b];
      PackFromSnoc(ShiftIn(acc, bs[0]), bs[1..], b);
    } else {
      assert (bs + [b])[1..] == [];
    }
  }

  /** One more sample gives one more clock pulse. */
  lemma {:induction false} ClocksSnoc(bs: seq<bool>, b: bool)
    ensures SampleClocks(bs + [b]) == SampleClocks(bs) + [Clock(Released, Some(b))]
    decreases |bs|
  {
    if |bs| > 0 {
      assert (bs + [b])[1..] == bs[1..] + [b];
      ClocksSnoc(bs[1..], b);
    } else {
      assert (bs + [b])[1..] == [];
    }
  }

  // ---------------------------------------------------------------------
  // Bytes as bits, most significant first

  /** The top bit of a byte. */
  predicate Msb(w: bv8) {
    w & 0x80 != 0
  }

  /** The top `n` bits of `w`, most significant first. */
  function UnpackN(w: bv8, n: nat): (r: seq<bool>)
    ensures |r| == n
    decreases n
  {
    if n == 0 then [] else [Msb(w)] + UnpackN(w << 1, n - 1)
  }

  /** The eight bits of a byte, most significant first. */
  function Unpack(w: bv8): (r: seq<bool>)
    ensures |r| == 8
  {
    UnpackN(w, 8)
  }

  /** The register `acc` shifted left with bit `b` coming in at the bottom. */
  function ShiftIn(acc: bv8, b: bool): bv8 {
    if b then (acc << 1) | 1 else acc << 1
  }

  /** The register `acc` after shifting in the bits `bs` one at a time at the bottom, as bbtwi_read_byte does. */
  function PackFrom(acc: bv8, bs: seq<bool>): bv8
    decreases |bs|
  {
    if |bs| == 0 then acc else PackFrom(ShiftIn(acc, bs[0]), bs[1..])
  }

  /** The byte whose bits, most significant first, are `bs`. */
  function Pack(bs: seq<bool>): bv8 {
    PackFrom(0, bs)
  }

  // ---------------------------------------------------------------------
  // What the bus routines do, event by event

  /** The line a data bit is clocked out on: high for a 1-bit, and also when the data port bit was left set. */
  function BitLine(b: bool, p: bool): Line {
    if b || p then DrivenHigh else DrivenLow
  }

  /** The clock pulses of those passes. */
  function DataClocks(w: bv8, p: bool, n: nat): (r: seq<Symbol>)
    ensures |r| == n
    decreases n
  {
    if n == 0 then [] else [Clock(BitLine(Msb(w), p), None)] + DataClocks(w << 1, false, n - 1)
  }

  /** All nine clock pulses of bbtwi_transmit_byte. */
  function ByteOutClocks(w: bv8, p: bool, a: bool): (r: seq<Symbol>)
    ensures |r| == 9
  {
    DataClocks(w, p, 8) + [Clock(Released, Some(a))]
  }

  /** The clock pulses of those passes. */
  function SampleClocks(bits: seq<bool>): (r: seq<Symbol>)
    ensures |r| == |bits|
    decreases |bits|
  {
    if |bits| == 0 then [] else [Clock(Released, Some(bits[0]))] + SampleClocks(bits[1..])
  }

  /** The data line bbtwi_read_byte drives for the ninth clock: low to acknowledge, high not to. */
  function AckLine(sendack: bool): Line {
    if sendack then DrivenLow else DrivenHigh
  }

  /** All nine clock pulses of bbtwi_read_byte. */
  function ByteInClocks(bits: seq<bool>, sendack: bool): (r: seq<Symbol>)
    ensures |r| == |bits| + 1
  {
    SampleClocks(bits) + [Clock(AckLine(sendack), None)]
  }

  /** What bbtwi_stop shows on the bus: a STOP condition only when it finds the data line driven low. */
  function StopSymbols(d: bool, p: bool): seq<Symbol> {
    if LineOf(d, p) == DrivenLow then [StopCondition] else []
  }

  // ---------------------------------------------------------------------
  // Bytes as a receiving device reads them

  /** The data bit a device takes from a clock pulse: the level the sensor presented when the line was released, otherwise the level the microcontroller drove. */
  function SdaBit(c: Symbol): bool {
    match c
    case Clock(l, s) => if s.Some? then s.value else Up(l)
    case _ => true
  }

  /** The data bits of a sequence of clock pulses. */
  function SdaBits(cs: seq<Symbol>): (r: seq<bool>)
    ensures |r| == |cs|
    decreases |cs|
  {
    if |cs| == 0 then [] else [SdaBit(cs[0])] + SdaBits(cs[1..])
  }

  /** A byte on the bus and whether its ninth clock pulse carried an acknowledge (SDA low). */
  datatype Octet = Octet(value: bv8, acked: bool)

  /** How a device groups clock pulses into bytes: eight data bits, most significant first, then the acknowledge bit (section 3.1.5 of UM10204). */
  function Octets(cs: seq<Symbol>): seq<Octet>
    decreases |cs|
  {
    if |cs| < 9 then [] else [Octet(Pack(SdaBits(cs[..8])), !SdaBit(cs[8]))] + Octets(cs[9..])
  }

  /** Shifting the already shifted-in top bits of `w` by its next bit gives one more of its top bits. */
  lemma ShiftInTopBits(w: bv8, k: nat)
    requires k < 8
    ensures ShiftIn(w >> (8 - k), Msb(w << k)) == w >> (7 - k)
    ensures (w << k) << 1 == w << (k + 1)
  {
    if Msb(w << k) {
      assert ShiftIn(w >> (8 - k), true) == ((w >> (8 - k)) << 1) | 1;
    } else {
      assert ShiftIn(w >> (8 - k), false) == (w >> (8 - k)) << 1;
    }
  }

  /** Shifting in the bits of `v` starts with its top bit. */
  lemma PackStep(a: bv8, v: bv8, n: nat)
    requires n > 0
    ensures PackFrom(a, UnpackN(v, n)) == PackFrom(ShiftIn(a, Msb(v)), UnpackN(v << 1, n - 1))
  {
    var bs := UnpackN(v, n);
    assert bs[0] == Msb(v) && bs[1..] == UnpackN(v << 1, n - 1);
  }

  // Packing the bits of a byte, two bits at a time: after the top `k` bits of
  // `w` are shifted in, the register holds `w >> (8 - k)` and `w << k` remains.

  lemma PackTwoBits0(w: bv8)
    ensures PackFrom(w >> 8, UnpackN(w << 0, 8)) == PackFrom(w >> 6, UnpackN(w << 2, 6))
  {
    ShiftInTopBits(w, 0);
    PackStep(w >> 8, w << 0, 8);
    ShiftInTopBits(w, 1);
    PackStep(w >> 7, w << 1, 7);
  }

  lemma PackTwoBits2(w: bv8)
    ensures PackFrom(w >> 6, UnpackN(w << 2, 6)) == PackFrom(w >> 4, UnpackN(w << 4, 4))
  {
    ShiftInTopBits(w, 2);
    PackStep(w >> 6, w << 2, 6);
    ShiftInTopBits(w, 3);
    PackStep(w >> 5, w << 3, 5);
  }

  lemma PackTwoBits4(w: bv8)
    ensures PackFrom(w >> 4, UnpackN(w << 4, 4)) == PackFrom(w >> 2, UnpackN(w << 6, 2))
  {
    ShiftInTopBits(w, 4);
    PackStep(w >> 4, w << 4, 4);
    ShiftInTopBits(w, 5);
    PackStep(w >> 3, w << 5, 3);
  }

  lemma PackTwoBits6(w: bv8)
    ensures PackFrom(w >> 2, UnpackN(w << 6, 2)) == PackFrom(w >> 0, UnpackN(w << 8, 0))
  {
    ShiftInTopBits(w, 6);
    PackStep(w >> 2, w << 6, 2);
    ShiftInTopBits(w, 7);
    PackStep(w >> 1, w << 7, 1);
  }

  /** Packing the bits of a byte gives the byte back. */
  lemma PackUnpack(w: bv8)
    ensures Pack(Unpack(w)) == w
  {
    assert w >> 8 == 0 && w << 0 == w && w >> 0 == w;
    PackTwoBits0(w);
    PackTwoBits2(w);
    PackTwoBits4(w);
    PackTwoBits6(w);
  }

  /** The data bits of the clock pulses of bbtwi_transmit_byte's loop are the bits of the data, since it starts with SDA driven low. */
  lemma {:induction false} DataClocksBits(w: bv8, n: nat)
    ensures SdaBits(DataClocks(w, false, n)) == UnpackN(w, n)
    decreases n
  {
    if n > 0 {
      var cs := DataClocks(w, false, n);
      assert cs[0] == Clock(BitLine(Msb(w), false), None) && cs[1..] == DataClocks(w << 1, false, n - 1);
      DataClocksBits(w << 1, n - 1);
    }
  }

  /** The data bits of sampled clock pulses are the samples. */
  lemma {:induction false} SampleClocksBits(bits: seq<bool>)
    ensures SdaBits(SampleClocks(bits)) == bits
    decreases |bits|
  {
    if |bits| > 0 {
      var cs := SampleClocks(bits);
      assert cs[0] == Clock(Released, Some(bits[0])) && cs[1..] == SampleClocks(bits[1..]);
      SampleClocksBits(bits[1..]);
    }
  }

  /** Nine clock pulses make one byte. */
  lemma NineClocks(cs: seq<Symbol>)
    requires |cs| == 9
    ensures Octets(cs) == [Octet(Pack(SdaBits(cs[..8])), !SdaBit(cs[8]))]
  {
    assert cs[9..] == [];
  }

  /** A device reads the bytes of consecutive nine-pulse groups one after the other. */
  lemma OctetsAppend(a: seq<Symbol>, b: seq<Symbol>)
    requires |a| == 9
    ensures Octets(a + b) == Octets(a) + Octets(b)
  {
    var ab := a + b;
    assert ab[..8] == a[..8] && ab[8] == a[8] && ab[9..] == b;
    NineClocks(a);
  }

  /** A device reads what bbtwi_transmit_byte sends, entered with SDA driven low, as the byte, acknowledged exactly when it pulled SDA low. */
  lemma TransmittedOctet(w: bv8, a: bool)
    ensures Octets(ByteOutClocks(w, false, a)) == [Octet(w, !a)]
  {
    var cs := ByteOutClocks(w, false, a);
    assert cs[..8] == DataClocks(w, false, 8) && cs[8] == Clock(Released, Some(a));
    NineClocks(cs);
    DataClocksBits(w, 8);
    PackUnpack(w);
  }

  /** Entered with the SDA port bit still set, bbtwi_transmit_byte sends the byte with its top bit forced to 1. */
  lemma TransmittedOctetPortHigh(w: bv8, a: bool)
    ensures Octets(ByteOutClocks(w, true, a)) == [Octet(w | 0x80, !a)]
  {
    var cs := ByteOutClocks(w, true, a);
    var d := DataClocks(w, true, 8);
    assert cs[..8] == d && cs[8] == Clock(Released, Some(a));
    NineClocks(cs);
    assert d[1..] == DataClocks(w << 1, false, 7) && d[0] == Clock(DrivenHigh, None);
    DataClocksBits(w << 1, 7);
    assert SdaBits(d) == [true] + UnpackN(w << 1, 7);
    var v := w | 0x80;
    assert Msb(v) && v << 1 == w << 1;
    assert Unpack(v) == [true] + UnpackN(w << 1, 7);
    PackUnpack(v);
  }

  /** A device reads what bbtwi_read_byte clocks in as the sampled byte, acknowledged exactly when `sendack` is set. */
  lemma ReceivedOctet(bits: seq<bool>, sendack: bool)
    requires |bits| == 8
    ensures Octets(ByteInClocks(bits, sendack)) == [Octet(Pack(bits), sendack)]
  {
    var cs := ByteInClocks(bits, sendack);
    assert cs[..8] == SampleClocks(bits) && cs[8] == Clock(AckLine(sendack), None);
    NineClocks(cs);
    SampleClocksBits(bits);
  }

  // ---------------------------------------------------------------------
  // The bus as the firmware drives it

  class Bus {
    /** DDRD and PORTD bits of the clock pin (PD6). */
    var sclDdr: bool
    var sclPort: bool
    /** DDRD and PORTD bits of the data pin (PD5). */
    var sdaDdr: bool
    var sdaPort: bool
    /** The levels the sensor will present to the coming samples of the released data line. */
    var incoming: seq<bool>
    /** The decoder's state after everything done to the bus so far. */
    ghost var dec: Decoder
    /** What a device on the bus has seen so far. */
    ghost var symbols: seq<Symbol>

    /** The lines as the pins leave them. */
    function Lines(): Wire
      reads this
    {
      Wire(LineOf(sclDdr, sclPort), LineOf(sdaDdr, sdaPort))
    }

    /** The decoder follows the pins, and no clock pulse is open while the clock is driven low. */
    ghost predicate Valid()
      reads this
    {
      dec.wire == Lines() && Settled(dec)
    }

    /** The bus after sht4x_init: both pull-ups on, both lines released, nothing seen yet. */
    constructor (sensor: seq<bool>)
      ensures Valid()
      ensures !sclDdr && sclPort && !sdaDdr && sdaPort
      ensures incoming == sensor && symbols == []
    {
      sclDdr, sclPort, sdaDdr, sdaPort := false, true, false, true;
      incoming := sensor;
      dec, symbols := Idle, [];
    }

    /** Feeds the lines a register write leaves to the decoder. */
    method Observe()
      requires Settled(dec)
      modifies this
      ensures Valid()
      ensures sclDdr == old(sclDdr) && sclPort == old(sclPort) && sdaDdr == old(sdaDdr) && sdaPort == old(sdaPort)
      ensures incoming == old(incoming)
      ensures dec == NextSet(old(dec), Lines())
      ensures symbols == old(symbols) + EmitSet(old(dec), Lines())
    {
      symbols := symbols + EmitSet(dec, Lines());
      dec := NextSet(dec, Lines());
    }

    /** A read of the data pin: the driven level, or the sensor's level when the line is released. */
    method ReadSda() returns (b: bool)
      requires Valid()
      modifies this
      ensures Valid()
      ensures sclDdr == old(sclDdr) && sclPort == old(sclPort) && sdaDdr == old(sdaDdr) && sdaPort == old(sdaPort)
      ensures b == (if sdaDdr then sdaPort else Peek(old(incoming)))
      ensures incoming == (if sdaDdr then old(incoming) else Rest(old(incoming)))
      ensures dec == NextSample(old(dec), b)
      ensures symbols == old(symbols) + EmitSample(old(dec), b)
    {
      if sdaDdr {
        b := sdaPort;
      } else {
        b := Peek(incoming);
        incoming := Rest(incoming);
      }
      symbols := symbols + EmitSample(dec, b);
      dec := NextSample(dec, b);
    }

    /** bbtwi_start: with both port bits set, drive both lines, pull SDA low, then SCL. */
    method Start()
      requires Valid() && sclPort && sdaPort
      modifies this
      ensures Valid()
      ensures sclDdr && !sclPort && sdaDdr && !sdaPort
      ensures incoming == old(incoming)
      ensures symbols == old(symbols) + [StartCondition]
    {
      sdaDdr := true;
      Observe();
      sclDdr := true;
      Observe();
      sdaPort := false;
      Observe();
      sclPort := false;
      Observe();
    }

    /** Pull SDA low while SCL is held low, leaving the bus as bbtwi_stop expects it; a device sees nothing. */
    method DriveSdaLow()
      requires Valid() && sclDdr && !sclPort
      modifies this
      ensures Valid()
      ensures sclDdr && !sclPort && sdaDdr && !sdaPort
      ensures incoming == old(incoming)
      ensures symbols == old(symbols)
    {
      sdaPort := false;
      Observe();
      sdaDdr := true;
      Observe();
    }

    /** bbtwi_stop: raise SCL, then SDA, then release both lines. */
    method Stop()
      requires Valid() && sclDdr && !sclPort
      modifies this
      ensures Valid()
      ensures !sclDdr && sclPort && !sdaDdr && sdaPort
      ensures incoming == old(incoming)
      ensures symbols == old(symbols) + StopSymbols(old(sdaDdr), old(sdaPort))
    {
      sclPort := true;
      Observe();
      sdaPort := true;
      Observe();
      sdaDdr := false;
      Observe();
      sclDdr := false;
      Observe();
    }

    /** One pass of bbtwi_transmit_byte's loop: put bit `b` on SDA (setting only 1-bits), pulse SCL, pull SDA low. */
    method ClockOut(b: bool)
      requires Valid() && sclDdr && !sclPort && sdaDdr
      modifies this
      ensures Valid()
      ensures sclDdr && !sclPort && sdaDdr && !sdaPort
      ensures incoming == old(incoming)
      ensures symbols == old(symbols) + [Clock(BitLine(b, old(sdaPort)), None)]
    {
      if b {
        sdaPort := true;
        Observe();
      }
      sclPort := true;
      Observe();
      sclPort := false;
      Observe();
      sdaPort := false;
      Observe();
    }

    /** The acknowledge clock of bbtwi_transmit_byte: release SDA, pulse SCL sampling SDA, drive SDA low again. */
    method AckIn() returns (ack: bool)
      requires Valid() && sclDdr && !sclPort && sdaDdr && !sdaPort
      modifies this
      ensures Valid()
      ensures sclDdr && !sclPort && sdaDdr && !sdaPort
      ensures ack == !Peek(old(incoming))
      ensures incoming == Rest(old(incoming))
      ensures symbols == old(symbols) + [Clock(Released, Some(Peek(old(incoming))))]
    {
      sdaPort := true;
      Observe();
      sdaDdr := false;
      Observe();
      sclPort := true;
      Observe();
      var level := ReadSda();
      sclPort := false;
      Observe();
      sdaPort := false;
      Observe();
      sdaDdr := true;
      Observe();
      ack := !level;
    }

    /**
     * bbtwi_transmit_byte: the eight bits of `what`, most significant first,
     * each on one clock pulse, then a ninth pulse with SDA released; the
     * result says whether the device pulled SDA low on it (ACK).
     */
    method TransmitByte(what: bv8) returns (ack: bool)
      requires Valid() && sclDdr && !sclPort && sdaDdr
      modifies this
      ensures Valid()
      ensures sclDdr && !sclPort && sdaDdr && !sdaPort
      ensures ack == !Peek(old(incoming))
      ensures incoming == Rest(old(incoming))
      ensures symbols == old(symbols) + ByteOutClocks(what, old(sdaPort), Peek(old(incoming)))
    {
      var w := what;
      var i := 0;
      while i < 8
        invariant 0 <= i <= 8
        invariant Valid() && sclDdr && !sclPort && sdaDdr && (i > 0 ==> !sdaPort)
        invariant incoming == old(incoming)
        invariant symbols + DataClocks(w, sdaPort, 8 - i) == old(symbols) + DataClocks(what, old(sdaPort), 8)
      {
        ghost var s, p := symbols, sdaPort;
        ClockOut(w & 0x80 != 0);
        AppendAssoc(s, [Clock(BitLine(Msb(w), p), None)], DataClocks(w << 1, false, 7 - i));
        w := w << 1;
        i := i + 1;
      }
      ack := AckIn();
      AppendAssoc(old(symbols), DataClocks(what, old(sdaPort), 8), [Clock(Released, Some(Peek(old(incoming))))]);
    }

    /** The start of bbtwi_read_byte: set the pull-up on SDA and stop driving it. */
    method ReleaseSda()
      requires Valid() && sclDdr && !sclPort
      modifies this
      ensures Valid()
      ensures sclDdr && !sclPort && !sdaDdr && sdaPort
      ensures incoming == old(incoming)
      ensures symbols == old(symbols)
    {
      sdaPort := true;
      Observe();
      sdaDdr := false;
      Observe();
    }

    /** One pass of bbtwi_read_byte's loop: raise SCL, sample SDA, lower SCL. */
    method ClockIn() returns (b: bool)
      requires Valid() && sclDdr && !sclPort && !sdaDdr
      modifies this
      ensures Valid()
      ensures sclDdr && !sclPort && !sdaDdr && sdaPort == old(sdaPort)
      ensures b == Peek(old(incoming))
      ensures incoming == Rest(old(incoming))
      ensures symbols == old(symbols) + [Clock(Released, Some(b))]
    {
      sclPort := true;
      Observe();
      b := ReadSda();
      sclPort := false;
      Observe();
    }

    /** The acknowledge clock of bbtwi_read_byte: SDA driven low for ACK or high for NACK, one pulse, SDA released. */
    method AckOut(sendack: bool)
      requires Valid() && sclDdr && !sclPort && !sdaDdr && sdaPort
      modifies this
      ensures Valid()
      ensures sclDdr && !sclPort && !sdaDdr && sdaPort
      ensures incoming == old(incoming)
      ensures symbols == old(symbols) + [Clock(AckLine(sendack), None)]
    {
      if sendack {
        sdaPort := false;
        Observe();
      }
      sdaDdr := true;
      Observe();
      sclPort := true;
      Observe();
      sclPort := false;
      Observe();
      sdaPort := true;
      Observe();
      sdaDdr := false;
      Observe();
    }

    /** The loop of bbtwi_read_byte: eight samples, one per clock pulse, shifted in most significant first. */
    method SampleByte() returns (res: bv8)
      requires Valid() && sclDdr && !sclPort && !sdaDdr && sdaPort
      modifies this
      ensures Valid()
      ensures sclDdr && !sclPort && !sdaDdr && sdaPort
      ensures res == Pack(Peeks(old(incoming), 8))
      ensures incoming == Drop(old(incoming), 8)
      ensures symbols == old(symbols) + SampleClocks(Peeks(old(incoming), 8))
    {
      res := 0;
      ghost var in0, s0 := incoming, symbols;
      ghost var got: seq<bool> := [];
      var i := 0;
      while i < 8
        invariant 0 <= i <= 8
        invariant Valid() && sclDdr && !sclPort && !sdaDdr && sdaPort
        invariant incoming == Drop(in0, i) && got == Peeks(in0, i)
        invariant res == Pack(got)
        invariant symbols == s0 + SampleClocks(got)
      {
        TakeSnoc(in0, i);
        var b := ClockIn();
        PackSnoc(got, b);
        ClocksSnoc(got, b);
        AppendAssoc(s0, SampleClocks(got), [Clock(Released, Some(b))]);
        got := got + [b];
        res := res << 1;
        if b {
          res := res | 0x01;
        }
        i := i + 1;
      }
    }

    /**
     * bbtwi_read_byte: release SDA, take eight samples, one per clock pulse,
     * assembled most significant first, then a ninth pulse acknowledging
     * the byte exactly when `sendack` is set.
     */
    method ReadByte(sendack: bool) returns (res: bv8)
      requires Valid() && sclDdr && !sclPort
      modifies this
      ensures Valid()
      ensures sclDdr && !sclPort && !sdaDdr && sdaPort
      ensures res == Pack(Peeks(old(incoming), 8))
      ensures incoming == Drop(old(incoming), 8)
      ensures symbols == old(symbols) + ByteInClocks(Peeks(old(incoming), 8), sendack)
    {
      ReleaseSda();
      res := SampleByte();
      AckOut(sendack);
      AppendAssoc(old(symbols), SampleClocks(Peeks(old(incoming), 8)), [Clock(AckLine(sendack), None)]);
    }
  }
}
