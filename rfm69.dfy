/**
 * The driver for the RFM69 (Semtech SX1231) radio module, attached to the
 * AVR's hardware SPI port with the chip select on PB2.
 *
 * The class `Radio` holds the microcontroller side (the SS pin, the power
 * reduction register, the SPI control and status registers) together with a
 * model of the radio chip. The chip sees the bus one SS-low window at a time:
 * the first byte of a window is an address byte (bit 7 set for a write), the
 * following bytes are data. The chip acts on a window when SS goes high
 * again (`Process`), and every completed window is recorded, in order, in
 * the ghost `log`. The driver's operations are specified by the windows they
 * add to the log and by the chip state they leave.
 *
 * The two status registers the driver polls, RegIrqFlags1 (0x27) and
 * RegIrqFlags2 (0x28), do not come from the register file: each read takes
 * the next value of an oracle sequence, and once an oracle is exhausted the
 * chip reports the awaited flag (ModeReady, PacketSent).
 */
module Rfm69 {
  import opened Common

  // Register addresses.
  const RegFifo: bv8 := 0x00
  const RegOpMode: bv8 := 0x01
  const RegIrqFlags1: bv8 := 0x27
  const RegIrqFlags2: bv8 := 0x28
  const RegPayloadLength: bv8 := 0x38

  /** Bit 7 of the address byte selects a write access. */
  const WriteAccess: bv8 := 0x80
  const AddressMask: bv8 := 0x7F

  /** RegOpMode: bits 4:2 hold the mode; `ModeKeep` covers the other bits. */
  const ModeKeep: bv8 := 0xE3
  const ModeBits: bv8 := 0x1C
  const ModeSleep: bv8 := 0x00
  const ModeStandby: bv8 := 0x04
  const ModeTransmit: bv8 := 0x0C

  // Flags in the status registers.
  const ModeReady: bv8 := 0x80
  const PacketSent: bv8 := 0x08
  const FifoOverrun: bv8 := 0x10

  // The AVR side: PRR bits and the SPI configuration (SPE | MSTR | SPR0).
  const PrSpi: bv8 := 0x04
  const PrUsart0: bv8 := 0x02
  const SpcrMaster: bv8 := 0x51

  /** How many times sending polls RegIrqFlags2 before giving up. */
  const MaxReps: nat := 10000

  /* ---------------------------------------------------------------------- */
  /* Register access words                                                   */
  /* ---------------------------------------------------------------------- */

  /** The 16-bit word that reads register `reg`. */
  function ReadCommand(reg: bv8): (w: bv16)
    ensures Hi(w) == reg & AddressMask && Hi(w) & WriteAccess == 0 && Lo(w) == 0
  {
    ((reg & AddressMask) as bv16 << 8) | 0x00
  }

  /** The 16-bit word that writes `val` into register `reg`. */
  function WriteCommand(reg: bv8, val: bv8): (w: bv16)
    ensures Hi(w) & AddressMask == reg & AddressMask && Hi(w) & WriteAccess != 0 && Lo(w) == val
  {
    ((reg | WriteAccess) as bv16 << 8) | val as bv16
  }

  /** What the chip makes of a two-byte access. */
  datatype Access = Access(write: bool, address: bv8, data: bv8)

  function DecodeAccess(w: bv16): (a: Access)
    ensures a.address & AddressMask == a.address
  {
    Access(Hi(w) & WriteAccess != 0, Hi(w) & AddressMask, Lo(w))
  }

  function EncodeAccess(a: Access): (w: bv16)
  {
    if a.write then WriteCommand(a.address, a.data) else ReadCommand(a.address)
  }

  /** A read word carries the 7-bit address, no write flag and a zero data byte. */
  lemma ReadCommandDecodes(reg: bv8)
    ensures DecodeAccess(ReadCommand(reg)) == Access(false, reg & AddressMask, 0)
    ensures Hi(ReadCommand(reg)) == reg & AddressMask && Lo(ReadCommand(reg)) == 0
  {
  }

  /** A write word carries the 7-bit address, the write flag and the value. */
  lemma WriteCommandDecodes(reg: bv8, val: bv8)
    ensures DecodeAccess(WriteCommand(reg, val)) == Access(true, reg & AddressMask, val)
    ensures Hi(WriteCommand(reg, val)) == reg | WriteAccess && Lo(WriteCommand(reg, val)) == val
  {
  }

  /** Every write word, and every read word with a zero data byte, is the encoding of its decoding. */
  lemma AccessRoundTrip(w: bv16)
    requires Hi(w) & WriteAccess != 0 || Lo(w) == 0
    ensures EncodeAccess(DecodeAccess(w)) == w
  {
    WordOfBytes(w);
    var h, l := Hi(w), Lo(w);
    if h & WriteAccess != 0 {
      ByteWithFlag(h);
      CommandWords(h & AddressMask, l);
    } else {
      ByteWithoutFlag(h);
      CommandWords(h & AddressMask, l);
    }
  }

  /** Proof step for AccessRoundTrip: the two access words as a high and a low byte. */
  lemma CommandWords(reg: bv8, val: bv8)
    ensures ReadCommand(reg) == Word(reg & AddressMask, 0)
    ensures WriteCommand(reg, val) == Word(reg | WriteAccess, val)
  {
  }

  /** Proof step for AccessRoundTrip: a flagged address byte is its 7-bit address with the flag. */
  lemma ByteWithFlag(h: bv8)
    requires h & WriteAccess != 0
    ensures (h & AddressMask) | WriteAccess == h
  {
  }

  /** Proof step for AccessRoundTrip: an address byte without the flag is its own 7-bit address. */
  lemma ByteWithoutFlag(h: bv8)
    requires h & WriteAccess == 0
    ensures (h & AddressMask) & AddressMask == h
  {
  }

  /* ---------------------------------------------------------------------- */
  /* Operating modes                                                         */
  /* ---------------------------------------------------------------------- */

  /** RegOpMode with its mode bits replaced by `mode`. */
  function WithMode(x: bv8, mode: bv8): (r: bv8)
    requires mode & ModeKeep == 0
    ensures r & ModeKeep == x & ModeKeep
    ensures r & ModeBits == mode
  {
    (x & ModeKeep) | mode
  }

  /* ---------------------------------------------------------------------- */
  /* The radio chip                                                          */
  /* ---------------------------------------------------------------------- */

  /**
   * The chip: its register file, the FIFO, the packets it has put on the
   * air, and the values its two status registers will report next.
   */
  datatype Chip = Chip(regs: seq<bv8>, fifo: seq<bv8>, air: seq<seq<bv8>>,
                       irq1: seq<bv8>, irq2: seq<bv8>)

  predicate ChipOk(c: Chip)
  {
    |c.regs| == 128
  }

  /** The next value of a status oracle; `ready` once it is exhausted. */
  function StatusOf(s: seq<bv8>, ready: bv8): bv8
  {
    if |s| == 0 then ready else s[0]
  }

  function NextStatus(s: seq<bv8>): seq<bv8>
  {
    if |s| == 0 then [] else s[1..]
  }

  /** The value the chip returns for a read of register `a`. */
  function RegRead(c: Chip, a: bv8): bv8
  {
    if a == RegIrqFlags1 then StatusOf(c.irq1, ModeReady)
    else if a == RegIrqFlags2 then StatusOf(c.irq2, PacketSent)
    else if (a as int) < |c.regs| then c.regs[a as int]
    else 0
  }

  /**
   * The effect of writing `v` into register `a`. In RegIrqFlags2 only the
   * FifoOverrun bit is writable, and writing it clears the FIFO. Putting
   * RegOpMode into transmit mode sends what the FIFO holds as one packet.
   */
  function Store(c: Chip, a: bv8, v: bv8): Chip
  {
    if a == RegIrqFlags2 then
      (if v & FifoOverrun != 0 then c.(fifo := []) else c)
    else if a == RegOpMode && v & ModeBits == ModeTransmit && 1 < |c.regs| then
      c.(regs := c.regs[1 := v], air := c.air + [c.fifo], fifo := [])
    else if (a as int) < |c.regs| then c.(regs := c.regs[a as int := v])
    else c
  }

  /** The MISO byte the chip shifts out while it receives `value` after `window`. */
  function Miso(c: Chip, window: seq<bv8>, value: bv8): bv8
  {
    if |window| == 1 && window[0] & WriteAccess == 0 then RegRead(c, window[0])
    else 0
  }

  /**
   * What the chip does with one complete SS-low window: a write stores its
   * first data byte, except that writes to RegFifo append all data bytes to
   * the FIFO; a read of a status register consumes one oracle value.
   */
  function Process(c: Chip, w: seq<bv8>): (r: Chip)
    ensures ChipOk(c) ==> ChipOk(r)
  {
    if |w| < 2 then c
    else if w[0] & WriteAccess != 0 then
      (if w[0] & AddressMask == RegFifo then c.(fifo := c.fifo + w[1..])
       else Store(c, w[0] & AddressMask, w[1]))
    else if w[0] == RegIrqFlags1 then c.(irq1 := NextStatus(c.irq1))
    else if w[0] == RegIrqFlags2 then c.(irq2 := NextStatus(c.irq2))
    else c
  }

  /* ---------------------------------------------------------------------- */
  /* Polling the status registers                                            */
  /* ---------------------------------------------------------------------- */

  /** `n` copies of the window `w`. */
  function Repeat(w: seq<bv8>, n: nat): (r: seq<seq<bv8>>)
    ensures |r| == n
    ensures forall k :: 0 <= k < n ==> r[k] == w
  {
    if n == 0 then [] else Repeat(w, n - 1) + [w]
  }

  /** How many reads of RegIrqFlags1 the wait for ModeReady takes, given the oracle `s`. */
  function ReadyPolls(s: seq<bv8>): nat
  {
    if StatusOf(s, ModeReady) & ModeReady != 0 then 1 else 1 + ReadyPolls(NextStatus(s))
  }

  /** The RegIrqFlags1 oracle once the wait for ModeReady is over. */
  function AfterReady(s: seq<bv8>): seq<bv8>
  {
    if StatusOf(s, ModeReady) & ModeReady != 0 then NextStatus(s) else AfterReady(NextStatus(s))
  }

  /**
   * How many reads of RegIrqFlags2 the wait for PacketSent takes when at most
   * `budget` reads are allowed.
   */
  function SentPolls(s: seq<bv8>, budget: nat): nat
    requires budget >= 1
  {
    if StatusOf(s, PacketSent) & PacketSent != 0 || budget == 1 then 1
    else 1 + SentPolls(NextStatus(s), budget - 1)
  }

  /** The RegIrqFlags2 oracle once the wait for PacketSent is over. */
  function AfterSent(s: seq<bv8>, budget: nat): seq<bv8>
    requires budget >= 1
  {
    if StatusOf(s, PacketSent) & PacketSent != 0 || budget == 1 then NextStatus(s)
    else AfterSent(NextStatus(s), budget - 1)
  }

  /** The wait for ModeReady reads up to and including the first value that shows the flag. */
  lemma {:induction false} ReadyPollsFirst(s: seq<bv8>, i: nat)
    requires i < |s| && s[i] & ModeReady != 0
    requires forall j :: 0 <= j < i ==> s[j] & ModeReady == 0
    ensures ReadyPolls(s) == i + 1 && AfterReady(s) == s[i + 1..]
  {
    if i > 0 {
      ReadyPollsFirst(s[1..], i - 1);
    }
  }

  /** If the flag never shows, the wait reads the whole oracle and one more time. */
  lemma {:induction false} ReadyPollsExhausted(s: seq<bv8>)
    requires forall j :: 0 <= j < |s| ==> s[j] & ModeReady == 0
    ensures ReadyPolls(s) == |s| + 1 && AfterReady(s) == []
  {
    if |s| > 0 {
      ReadyPollsExhausted(s[1..]);
    }
  }

  /** The wait for PacketSent never reads more often than its budget allows. */
  lemma {:induction false} SentPollsBounded(s: seq<bv8>, budget: nat)
    requires budget >= 1
    ensures 1 <= SentPolls(s, budget) <= budget
  {
    if !(StatusOf(s, PacketSent) & PacketSent != 0 || budget == 1) {
      SentPollsBounded(NextStatus(s), budget - 1);
    }
  }

  /** Within the budget, the wait for PacketSent stops at the first value that shows the flag. */
  lemma {:induction false} SentPollsFirst(s: seq<bv8>, budget: nat, i: nat)
    requires budget >= 1 && i < |s| && i < budget && s[i] & PacketSent != 0
    requires forall j :: 0 <= j < i ==> s[j] & PacketSent == 0
    ensures SentPolls(s, budget) == i + 1 && AfterSent(s, budget) == s[i + 1..]
  {
    if i > 0 {
      SentPollsFirst(s[1..], budget - 1, i - 1);
    }
  }

  /** When the flag does not show within the budget, the wait gives up after exactly `budget` reads. */
  lemma {:induction false} SentPollsGivesUp(s: seq<bv8>, budget: nat)
    requires 1 <= budget <= |s|
    requires forall j :: 0 <= j < budget ==> s[j] & PacketSent == 0
    ensures SentPolls(s, budget) == budget && AfterSent(s, budget) == s[budget..]
  {
    if budget > 1 {
      SentPollsGivesUp(s[1..], budget - 1);
    }
  }

  /* ---------------------------------------------------------------------- */
  /* Windows the driver puts on the bus                                      */
  /* ---------------------------------------------------------------------- */

  /** The window of a register read: the bytes of `ReadCommand(reg)`, high first. */
  function ReadWindow(reg: bv8): seq<bv8>
  {
    [reg & AddressMask, 0x00]
  }

  /** The window of a register write: the bytes of `WriteCommand(reg, val)`, high first. */
  function WriteWindow(reg: bv8, val: bv8): seq<bv8>
  {
    [reg | WriteAccess, val]
  }

  /** The read-modify-write of RegOpMode that selects `mode`, when the read returns `x`. */
  function ModeChange(x: bv8, mode: bv8): seq<seq<bv8>>
    requires mode & ModeKeep == 0
  {
    [ReadWindow(RegOpMode), WriteWindow(RegOpMode, WithMode(x, mode))]
  }

  /** The chip after the mode change: only RegOpMode changes, except that transmit mode sends the FIFO. */
  function ModeChanged(c: Chip, mode: bv8): Chip
    requires mode & ModeKeep == 0
  {
    Process(c, WriteWindow(RegOpMode, WithMode(RegRead(c, RegOpMode), mode)))
  }

  /** Every window `rfm69_sendarray` puts on the bus, when RegOpMode reads `x` and the wait takes `polls` reads. */
  function SendLog(x: bv8, payload: seq<bv8>, length: bv8, polls: nat): seq<seq<bv8>>
  {
    [WriteWindow(RegPayloadLength, length), WriteWindow(RegIrqFlags2, FifoOverrun), [RegFifo | WriteAccess] + payload]
    + ModeChange(x, ModeTransmit)
    + Repeat(ReadWindow(RegIrqFlags2), polls)
    + ModeChange(WithMode(x, ModeTransmit), ModeStandby)
  }

  lemma SendLogParts(log0: seq<seq<bv8>>, log1: seq<seq<bv8>>, log2: seq<seq<bv8>>, log3: seq<seq<bv8>>,
                     x: bv8, payload: seq<bv8>, length: bv8, polls: nat)
    requires log1 == log0 + [WriteWindow(RegPayloadLength, length)] + [WriteWindow(RegIrqFlags2, FifoOverrun)]
                          + [[RegFifo | WriteAccess] + payload]
    requires log2 == log1 + ModeChange(x, ModeTransmit) + Repeat(ReadWindow(RegIrqFlags2), polls)
    requires log3 == log2 + ModeChange(WithMode(x, ModeTransmit), ModeStandby)
    ensures log3 == log0 + SendLog(x, payload, length, polls)
  {
  }

  /* ---------------------------------------------------------------------- */
  /* What the driver's accesses do to the chip                               */
  /* ---------------------------------------------------------------------- */

  /** Proof step: a 7-bit address indexes the register file. */
  lemma AddressFits(x: bv8)
    ensures ((x & AddressMask) as int) < 128
  {
  }

  /** A read of any register other than the two status registers leaves the chip as it was. */
  lemma ReadLeavesChip(c: Chip, reg: bv8)
    requires reg & AddressMask != RegIrqFlags1 && reg & AddressMask != RegIrqFlags2
    ensures Process(c, ReadWindow(reg)) == c
  {
    ReadCommandDecodes(reg);
  }

  /** A read of a status register returns the next oracle value and consumes it. */
  lemma StatusReads(c: Chip)
    ensures RegRead(c, RegIrqFlags1 & AddressMask) == StatusOf(c.irq1, ModeReady)
    ensures Process(c, ReadWindow(RegIrqFlags1)) == c.(irq1 := NextStatus(c.irq1))
    ensures RegRead(c, RegIrqFlags2 & AddressMask) == StatusOf(c.irq2, PacketSent)
    ensures Process(c, ReadWindow(RegIrqFlags2)) == c.(irq2 := NextStatus(c.irq2))
  {
  }

  /** A write to an ordinary register stores the value there and changes nothing else. */
  lemma WriteStores(c: Chip, reg: bv8, val: bv8)
    requires ChipOk(c)
    requires reg & AddressMask != RegFifo && reg & AddressMask != RegIrqFlags2
    requires reg & AddressMask != RegOpMode || val & ModeBits != ModeTransmit
    ensures Process(c, WriteWindow(reg, val)) == c.(regs := c.regs[(reg & AddressMask) as int := val])
  {
    AddressFits(reg);
    WriteCommandDecodes(reg, val);
  }

  /** The FIFO-clearing write empties the FIFO and leaves everything else alone. */
  lemma ClearFifoEmpties(c: Chip)
    ensures Process(c, WriteWindow(RegIrqFlags2, FifoOverrun)) == c.(fifo := [])
  {
    WriteCommandDecodes(RegIrqFlags2, FifoOverrun);
  }

  /** A burst write to RegFifo appends the data bytes to the FIFO, in order. */
  lemma FifoBurstAppends(c: Chip, data: seq<bv8>)
    ensures Process(c, [RegFifo | WriteAccess] + data) == c.(fifo := c.fifo + data)
  {
    var w := [RegFifo | WriteAccess] + data;
    if |data| == 0 {
      assert c.fifo + data == c.fifo;
    } else {
      assert w[1..] == data;
    }
  }

  /** Entering transmit mode sends the FIFO as one packet and leaves the FIFO empty. */
  lemma TransmitSendsFifo(c: Chip)
    requires ChipOk(c)
    ensures ModeChanged(c, ModeTransmit)
         == c.(regs := c.regs[1 := WithMode(c.regs[1], ModeTransmit)], air := c.air + [c.fifo], fifo := [])
  {
    WriteCommandDecodes(RegOpMode, WithMode(c.regs[1], ModeTransmit));
  }

  /** Entering standby or sleep only changes RegOpMode. */
  lemma IdleModeStores(c: Chip, mode: bv8)
    requires ChipOk(c) && (mode == ModeStandby || mode == ModeSleep)
    ensures ModeChanged(c, mode) == c.(regs := c.regs[1 := WithMode(c.regs[1], mode)])
  {
    WriteCommandDecodes(RegOpMode, WithMode(c.regs[1], mode));
  }

  /** Selecting a mode twice is selecting the second one. */
  lemma WithModeTwice(x: bv8, m1: bv8, m2: bv8)
    requires m1 & ModeKeep == 0 && m2 & ModeKeep == 0
    ensures WithMode(WithMode(x, m1), m2) == WithMode(x, m2)
  {
  }

  /* ---------------------------------------------------------------------- */
  /* Chip set-up                                                             */
  /* ---------------------------------------------------------------------- */

  /** The carrier frequency in kHz, the bit rate in baud, the crystal frequency in Hz. */
  const FrequencyKHz: nat := 868300
  const BitRate: nat := 17241
  const CrystalHz: nat := 32000000
  /** The synthesizer's frequency step is CrystalHz / 2^19. */
  const StepDivisor: nat := 524288

  /** `n / d` rounded to the nearest integer, halves away from zero, as C's `round` does for positive values. */
  function RoundDiv(n: nat, d: nat): (r: nat)
    requires d > 0
  {
    (2 * n + d) / (2 * d)
  }

  /** The RegFrf value: the carrier frequency in units of the frequency step. */
  const FrequencyWord: nat := RoundDiv(1000 * FrequencyKHz * StepDivisor, CrystalHz)
  /** The RegBitrate value: crystal cycles per bit. */
  const BitRateWord: nat := RoundDiv(CrystalHz, BitRate)

  /** `RoundDiv` is the nearest integer: it is off by at most half of the divisor. */
  lemma RoundDivNearest(n: nat, d: nat)
    requires d > 0
    ensures 2 * d * RoundDiv(n, d) <= 2 * n + d < 2 * d * RoundDiv(n, d) + 2 * d
  {
    var q := RoundDiv(n, d);
    var m := 2 * n + d;
    assert m == (2 * d) * q + m % (2 * d);
  }

  /** 868.3 MHz is 0xD91333 frequency steps, 17241 baud is 0x0740 crystal cycles per bit. */
  lemma SetupConstants()
    ensures FrequencyWord == 0xD91333 && BitRateWord == 0x0740
  {
  }

  /** The values `freq` (a `uint32_t`) and `dr` (a `uint16_t`) take in `rfm69_initchip`: those of `SetupConstants`. */
  const FrequencyReg: bv32 := 0xD91333
  const BitRateReg: bv16 := 0x0740

  const ModemLog: seq<seq<bv8>> := [
    WriteWindow(0x01, 0x04), WriteWindow(0x02, 0x00), WriteWindow(0x05, 0x05), WriteWindow(0x06, 0xC3),
    WriteWindow(0x11, 0x7C), WriteWindow(0x13, 0x1F), WriteWindow(0x19, 0x42), WriteWindow(0x26, 0x07)]

  const SyncLog: seq<seq<bv8>> := [
    WriteWindow(0x29, 220), WriteWindow(0x2C, 0x00), WriteWindow(0x2D, 0x03), WriteWindow(0x2E, 0x88),
    WriteWindow(0x2F, 0x2D), WriteWindow(0x30, 0xD4)]

  const PacketLog: seq<seq<bv8>> := [
    WriteWindow(0x37, 0x00), WriteWindow(0x38, 0x0C), WriteWindow(0x3C, 0x8F), WriteWindow(0x3D, 0x12)]

  const CarrierLog: seq<seq<bv8>> := [
    WriteWindow(0x07, 0xD9), WriteWindow(0x08, 0x13), WriteWindow(0x09, 0x33),
    WriteWindow(0x03, 0x07), WriteWindow(0x04, 0x40)]

  /** Every window `rfm69_initchip` puts on the bus, in order. */
  const InitLog: seq<seq<bv8>> :=
    ModemLog + [WriteWindow(RegIrqFlags2, FifoOverrun)] + SyncLog + PacketLog + CarrierLog
    + [WriteWindow(RegIrqFlags2, FifoOverrun)]

  lemma InitLogParts(log0: seq<seq<bv8>>, log1: seq<seq<bv8>>, log2: seq<seq<bv8>>, log3: seq<seq<bv8>>)
    requires log1 == log0 + ModemLog + [WriteWindow(RegIrqFlags2, FifoOverrun)]
    requires log2 == log1 + SyncLog + PacketLog
    requires log3 == log2 + CarrierLog + [WriteWindow(RegIrqFlags2, FifoOverrun)]
    ensures log3 == log0 + InitLog
  {
  }

  /** The register file after `rfm69_initchip`. */
  function InitImage(r: seq<bv8>): seq<bv8>
    requires |r| == 128
  {
    r[0x01 := 0x04][0x02 := 0x00][0x05 := 0x05][0x06 := 0xC3][0x11 := 0x7C][0x13 := 0x1F][0x19 := 0x42]
     [0x26 := 0x07][0x29 := 220][0x2C := 0x00][0x2D := 0x03][0x2E := 0x88][0x2F := 0x2D][0x30 := 0xD4]
     [0x37 := 0x00][0x38 := 0x0C][0x3C := 0x8F][0x3D := 0x12][0x07 := 0xD9][0x08 := 0x13][0x09 := 0x33]
     [0x03 := 0x07][0x04 := 0x40]
  }

  /**
   * After set-up the chip is in standby, its RegFrf registers hold the
   * carrier frequency and its RegBitrate registers the bit rate, both
   * big-endian, and RegPayloadLength selects fixed-length packets.
   */
  lemma InitImageSettings(r: seq<bv8>)
    requires |r| == 128
    ensures var i := InitImage(r);
      i[1] & ModeBits == ModeStandby
      && (i[0x07] as int) * 65536 + (i[0x08] as int) * 256 + i[0x09] as int == FrequencyWord
      && (i[0x03] as int) * 256 + i[0x04] as int == BitRateWord
      && i[0x38] != 0
  {
    SetupConstants();
  }

  /* ---------------------------------------------------------------------- */
  /* The driver                                                              */
  /* ---------------------------------------------------------------------- */

  class Radio {
    /** The SS pin (PB2): high while the chip is not selected. */
    var ssHigh: bool
    /** The power reduction register. */
    var prr: bv8
    var spcr: bv8
    var spsr: bv8
    /** Whether SPCR has been written since the SPI clock was last gated off. */
    ghost var spiConfigured: bool
    /** The radio chip and the address and data bytes of the open SS-low window. */
    var chip: Chip
    var window: seq<bv8>
    /** Every completed SS-low window, oldest first. */
    ghost var log: seq<seq<bv8>>

    ghost predicate Valid()
      reads this
    {
      ChipOk(chip) && (ssHigh ==> window == [])
    }

    /** The SPI port is clocked and configured as master, so a transfer completes. */
    ghost predicate SpiReady()
      reads this
    {
      prr & PrSpi == 0 && spcr == SpcrMaster && spiConfigured
    }

    /** The microcontroller-side registers. */
    ghost function Mcu(): (bv8, bv8, bv8, bool)
      reads this
    {
      (prr, spcr, spsr, spiConfigured)
    }

    /** The state `rfm69_initport` leaves: SS high, SPI master at clk/16, SPI2X off. */
    constructor (c: Chip, prr0: bv8)
      requires ChipOk(c)
      ensures Valid() && ssHigh && chip == c && log == []
      ensures prr == prr0 && spcr == SpcrMaster && spsr == 0 && spiConfigured
    {
      ssHigh := true;
      prr := prr0;
      spcr := SpcrMaster;
      spsr := 0x00;
      spiConfigured := true;
      chip := c;
      window := [];
      log := [];
    }

    /** SS low: a new window begins. */
    method Select()
      requires Valid() && ssHigh
      modifies this
      ensures Valid() && !ssHigh && window == []
      ensures chip == old(chip) && log == old(log) && Mcu() == old(Mcu())
    {
      ssHigh := false;
      window := [];
    }

    /** SS high: the chip acts on the window, which joins the log. */
    method Deselect()
      requires Valid() && !ssHigh
      modifies this
      ensures Valid() && ssHigh
      ensures log == old(log) + [old(window)] && chip == Process(old(chip), old(window))
      ensures Mcu() == old(Mcu())
    {
      chip := Process(chip, window);
      log := log + [window];
      window := [];
      ssHigh := true;
    }

    /** One byte over SPI inside an open window (`rfm69_spi8`). */
    method Spi8(value: bv8) returns (reply: bv8)
      requires Valid() && !ssHigh && SpiReady()
      modifies this
      ensures Valid() && !ssHigh && window == old(window) + [value]
      ensures reply == Miso(chip, old(window), value)
      ensures chip == old(chip) && log == old(log) && Mcu() == old(Mcu())
    {
      reply := Miso(chip, window, value);
      window := window + [value];
    }

    /** A 16-bit transfer in its own window, high byte first (`rfm69_spi16`). */
    method Spi16(value: bv16) returns (reply: bv16)
      requires Valid() && ssHigh && SpiReady()
      modifies this
      ensures Valid() && ssHigh && Mcu() == old(Mcu())
      ensures log == old(log) + [[Hi(value), Lo(value)]]
      ensures chip == Process(old(chip), [Hi(value), Lo(value)])
      ensures reply == Word(Miso(old(chip), [], Hi(value)), Miso(old(chip), [Hi(value)], Lo(value)))
    {
      Select();
      var first := Spi8(Hi(value));
      var second := Spi8(Lo(value));
      assert window == [Hi(value), Lo(value)];
      Deselect();
      reply := Word(first, second);
    }

    /** `rfm69_readreg`: the value of register `reg & 0x7f`. */
    method ReadReg(reg: bv8) returns (v: bv8)
      requires Valid() && ssHigh && SpiReady()
      modifies this
      ensures Valid() && ssHigh && Mcu() == old(Mcu())
      ensures v == RegRead(old(chip), reg & AddressMask)
      ensures log == old(log) + [ReadWindow(reg)]
      ensures chip == Process(old(chip), ReadWindow(reg))
    {
      ReadCommandDecodes(reg);
      var reply := Spi16(ReadCommand(reg));
      v := Lo(reply);
    }

    /** `rfm69_writereg`. */
    method WriteReg(reg: bv8, val: bv8)
      requires Valid() && ssHigh && SpiReady()
      modifies this
      ensures Valid() && ssHigh && Mcu() == old(Mcu())
      ensures log == old(log) + [WriteWindow(reg, val)]
      ensures chip == Process(old(chip), WriteWindow(reg, val))
    {
      WriteCommandDecodes(reg, val);
      var _ := Spi16(WriteCommand(reg, val));
    }

    /** `rfm69_clearfifo`: one write of the FifoOverrun bit into RegIrqFlags2. */
    method ClearFifo()
      requires Valid() && ssHigh && SpiReady()
      modifies this
      ensures Valid() && ssHigh && Mcu() == old(Mcu())
      ensures log == old(log) + [WriteWindow(RegIrqFlags2, FifoOverrun)]
      ensures chip == old(chip).(fifo := [])
    {
      ClearFifoEmpties(chip);
      WriteReg(RegIrqFlags2, FifoOverrun);
    }

    /** Read-modify-write of RegOpMode that selects `mode`. */
    method ChangeMode(mode: bv8)
      requires Valid() && ssHigh && SpiReady() && mode & ModeKeep == 0
      modifies this
      ensures Valid() && ssHigh && Mcu() == old(Mcu())
      ensures log == old(log) + ModeChange(RegRead(old(chip), RegOpMode), mode)
      ensures chip == ModeChanged(old(chip), mode)
    {
      ReadLeavesChip(chip, RegOpMode);
      var x := ReadReg(RegOpMode);
      WriteReg(RegOpMode, WithMode(x, mode));
    }

    /** `rfm69_settransmitter`: transmit mode when `e`, standby otherwise. */
    method SetTransmitter(e: bool)
      requires Valid() && ssHigh && SpiReady()
      modifies this
      ensures Valid() && ssHigh && Mcu() == old(Mcu())
      ensures var mode := if e then ModeTransmit else ModeStandby;
        log == old(log) + ModeChange(old(chip).regs[1], mode) && chip == ModeChanged(old(chip), mode)
    {
      if e {
        ChangeMode(ModeTransmit);
      } else {
        ChangeMode(ModeStandby);
      }
    }

    /**
     * `rfm69_setsleep`. Going to sleep selects sleep mode while the SPI port
     * still works and only then gates the SPI and USART0 clocks. Waking
     * ungates them, configures the SPI port again, selects standby mode and
     * polls RegIrqFlags1 until ModeReady shows.
     */
    method SetSleep(s: bool)
      requires Valid() && ssHigh
      requires s ==> SpiReady()
      modifies this
      ensures Valid() && ssHigh
      ensures s ==> (log == old(log) + ModeChange(old(chip).regs[1], ModeSleep)
                     && chip == ModeChanged(old(chip), ModeSleep)
                     && prr == old(prr) | PrSpi | PrUsart0 && !SpiReady()
                     && spcr == old(spcr) && spsr == old(spsr))
      ensures !s ==> (log == old(log) + ModeChange(old(chip).regs[1], ModeStandby)
                                 + Repeat(ReadWindow(RegIrqFlags1), ReadyPolls(old(chip).irq1))
                      && chip == ModeChanged(old(chip), ModeStandby).(irq1 := AfterReady(old(chip).irq1))
                      && prr == old(prr) & !(PrSpi | PrUsart0) && SpiReady()
                      && spcr == SpcrMaster && spsr == 0x00)
    {
      if s {
        ChangeMode(ModeSleep);
        prr := prr | PrSpi | PrUsart0;
        spiConfigured := false;
      } else {
        prr := prr & !(PrSpi | PrUsart0);
        spcr := SpcrMaster;
        spiConfigured := true;
        spsr := 0x00;
        ChangeMode(ModeStandby);
        WaitModeReady();
        AppendAssoc(old(log), ModeChange(old(chip).regs[1], ModeStandby),
                    Repeat(ReadWindow(RegIrqFlags1), ReadyPolls(old(chip).irq1)));
      }
    }

    /** The wait at the end of waking: read RegIrqFlags1 until ModeReady shows. */
    method WaitModeReady()
      requires Valid() && ssHigh && SpiReady()
      modifies this
      ensures Valid() && ssHigh && Mcu() == old(Mcu())
      ensures log == old(log) + Repeat(ReadWindow(RegIrqFlags1), ReadyPolls(old(chip).irq1))
      ensures chip == old(chip).(irq1 := AfterReady(old(chip).irq1))
    {
      ghost var start := chip;
      ghost var log0 := log;
      StatusReads(chip);
      var flags := ReadReg(RegIrqFlags1);
      ghost var n: nat := 1;
      while flags & ModeReady == 0
        invariant Valid() && ssHigh && SpiReady() && Mcu() == old(Mcu())
        invariant log == log0 + Repeat(ReadWindow(RegIrqFlags1), n)
        invariant chip == start.(irq1 := chip.irq1)
        invariant flags & ModeReady == 0 ==>
          ReadyPolls(start.irq1) == n + ReadyPolls(chip.irq1) && AfterReady(start.irq1) == AfterReady(chip.irq1)
        invariant flags & ModeReady != 0 ==>
          ReadyPolls(start.irq1) == n && chip.irq1 == AfterReady(start.irq1)
        decreases |chip.irq1| + (if flags & ModeReady == 0 then 1 else 0)
      {
        StatusReads(chip);
        flags := ReadReg(RegIrqFlags1);
        n := n + 1;
      }
    }

    /** The FIFO burst of `rfm69_sendarray`: one window holding the RegFifo write address and the data. */
    method FillFifo(data: array<bv8>, length: bv8)
      requires Valid() && ssHigh && SpiReady()
      requires length as int <= data.Length
      modifies this
      ensures Valid() && ssHigh && Mcu() == old(Mcu())
      ensures log == old(log) + [[RegFifo | WriteAccess] + data[..length]]
      ensures chip == old(chip).(fifo := old(chip).fifo + data[..length])
    {
      Select();
      var _ := Spi8(RegFifo | WriteAccess);
      var i := 0;
      while i < length as int
        invariant 0 <= i <= length as int
        invariant Valid() && !ssHigh && SpiReady() && Mcu() == old(Mcu())
        invariant window == [RegFifo | WriteAccess] + data[..i]
        invariant chip == old(chip) && log == old(log)
      {
        var _ := Spi8(data[i]);
        assert data[..i + 1] == data[..i] + [data[i]];
        i := i + 1;
      }
      assert data[..i] == data[..length];
      FifoBurstAppends(chip, data[..length]);
      Deselect();
    }

    /**
     * The wait in `rfm69_sendarray`: read RegIrqFlags2 until PacketSent
     * shows, giving up after `MaxReps` reads.
     */
    method WaitPacketSent()
      requires Valid() && ssHigh && SpiReady()
      modifies this
      ensures Valid() && ssHigh && Mcu() == old(Mcu())
      ensures log == old(log) + Repeat(ReadWindow(RegIrqFlags2), SentPolls(old(chip).irq2, MaxReps))
      ensures chip == old(chip).(irq2 := AfterSent(old(chip).irq2, MaxReps))
    {
      ghost var start := chip;
      ghost var log0 := log;
      var reg28: bv8 := 0x00;
      var maxreps: int := MaxReps;
      while reg28 & PacketSent == 0
        invariant 1 <= maxreps <= MaxReps
        invariant Valid() && ssHigh && SpiReady() && Mcu() == old(Mcu())
        invariant log == log0 + Repeat(ReadWindow(RegIrqFlags2), MaxReps - maxreps)
        invariant chip == start.(irq2 := chip.irq2)
        invariant reg28 & PacketSent == 0 ==>
          SentPolls(start.irq2, MaxReps) == MaxReps - maxreps + SentPolls(chip.irq2, maxreps)
          && AfterSent(start.irq2, MaxReps) == AfterSent(chip.irq2, maxreps)
        invariant reg28 & PacketSent != 0 ==>
          SentPolls(start.irq2, MaxReps) == MaxReps - maxreps && chip.irq2 == AfterSent(start.irq2, MaxReps)
        decreases maxreps
      {
        StatusReads(chip);
        reg28 := ReadReg(RegIrqFlags2);
        maxreps := maxreps - 1;
        if maxreps == 0 {
          break;
        }
      }
    }

    /**
     * `rfm69_sendarray`: the first `length` bytes of `data` go on the air as
     * one packet, with RegPayloadLength set to `length`, and the chip ends in
     * standby whether or not PacketSent showed.
     */
    method SendArray(data: array<bv8>, length: bv8)
      requires Valid() && ssHigh && SpiReady()
      requires length as int <= data.Length
      modifies this
      ensures Valid() && ssHigh && Mcu() == old(Mcu())
      ensures log == old(log) + SendLog(old(chip).regs[1], data[..length], length,
                                        SentPolls(old(chip).irq2, MaxReps))
      ensures chip.air == old(chip).air + [data[..length]] && chip.fifo == []
      ensures chip.regs == old(chip).regs[RegPayloadLength as int := length]
                                         [1 := WithMode(old(chip).regs[1], ModeStandby)]
      ensures chip.irq1 == old(chip).irq1 && chip.irq2 == AfterSent(old(chip).irq2, MaxReps)
    {
      ghost var x, log0, polls := chip.regs[1], log, SentPolls(chip.irq2, MaxReps);
      WriteStores(chip, RegPayloadLength, length);
      WriteReg(RegPayloadLength, length);
      ClearFifo();
      FillFifo(data, length);
      ghost var log1 := log;
      assert chip.fifo == data[..length];
      TransmitSendsFifo(chip);
      SetTransmitter(true);
      WaitPacketSent();
      ghost var log2 := log;
      IdleModeStores(chip, ModeStandby);
      WithModeTwice(x, ModeTransmit, ModeStandby);
      SetTransmitter(false);
      SendLogParts(log0, log1, log2, log, x, data[..length], length, polls);
    }

    /** The first group of `rfm69_initchip`: standby, modulation, deviation, power, receiver. */
    method InitModem()
      requires Valid() && ssHigh && SpiReady()
      modifies this
      ensures Valid() && ssHigh && Mcu() == old(Mcu())
      ensures log == old(log) + ModemLog
      ensures chip == old(chip).(regs := old(chip).regs[0x01 := 0x04][0x02 := 0x00][0x05 := 0x05][0x06 := 0xC3]
                                          [0x11 := 0x7C][0x13 := 0x1F][0x19 := 0x42][0x26 := 0x07])
    {
      WriteReg(0x01, 0x00 | ModeStandby);
      WriteReg(0x02, 0x00);
      WriteReg(0x05, 0x05);
      WriteReg(0x06, 0xC3);
      WriteReg(0x11, 0x40 | 0x20 | 28);
      WriteReg(0x13, 0x1F);
      WriteReg(0x19, 0x42);
      WriteReg(0x26, 0x07);
    }

    /** The second group: RSSI threshold, preamble, sync word. */
    method InitSync()
      requires Valid() && ssHigh && SpiReady()
      modifies this
      ensures Valid() && ssHigh && Mcu() == old(Mcu())
      ensures log == old(log) + SyncLog
      ensures chip == old(chip).(regs := old(chip).regs[0x29 := 220][0x2C := 0x00][0x2D := 0x03][0x2E := 0x88]
                                          [0x2F := 0x2D][0x30 := 0xD4])
    {
      WriteReg(0x29, 220);
      WriteReg(0x2C, 0x00);
      WriteReg(0x2D, 0x03);
      WriteReg(0x2E, 0x88);
      WriteReg(0x2F, 0x2D);
      WriteReg(0x30, 0xD4);
    }

    /** The third group: packet format, FIFO threshold. */
    method InitPacket()
      requires Valid() && ssHigh && SpiReady()
      modifies this
      ensures Valid() && ssHigh && Mcu() == old(Mcu())
      ensures log == old(log) + PacketLog
      ensures chip == old(chip).(regs := old(chip).regs[0x37 := 0x00][0x38 := 0x0C][0x3C := 0x8F][0x3D := 0x12])
    {
      WriteReg(0x37, 0x00);
      WriteReg(0x38, 0x0C);
      WriteReg(0x3C, 0x8F);
      WriteReg(0x3D, 0x12);
    }

    /** The fourth group: carrier frequency and bit rate, each most significant byte first. */
    method InitCarrier()
      requires Valid() && ssHigh && SpiReady()
      modifies this
      ensures Valid() && ssHigh && Mcu() == old(Mcu())
      ensures log == old(log) + CarrierLog
      ensures chip == old(chip).(regs := old(chip).regs[0x07 := 0xD9][0x08 := 0x13][0x09 := 0x33]
                                          [0x03 := 0x07][0x04 := 0x40])
    {
      // On an unsigned word, `freq >> k` is `freq / 2^k`.
      var freq: bv32 := FrequencyReg;
      WriteReg(0x07, ((freq / 0x10000) & 0xFF) as bv8);
      WriteReg(0x08, ((freq / 0x100) & 0xFF) as bv8);
      WriteReg(0x09, (freq & 0xFF) as bv8);
      var dr: bv16 := BitRateReg;
      WriteReg(0x03, (dr >> 8) as bv8);
      WriteReg(0x04, (dr & 0xFF) as bv8);
    }

    /** `rfm69_initchip`: the fixed sequence of register writes that sets the chip up. */
    method InitChip()
      requires Valid() && ssHigh && SpiReady()
      modifies this
      ensures Valid() && ssHigh && Mcu() == old(Mcu())
      ensures log == old(log) + InitLog
      ensures chip == old(chip).(regs := InitImage(old(chip).regs), fifo := [])
    {
      ghost var log0 := log;
      InitModem();
      ClearFifo();
      ghost var log1 := log;
      InitSync();
      InitPacket();
      ghost var log2 := log;
      InitCarrier();
      ClearFifo();
      InitLogParts(log0, log1, log2, log);
    }
  }
}
