/**
 * The main loop of the sensor node: every watchdog period it wakes, and every
 * fourth or fifth period (the first time on the third) it fetches the
 * previous measurement, starts the next one, reads the battery voltage and
 * transmits one frame. Six failed
 * sensor reads in a row make it stop feeding the watchdog, which then resets
 * the device.
 */
module Scheduler {
  import opened Common
  import opened FrameCodec
  import opened Sht4x

  /** The loop's `uint8_t`, `uint16_t` and `uint32_t` counters. */
  newtype U8 = x: int | 0 <= x < 0x100
  newtype U16 = x: int | 0 <= x < 0x1_0000
  newtype U32 = x: int | 0 <= x < 0x1_0000_0000

  /** `x++` on a `uint8_t`: it wraps from 255 to 0. */
  function Inc8(x: U8): (r: U8)
    ensures x < 0xff ==> r == x + 1
    ensures x == 0xff ==> r == 0
  {
    if x == 0xff then 0 else x + 1
  }

  /** `x++` on a `uint32_t`: it wraps from 2^32 - 1 to 0. */
  function Inc32(x: U32): (r: U32)
    ensures x < 0xffff_ffff ==> r == x + 1
    ensures x == 0xffff_ffff ==> r == 0
  {
    if x == 0xffff_ffff then 0 else x + 1
  }

  /** The sentinel the loop stores for a reading the sensor could not deliver. */
  const Unreadable: bv16 := 0xffff

  /** The transmit interval before the first transmission, in watchdog periods. */
  const FirstInterval: U16 := 2

  /** More failed reads in a row than this force the watchdog reset. */
  const MaxReadErrors: U8 := 5

  /** The calls into the other drivers that one pass of the loop makes, in order. */
  datatype Effect =
    | RadioPortInit      // rfm69_initport
    | AdcInit            // adc_init
    | SensorInit         // sht4x_init
    | RadioInit          // rfm69_initchip
    | RadioWake          // rfm69_setsleep(0)
    | RadioSleep         // rfm69_setsleep(1)
    | AdcOn              // adc_power(1)
    | AdcStart           // adc_start
    | AdcRead            // adc_read
    | AdcOff             // adc_power(0)
    | SensorRead         // sht4x_read
    | SensorStart        // sht4x_startmeas
    | Transmit(frame: seq<bv8>)  // rfm69_sendarray(frametosend, 10)
    | WatchdogKick       // wdt_reset
    | WatchdogArm        // the two WDTCSR writes that enable the watchdog interrupt
    | CpuSleep           // sleep_cpu
    | WatchdogWake       // a watchdog timeout with the interrupt enabled
    | DeviceReset        // a watchdog timeout with the interrupt disabled

  /** Whether the device is still running the loop or the watchdog has reset it. */
  datatype Phase = Running | Reset

  /** The globals of main.c and the locals of its loop, as seen at the head of the loop. */
  datatype Loop = Loop(
    temp: bv16, hum: bv16, batvolt: bv8, pktssent: U32, sensorid: bv8,
    transmitinterval: U16, mlcnt: U8, readerrcnt: U8,
    armed: bool, phase: Phase)

  /** What one pass of the loop leaves: the new state, the frame sent if any, and the calls made. */
  datatype Outcome = Outcome(after: Loop, sent: Option<seq<bv8>>, effects: seq<Effect>)

  /** The battery level sent in a frame: the ADC value shifted right by two, truncated to a byte. */
  function BatteryLevel(adcval: bv16): (r: bv8)
    ensures adcval < 0x400 ==> r as bv16 == adcval >> 2
  {
    ((adcval >> 2) & 0xff) as bv8
  }

  /** The next transmit interval: three or four periods, chosen by the lowest ADC bit. */
  function NextInterval(adcval: bv16): (r: U16)
    ensures r == 3 || r == 4
    ensures r == 4 <==> adcval & 1 == 1
  {
    3 + (adcval & 0x0001) as U16
  }

  /** The watchdog timeout that ends a sleep: it wakes the loop if the interrupt is enabled, otherwise it resets. */
  function Timeout(s: Loop): (r: (Loop, Effect))
    ensures !r.0.armed
    ensures r.0.phase == Reset <==> !s.armed || s.phase == Reset
    ensures r.1 == WatchdogWake <==> s.armed
  {
    if s.armed then (s.(armed := false), WatchdogWake) else (s.(phase := Reset), DeviceReset)
  }

  /** The end of every pass: kick the watchdog, sleep until it times out, and enable its interrupt again. */
  function SleepTail(s: Loop): (r: Outcome)
    ensures r.sent == None && r.after == s.(phase := r.after.phase)
  {
    if s.armed then Outcome(s, None, SleepEffects)
    else Outcome(s.(phase := Reset), None, [WatchdogKick, CpuSleep, DeviceReset])
  }

  /** The calls at the end of a pass that the watchdog wakes from: the interrupt it clears is enabled again. */
  const SleepEffects: seq<Effect> := [WatchdogKick, CpuSleep, WatchdogWake, WatchdogArm]

  /** With its interrupt enabled the watchdog wakes the loop, which enables the interrupt again. */
  lemma SleepArmed(t: Loop)
    requires t.armed && t.phase == Running
    ensures SleepTail(t) == Outcome(t, None, SleepEffects)
  {
  }

  /** The endless sleep of the fail-safe: it ends when a watchdog timeout resets the device. */
  function FailSafe(s: Loop): (r: Outcome)
  {
    if s.armed then Outcome(s.(armed := false, phase := Reset), None, [CpuSleep, WatchdogWake, CpuSleep, DeviceReset])
    else Outcome(s.(phase := Reset), None, [CpuSleep, DeviceReset])
  }

  /** Whether a pass from `s` is a transmit cycle: the incremented counter exceeds the interval. */
  predicate TransmitDue(s: Loop)
  {
    Inc8(s.mlcnt) as int > s.transmitinterval as int
  }

  /** The calls a transmit cycle makes before it decides whether the read failed too often. */
  const FetchEffects: seq<Effect> := [RadioWake, AdcOn, AdcStart, SensorRead]

  /** What a transmit cycle stores from the sensor: its words if the read succeeded, the sentinel otherwise, and the new error count. */
  function Fetched(s: Loop, hd: Sht4xData): (t: Loop)
  {
    if hd.valid then s.(temp := hd.temp, hum := hd.hum, readerrcnt := 0)
    else s.(temp := Unreadable, hum := Unreadable, readerrcnt := Inc8(s.readerrcnt))
  }

  /** The frame a transmit cycle sends from state `t`. */
  function FrameOf(t: Loop, adcval: bv16): (f: seq<bv8>)
  {
    Encode(t.sensorid, t.temp, t.hum, BatteryLevel(adcval))
  }

  /** What a transmit cycle stores after sending: battery level, packet count, next interval, and the count restarted. */
  function Sent(t: Loop, adcval: bv16): (u: Loop)
  {
    t.(batvolt := BatteryLevel(adcval), pktssent := Inc32(t.pktssent),
       transmitinterval := NextInterval(adcval), mlcnt := 0)
  }

  /** The calls a transmit cycle makes to start the next measurement, read the battery and send frame `f`. */
  function SendEffects(f: seq<bv8>): (e: seq<Effect>)
  {
    [SensorStart, AdcRead, AdcOff, Transmit(f), RadioSleep]
  }

  /**
   * A transmit cycle from state `m`, whose period counter is already incremented:
   * fetch the reading, then either fall into the fail-safe or send a frame and sleep.
   */
  function TransmitOutcome(m: Loop, hd: Sht4xData, adcval: bv16): (r: Outcome)
    ensures r.after.sensorid == m.sensorid
    ensures r.sent.Some? ==> r.after.mlcnt == 0 && r.after.pktssent == Inc32(m.pktssent)
  {
    var t := Fetched(m, hd);
    if !hd.valid && t.readerrcnt > MaxReadErrors then
      var stop := FailSafe(t);
      Outcome(stop.after, None, FetchEffects + stop.effects)
    else
      var f := FrameOf(t, adcval);
      var tail := SleepTail(Sent(t, adcval));
      Outcome(tail.after, Some(f), FetchEffects + SendEffects(f) + tail.effects)
  }

  /** One pass of the loop of main.c, from the head of the loop back to it, given the sensor's answer and the ADC value. */
  function Cycle(s: Loop, hd: Sht4xData, adcval: bv16): (r: Outcome)
    ensures !TransmitDue(s) ==> r.sent == None && r.after.mlcnt == Inc8(s.mlcnt)
    ensures r.sent.Some? ==> r.after.mlcnt == 0 && r.after.pktssent == Inc32(s.pktssent)
    ensures r.after.sensorid == s.sensorid
  {
    var m := s.(mlcnt := Inc8(s.mlcnt));
    if !TransmitDue(s) then SleepTail(m) else TransmitOutcome(m, hd, adcval)
  }

  /** What holds at the head of the loop while the device runs. */
  predicate Inv(s: Loop)
  {
    && s.phase == Running && s.armed
    && FirstInterval <= s.transmitinterval <= 4
    && s.mlcnt as int <= s.transmitinterval as int
    && s.readerrcnt <= MaxReadErrors
  }

  /** The state main.c enters the loop with, after loading identifier `id`. */
  function Boot(id: bv8): (s: Loop)
    ensures Inv(s)
  {
    Loop(0, 0, 0, 0, id, FirstInterval, 0, 0, true, Running)
  }

  /** A pass that is not a transmit cycle only counts, kicks the watchdog and sleeps. */
  lemma QuietCycle(s: Loop, hd: Sht4xData, adcval: bv16)
    requires Inv(s) && !TransmitDue(s)
    ensures Cycle(s, hd, adcval).after == s.(mlcnt := s.mlcnt + 1)
    ensures Cycle(s, hd, adcval).sent == None
    ensures Cycle(s, hd, adcval).effects == [WatchdogKick, CpuSleep, WatchdogWake, WatchdogArm]
  {
  }

  /** Every pass that does not end in the reset leaves the loop invariant in force; the counters never wrap. */
  lemma CycleKeepsInv(s: Loop, hd: Sht4xData, adcval: bv16)
    requires Inv(s)
    ensures Cycle(s, hd, adcval).after.phase == Running ==> Inv(Cycle(s, hd, adcval).after)
  {
    if !TransmitDue(s) {
      SleepArmed(s.(mlcnt := Inc8(s.mlcnt)));
    } else if hd.valid || Fetched(s, hd).readerrcnt <= MaxReadErrors {
      SleepArmed(Sent(Fetched(s.(mlcnt := Inc8(s.mlcnt)), hd), adcval));
    }
  }

  /** The reset happens exactly on a transmit cycle whose read fails after five failed reads in a row. */
  lemma ResetExactlyOnSixthFailure(s: Loop, hd: Sht4xData, adcval: bv16)
    requires Inv(s)
    ensures Cycle(s, hd, adcval).after.phase == Reset <==> TransmitDue(s) && !hd.valid && s.readerrcnt == MaxReadErrors
  {
  }

  /** A frame is sent exactly on a transmit cycle that does not end in the fail-safe. */
  lemma SendsExactlyWhenDue(s: Loop, hd: Sht4xData, adcval: bv16)
    requires Inv(s)
    ensures Cycle(s, hd, adcval).sent.Some? <==> TransmitDue(s) && (hd.valid || s.readerrcnt < MaxReadErrors)
  {
  }

  /**
   * A transmit cycle sends one frame that a receiver reads as the node's identifier,
   * the sensor words (or the sentinel if the read failed) and the battery level.
   */
  lemma SentFrameDecodes(s: Loop, hd: Sht4xData, adcval: bv16, f: seq<bv8>)
    requires Inv(s) && Cycle(s, hd, adcval).sent == Some(f)
    ensures Decode(f) == Some(Telemetry(s.sensorid,
      if hd.valid then hd.temp else Unreadable,
      if hd.valid then hd.hum else Unreadable,
      BatteryLevel(adcval)))
  {
    var t := Fetched(s.(mlcnt := Inc8(s.mlcnt)), hd);
    assert f == FrameOf(t, adcval);
    DecodeEncode(t.sensorid, t.temp, t.hum, BatteryLevel(adcval));
  }

  /**
   * A transmit cycle that sends stores the readings (or the sentinel), the battery
   * level and one more packet, restarts the count with an interval of three or four
   * periods, and makes the driver calls in the order of main.c.
   */
  lemma TransmitCycle(s: Loop, hd: Sht4xData, adcval: bv16, f: seq<bv8>)
    requires Inv(s) && Cycle(s, hd, adcval).sent == Some(f)
    ensures var t := Cycle(s, hd, adcval).after;
      && t.temp == (if hd.valid then hd.temp else Unreadable)
      && t.hum == (if hd.valid then hd.hum else Unreadable)
      && t.batvolt == BatteryLevel(adcval)
      && t.pktssent == Inc32(s.pktssent)
      && t.readerrcnt == (if hd.valid then 0 else s.readerrcnt + 1)
      && t.mlcnt == 0
      && NextInterval(adcval) == t.transmitinterval
      && t.sensorid == s.sensorid
    ensures Cycle(s, hd, adcval).effects == FetchEffects + SendEffects(f) + SleepEffects
  {
    SentOutcome(s, hd, adcval, f);
    SentState(s, hd, adcval);
  }

  /** A pass that sends ends in the state after sending, with the watchdog woken and re-armed. */
  lemma SentOutcome(s: Loop, hd: Sht4xData, adcval: bv16, f: seq<bv8>)
    requires Inv(s) && Cycle(s, hd, adcval).sent == Some(f)
    ensures var t := Fetched(s.(mlcnt := Inc8(s.mlcnt)), hd);
      Cycle(s, hd, adcval) == Outcome(Sent(t, adcval), Some(f), FetchEffects + SendEffects(f) + SleepEffects)
  {
    SleepArmed(Sent(Fetched(s.(mlcnt := Inc8(s.mlcnt)), hd), adcval));
  }

  /** The fields of the state after a reading is fetched and a frame sent. */
  lemma SentState(s: Loop, hd: Sht4xData, adcval: bv16)
    requires Inv(s)
    ensures var t := Sent(Fetched(s.(mlcnt := Inc8(s.mlcnt)), hd), adcval);
      && t.temp == (if hd.valid then hd.temp else Unreadable)
      && t.hum == (if hd.valid then hd.hum else Unreadable)
      && t.batvolt == BatteryLevel(adcval)
      && t.pktssent == Inc32(s.pktssent)
      && t.readerrcnt == (if hd.valid then 0 else s.readerrcnt + 1)
      && t.mlcnt == 0
      && NextInterval(adcval) == t.transmitinterval
      && t.sensorid == s.sensorid
  {
  }

  /**
   * In the fail-safe the loop sends nothing, starts no measurement, neither kicks nor
   * re-arms the watchdog, and sleeps until the watchdog resets the device.
   */
  lemma FailSafeCycle(s: Loop, hd: Sht4xData, adcval: bv16)
    requires Inv(s) && Cycle(s, hd, adcval).after.phase == Reset
    ensures Cycle(s, hd, adcval).sent == None
    ensures Cycle(s, hd, adcval).effects ==
      [RadioWake, AdcOn, AdcStart, SensorRead, CpuSleep, WatchdogWake, CpuSleep, DeviceReset]
    ensures SensorStart !in Cycle(s, hd, adcval).effects
    ensures WatchdogKick !in Cycle(s, hd, adcval).effects
    ensures WatchdogArm !in Cycle(s, hd, adcval).effects
    ensures Cycle(s, hd, adcval).after.temp == Unreadable && Cycle(s, hd, adcval).after.hum == Unreadable
  {
    ResetExactlyOnSixthFailure(s, hd, adcval);
    var t := Fetched(s.(mlcnt := Inc8(s.mlcnt)), hd);
    assert t.readerrcnt == MaxReadErrors + 1;
    var e := [RadioWake, AdcOn, AdcStart, SensorRead, CpuSleep, WatchdogWake, CpuSleep, DeviceReset];
    assert Cycle(s, hd, adcval) == Outcome(t.(armed := false, phase := Reset), None, e);
  }

  /** The number of failed reads at the end of a history of read results. */
  function TrailingFailures(h: seq<bool>): (n: nat)
  {
    if |h| == 0 || h[|h| - 1] then 0 else TrailingFailures(h[..|h| - 1]) + 1
  }

  /** The last TrailingFailures(h) reads all failed, and the one before them, if any, succeeded. */
  lemma {:induction false} TrailingFailuresRun(h: seq<bool>)
    ensures TrailingFailures(h) <= |h|
    ensures TrailingFailures(h) < |h| ==> h[|h| - 1 - TrailingFailures(h)]
    ensures forall i :: |h| - TrailingFailures(h) <= i < |h| ==> !h[i]
    decreases |h|
  {
    if |h| > 0 && !h[|h| - 1] {
      var p := h[..|h| - 1];
      TrailingFailuresRun(p);
      assert forall i :: |p| - TrailingFailures(p) <= i < |p| ==> h[i] == p[i];
    }
  }

  /** A good read ends the run of failures; a failed one extends it. */
  lemma TrailingSnoc(h: seq<bool>, b: bool)
    ensures TrailingFailures(h + [b]) == if b then 0 else TrailingFailures(h) + 1
  {
    assert (h + [b])[..|h|] == h;
  }

  /**
   * readerrcnt counts the failed reads since the last good one: if it did before a
   * pass, it does after it, with the pass's read appended to the history when the
   * pass was a transmit cycle; the reset comes on the sixth failure in a row.
   */
  lemma {:induction false} CountsTrailingFailures(s: Loop, h: seq<bool>, hd: Sht4xData, adcval: bv16)
    requires Inv(s) && s.readerrcnt as int == TrailingFailures(h)
    ensures var t := Cycle(s, hd, adcval).after;
      var h' := if TransmitDue(s) then h + [hd.valid] else h;
      t.readerrcnt as int == TrailingFailures(h') && (t.phase == Reset <==> TrailingFailures(h') > MaxReadErrors as int)
  {
    ResetExactlyOnSixthFailure(s, hd, adcval);
    if !TransmitDue(s) {
      SleepArmed(s.(mlcnt := Inc8(s.mlcnt)));
    } else {
      TrailingSnoc(h, hd.valid);
      if hd.valid || Fetched(s, hd).readerrcnt <= MaxReadErrors {
        SleepArmed(Sent(Fetched(s.(mlcnt := Inc8(s.mlcnt)), hd), adcval));
      }
    }
  }

  // ---------------------------------------------------------------------
  // The transmit cadence

  /** The loop state after `k` passes that each see the sensor answer `hd` and the ADC value `adcval`. */
  function Passes(s: Loop, k: nat, hd: Sht4xData, adcval: bv16): (t: Loop)
    decreases k
  {
    if k == 0 then s else Cycle(Passes(s, k - 1, hd, adcval), hd, adcval).after
  }

  /** While the period counter has not reached the interval, passes only count. */
  lemma {:induction false} QuietPasses(s: Loop, k: nat, hd: Sht4xData, adcval: bv16)
    requires Inv(s) && s.mlcnt as int + k <= s.transmitinterval as int
    ensures Passes(s, k, hd, adcval) == s.(mlcnt := (s.mlcnt as int + k) as U8)
    decreases k
  {
    if k > 0 {
      QuietPasses(s, k - 1, hd, adcval);
      QuietStep(s, k - 1, hd, adcval);
    }
  }

  /** Proof step for QuietPasses: one more quiet pass after `m` of them. */
  lemma QuietStep(s: Loop, m: nat, hd: Sht4xData, adcval: bv16)
    requires Inv(s) && s.mlcnt as int + m < s.transmitinterval as int
    ensures Cycle(s.(mlcnt := (s.mlcnt as int + m) as U8), hd, adcval).after
         == s.(mlcnt := (s.mlcnt as int + m + 1) as U8)
  {
    var p := s.(mlcnt := (s.mlcnt as int + m) as U8);
    assert Inv(p) && !TransmitDue(p);
    QuietCycle(p, hd, adcval);
  }

  /**
   * From a restarted count, the first `transmitinterval` passes do not
   * transmit and the next one does: the pass counter is incremented
   * before it is compared with the interval.
   */
  lemma Cadence(s: Loop, hd: Sht4xData, adcval: bv16)
    requires Inv(s) && s.mlcnt == 0
    ensures forall j :: 0 <= j < s.transmitinterval as int ==> !TransmitDue(Passes(s, j, hd, adcval))
    ensures TransmitDue(Passes(s, s.transmitinterval as int, hd, adcval))
  {
    forall j | 0 <= j <= s.transmitinterval as int
      ensures Passes(s, j, hd, adcval) == s.(mlcnt := j as U8)
    {
      QuietPasses(s, j, hd, adcval);
    }
  }

  /** After start-up the first two passes do not transmit and the third one does. */
  lemma FirstTransmitOnThirdPass(id: bv8, hd: Sht4xData, adcval: bv16)
    ensures !TransmitDue(Passes(Boot(id), 0, hd, adcval)) && !TransmitDue(Passes(Boot(id), 1, hd, adcval))
    ensures TransmitDue(Passes(Boot(id), 2, hd, adcval))
  {
    Cadence(Boot(id), hd, adcval);
  }

  /**
   * After a pass that sends, the next three or four passes do not
   * transmit and the one after them does: a frame goes out every fourth
   * or fifth watchdog period.
   */
  lemma TransmitsEveryFourthOrFifthPass(s: Loop, hd: Sht4xData, adcval: bv16, hd2: Sht4xData, adc2: bv16)
    requires Inv(s) && Cycle(s, hd, adcval).sent.Some?
    ensures var t := Cycle(s, hd, adcval).after;
      && (t.transmitinterval == 3 || t.transmitinterval == 4)
      && (forall j :: 0 <= j < t.transmitinterval as int ==> !TransmitDue(Passes(t, j, hd2, adc2)))
      && TransmitDue(Passes(t, t.transmitinterval as int, hd2, adc2))
  {
    var f := Cycle(s, hd, adcval).sent.value;
    TransmitCycle(s, hd, adcval, f);
    SentOutcome(s, hd, adcval, f);
    CycleKeepsInv(s, hd, adcval);
    Cadence(Cycle(s, hd, adcval).after, hd2, adc2);
  }

  /**
   * The node: the globals of main.c, the static frame buffer, the loop's locals
   * and the watchdog's interrupt-enable flag, with a trace of the calls made
   * into the other drivers.
   */
  class Node {
    var temp: bv16
    var hum: bv16
    var batvolt: bv8
    var pktssent: U32
    var sensorid: bv8
    var transmitinterval: U16
    var mlcnt: U8
    var readerrcnt: U8
    var armed: bool
    var phase: Phase
    const frame: array<bv8>
    var trace: seq<Effect>
    /** The validity of every sensor read so far, oldest first. */
    ghost var history: seq<bool>

    /** The scalar state as a value. */
    function State(): Loop
      reads this
    {
      Loop(temp, hum, batvolt, pktssent, sensorid, transmitinterval, mlcnt, readerrcnt, armed, phase)
    }

    /** The loop invariant, and readerrcnt counting the failed reads since the last good one. */
    ghost predicate Valid()
      reads this
    {
      frame.Length == FrameLength && Inv(State()) && readerrcnt as int == TrailingFailures(history)
    }

    /** Start-up up to the head of the loop, with the two identifier bytes read from EEPROM. */
    constructor (e1: bv8, e2: bv8)
      ensures Valid()
      ensures State() == Boot(LoadedId(DefaultSensorId, e1, e2))
      ensures trace == [RadioPortInit, AdcInit, SensorInit, RadioInit, RadioSleep, WatchdogArm, SensorStart]
      ensures history == []
      ensures fresh(frame)
    {
      temp, hum, batvolt, pktssent := 0, 0, 0, 0;
      sensorid := DefaultSensorId;
      frame := new bv8[FrameLength];
      transmitinterval, mlcnt, readerrcnt := FirstInterval, 0, 0;
      armed, phase := false, Running;
      trace, history := [RadioPortInit, AdcInit, SensorInit], [];
      new;
      LoadSettingsFromEeprom(e1, e2);
      trace := trace + [RadioInit, RadioSleep];
      armed := true;
      trace := trace + [WatchdogArm, SensorStart];
    }

    /** loadsettingsfromeeprom: take the stored identifier if its complement byte matches. */
    method LoadSettingsFromEeprom(e1: bv8, e2: bv8)
      modifies this
      ensures sensorid == LoadedId(old(sensorid), e1, e2)
      ensures State() == old(State()).(sensorid := sensorid)
      ensures trace == old(trace) && history == old(history)
    {
      if e1 ^ 0xff == e2 {
        sensorid := e1;
      }
    }

    /** The first nine bytes of prepareframe: header, readings and battery level. */
    method WriteFields()
      requires frame.Length == FrameLength
      modifies frame
      ensures frame[..9] == [StartByte, sensorid, PayloadLength, SensorType, Hi(temp), Lo(temp), Hi(hum), Lo(hum), batvolt]
    {
      frame[0] := StartByte;
      frame[1] := sensorid;
      frame[2] := PayloadLength;
      frame[3] := SensorType;
      frame[4] := Hi(temp);
      frame[5] := Lo(temp);
      frame[6] := Hi(hum);
      frame[7] := Lo(hum);
      frame[8] := batvolt;
    }

    /** prepareframe: fill the frame buffer in place with the header, the readings and the checksum. */
    method PrepareFrame()
      requires frame.Length == FrameLength
      modifies frame
      ensures frame[..] == Encode(sensorid, temp, hum, batvolt)
    {
      WriteFields();
      ghost var body := frame[..9];
      var crc := CalculateCrc(frame, 9);
      frame[9] := crc;
      assert frame[..9] == body;
      EncodeLayout(sensorid, temp, hum, batvolt, frame[..]);
    }

    /** A watchdog timeout during sleep: a wake-up if the interrupt is enabled (which clears it), a reset otherwise. */
    method WatchdogTimeout()
      modifies this
      ensures State() == Timeout(old(State())).0
      ensures trace == old(trace) + [Timeout(old(State())).1]
      ensures history == old(history)
    {
      if armed {
        armed := false;
        trace := trace + [WatchdogWake];
      } else {
        phase := Reset;
        trace := trace + [DeviceReset];
      }
    }

    /** The endless sleep of the fail-safe, left only through the watchdog reset. */
    method SleepForever()
      requires phase == Running
      modifies this
      ensures State() == FailSafe(old(State())).after
      ensures trace == old(trace) + FailSafe(old(State())).effects
      ensures history == old(history)
    {
      ghost var s0, t0 := State(), trace;
      while phase == Running
        invariant phase == Running ==>
          ((State() == s0 && trace == t0)
           || (s0.armed && State() == s0.(armed := false) && trace == t0 + [CpuSleep, WatchdogWake]))
        invariant phase == Reset ==> State() == FailSafe(s0).after && trace == t0 + FailSafe(s0).effects
        invariant history == old(history)
        decreases (if phase == Running then 1 else 0) + (if armed then 1 else 0)
      {
        trace := trace + [CpuSleep];
        WatchdogTimeout();
      }
    }

    /** Sleep until the watchdog times out, then enable its interrupt again if it only woke the loop. */
    method SleepUntilWoken()
      requires phase == Running
      modifies this
      ensures State() == SleepTail(old(State())).after
      ensures trace == old(trace) + SleepTail(old(State())).effects
      ensures history == old(history)
    {
      trace := trace + [WatchdogKick, CpuSleep];
      WatchdogTimeout();
      if phase == Running {
        armed := true;
        trace := trace + [WatchdogArm];
        assert trace == old(trace) + SleepEffects;
      } else {
        assert trace == old(trace) + [WatchdogKick, CpuSleep, DeviceReset];
      }
    }

    /** Fetch the previous measurement: store its words, or the sentinel and one more failed read. */
    method Fetch(hd: Sht4xData)
      modifies this
      ensures State() == Fetched(old(State()), hd)
      ensures trace == old(trace) + FetchEffects
      ensures history == old(history) + [hd.valid]
    {
      trace := trace + [RadioWake, AdcOn, AdcStart, SensorRead];
      history := history + [hd.valid];
      temp := Unreadable;
      hum := Unreadable;
      if hd.valid {
        readerrcnt := 0;
        temp := hd.temp;
        hum := hd.hum;
      } else {
        readerrcnt := Inc8(readerrcnt);
      }
    }

    /** Start the next measurement, read the battery, send the frame and put the radio to sleep. */
    method Send(adcval: bv16) returns (f: seq<bv8>)
      requires frame.Length == FrameLength
      modifies this, frame
      ensures f == FrameOf(old(State()), adcval)
      ensures State() == Sent(old(State()), adcval)
      ensures trace == old(trace) + SendEffects(f)
      ensures history == old(history)
    {
      ghost var s0 := State();
      trace := trace + [SensorStart, AdcRead, AdcOff];
      batvolt := BatteryLevel(adcval);
      PrepareFrame();
      f := frame[..];
      assert f == FrameOf(s0, adcval);
      trace := trace + [Transmit(f), RadioSleep];
      pktssent := Inc32(pktssent);
      transmitinterval := NextInterval(adcval);
      mlcnt := 0;
      AppendAssoc(old(trace), [SensorStart, AdcRead, AdcOff], [Transmit(f), RadioSleep]);
    }

    /**
     * The transmit branch of the loop: fetch the previous measurement; after too
     * many failed reads sleep until the watchdog resets the device, otherwise start
     * the next measurement, send one frame and sleep until the watchdog wakes the loop.
     */
    method TransmitPass(hd: Sht4xData, adcval: bv16) returns (sent: Option<seq<bv8>>)
      requires frame.Length == FrameLength && phase == Running
      modifies this, frame
      ensures State() == TransmitOutcome(old(State()), hd, adcval).after
      ensures sent == TransmitOutcome(old(State()), hd, adcval).sent
      ensures trace == old(trace) + TransmitOutcome(old(State()), hd, adcval).effects
      ensures history == old(history) + [hd.valid]
    {
      ghost var m, t0 := State(), trace;
      Fetch(hd);
      if !hd.valid && readerrcnt > MaxReadErrors {
        SleepForever();
        AppendAssoc(t0, FetchEffects, FailSafe(Fetched(m, hd)).effects);
        return None;
      }
      var f := Send(adcval);
      sent := Some(f);
      ghost var u := State();
      SleepUntilWoken();
      AppendAssoc(t0, FetchEffects, SendEffects(f));
      AppendAssoc(t0, FetchEffects + SendEffects(f), SleepTail(u).effects);
    }

    /**
     * One pass of the main loop: count the period and, when a transmit is due,
     * run the transmit branch; otherwise kick the watchdog and sleep until it
     * wakes the loop.
     */
    method Step(hd: Sht4xData, adcval: bv16) returns (sent: Option<seq<bv8>>)
      requires Valid()
      modifies this, frame
      ensures State() == Cycle(old(State()), hd, adcval).after
      ensures sent == Cycle(old(State()), hd, adcval).sent
      ensures trace == old(trace) + Cycle(old(State()), hd, adcval).effects
      ensures history == if TransmitDue(old(State())) then old(history) + [hd.valid] else old(history)
      ensures phase == Running ==> Valid()
    {
      ghost var s0, h0 := State(), history;
      mlcnt := Inc8(mlcnt);
      if mlcnt as int > transmitinterval as int {
        sent := TransmitPass(hd, adcval);
      } else {
        sent := None;
        SleepUntilWoken();
      }
      CycleKeepsInv(s0, hd, adcval);
      CountsTrailingFailures(s0, h0, hd, adcval);
    }
  }
}
