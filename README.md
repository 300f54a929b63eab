# foxtemp2022 sensor node, modelled in Dafny

foxtemp2022 is the firmware of a battery-powered temperature and humidity
sensor node. It runs on an ATmega328P. An SHT4x sensor sits on a two-wire
bus that the firmware bit-bangs, and an RFM69 radio module sits on the
hardware SPI port. Every eight-second watchdog period the node wakes up.
Every fourth or fifth period it fetches the previous measurement, starts
the next one, reads the battery voltage and sends one ten-byte frame in the
LaCrosse "CustomSensor" format. The pass counter is incremented before it
is compared with the interval, and the interval starts at 2, so the first
frame goes out on the third pass. After more than five failed sensor reads in
a row it stops feeding the watchdog, which then resets the device.

The project has six modules:

- `Common`: an `Option` type and the byte/word helpers (`Hi`, `Lo`, `Word`).
- `FrameCodec` (main.c):
  - the frame checksum (CRC-8, polynomial 0x31, start value 0, no final XOR), with `calculatecrc`'s bit-serial loop written as it is;
  - the frame layout `prepareframe` writes, and a receiver's decoding of it;
  - the EEPROM identifier record.
- `Scheduler` (main.c):
  - one pass of the main loop as a specification function `Cycle` over the loop's state;
  - the watchdog wake-up/reset rule and the fail-safe;
  - a class `Node` whose methods change main.c's globals and the frame buffer in place and are proved against `Cycle`.
- `SoftI2c` (sht4x.c, `bbtwi_*`):
  - the clock and data pins as direction and port bits;
  - a decoder, fed after every pin change, that turns the line changes into what a device on the bus sees (START, STOP, clock pulses), following the I2C-bus specification UM10204.
- `Sht4x` (sht4x.c): starting a measurement, the Sensirion word checksum, and reading the six-byte reply.
- `Rfm69` (rfm69.c):
  - the SPI register access of the driver;
  - a model of the radio chip (register file, FIFO, packets on the air, status registers);
  - mode changes, sleep and wake, sending a packet, and the initial register set-up.

Inputs from outside are parameters of the model:
- the levels the sensor puts on the data line (`Bus.incoming`);
- the status values the radio reports (`Chip.irq1`, `Chip.irq2`);
- the sensor reading and the ADC value of a loop pass;
- the two EEPROM bytes.

## Model

| member | source | states |
|---|---|---|
| Common.Word | main.c:87-90 | joining a high and a low byte gives a word whose high and low bytes are those two |
| FrameCodec.Pass | main.c:53-58 | one pass of the inner loop of calculatecrc: the register takes one conditional shift step and the data byte shifts left by one |
| FrameCodec.CrcByte | main.c:51-59 | the bit-serial inner loop produces the byte-wise CRC step (the byte XORed into the register, then eight polynomial shifts) |
| FrameCodec.CalculateCrc | main.c:46-62 | calculatecrc returns the frame checksum of the first `len` bytes of the buffer |
| FrameCodec.ShiftsInjective | main.c:52-59 | the eight shifts map distinct registers to distinct registers |
| FrameCodec.ByteStepInjectiveInData | main.c:50-60 | folding two different bytes into the same register gives different registers |
| FrameCodec.ByteStepInjectiveInRegister | main.c:50-60 | folding the same byte into two different registers gives different registers |
| FrameCodec.ZeroResidue | main.c:46-62 | data followed by its checksum has checksum 0, which is possible because the start value is 0 and there is no final XOR |
| FrameCodec.PrefixCrcsDiffer | main.c:50-60 | two equal-length sequences that differ only in byte k have different checksums on every prefix that includes k |
| FrameCodec.SingleByteErrorDetected | main.c:46-62 | corrupting any bits of any single byte changes the checksum |
| FrameCodec.ExampleRegisters | main.c:50-60 | the register after each byte of the example frame body |
| FrameCodec.ExampleCrc | main.c:92 | the checksum of the example body CC 03 06 F7 12 34 56 78 9A is 0x8B |
| FrameCodec.Encode | main.c:81-93 | a frame is ten bytes whose last byte is the checksum of the nine before it |
| FrameCodec.EncodeFields | main.c:70-92 | a frame is 10 bytes: start byte 0xCC, identifier, length 6, type 0xF7, temperature and humidity high byte first, battery level, then the checksum of the first nine |
| FrameCodec.EncodeLayout | main.c:81-93 | every ten-byte sequence with that layout is the frame `Encode` builds |
| FrameCodec.Decode | main.c:70-79 | a receiver accepts only ten-byte frames whose last byte is the checksum of the first nine |
| FrameCodec.DecodeEncode | main.c:81-93 | every frame prepareframe builds decodes to exactly the identifier, readings and battery level it was built from |
| FrameCodec.ExampleFrame | main.c:81-93 | identifier 3, temperature 0x1234, humidity 0x5678 and battery 0x9A give the frame CC 03 06 F7 12 34 56 78 9A 8B |
| FrameCodec.FrameResidue | main.c:92 | a whole frame has checksum 0 |
| FrameCodec.CorruptedFrameRejected | main.c:81-93 | a frame with any bits of one of its first nine bytes corrupted is rejected by the receiver |
| FrameCodec.StoredId | main.c:97-99 | the EEPROM record holds an identifier exactly when its second byte is the complement of the first, and then it is the first |
| FrameCodec.IdRecord | main.c:97-99 | the record for identifier id is id and its complement |
| FrameCodec.StoredIdRecord | main.c:95-102 | a record written for an identifier is read back as that identifier |
| FrameCodec.LoadedId | main.c:95-102 | loadsettingsfromeeprom takes the stored identifier when the record is consistent and keeps the current one otherwise |
| Scheduler.Inc8 | main.c:168 | `uint8_t` increment: one more, wrapping from 255 to 0 |
| Scheduler.Inc32 | main.c:206 | `uint32_t` increment: one more, wrapping from 2^32-1 to 0 |
| Scheduler.BatteryLevel | main.c:203 | the battery byte is the ADC value shifted right by two when the ADC value is in its 10-bit range |
| Scheduler.NextInterval | main.c:209 | the next interval is 3 or 4, and it is 4 exactly when the lowest ADC bit is set |
| Scheduler.Timeout | main.c:129-131 | a watchdog timeout always leaves its interrupt disabled; it wakes the loop exactly when the interrupt was enabled, and otherwise resets the device |
| Scheduler.SleepTail | main.c:216-222 | the end of a pass sends nothing and changes nothing but whether the device was reset |
| Scheduler.SleepArmed | main.c:216-222 | with the watchdog interrupt enabled the loop sleeps, is woken and enables the interrupt again |
| Scheduler.Boot | main.c:161-163 | the loop starts with interval 2, both counters 0, the watchdog interrupt enabled, and the loop invariant in force |
| Scheduler.QuietCycle | main.c:168-222 | a pass that is not a transmit cycle only counts the period, kicks the watchdog and sleeps |
| Scheduler.TransmitOutcome | main.c:170-211 | a transmit cycle keeps the identifier, and when it sends a frame it restarts the period count and counts one more packet |
| Scheduler.Cycle | main.c:164-223 | a pass that is not due sends nothing and only advances the period count; a pass that sends restarts the count and counts one more packet; no pass changes the identifier |
| Scheduler.QuietPasses | main.c:168-169 | while the period counter has not reached the interval, k passes only advance the counter by k |
| Scheduler.QuietStep | main.c:168-169 | one more pass after m quiet ones, still below the interval, only advances the counter |
| Scheduler.Cadence | main.c:168-169 | from a restarted count, the first `transmitinterval` passes do not transmit and the next one does |
| Scheduler.FirstTransmitOnThirdPass | main.c:161-169 | with the start interval 2, the first two passes after boot do not transmit and the third does |
| Scheduler.TransmitsEveryFourthOrFifthPass | main.c:168-211 | after a pass that sends, the interval is 3 or 4, and the next frame is due on exactly the fourth or fifth pass after it |
| Scheduler.CycleKeepsInv | main.c:161-223 | every pass that does not end in a reset keeps the invariant: interval 2 to 4, period counter at most the interval, at most five failed reads, so no counter wraps |
| Scheduler.ResetExactlyOnSixthFailure | main.c:183-190 | a pass ends in the watchdog reset exactly when it is a transmit cycle whose read fails after five failed reads in a row |
| Scheduler.SendsExactlyWhenDue | main.c:169-206 | a pass sends a frame exactly when it is a transmit cycle that does not end in the fail-safe |
| Scheduler.SentFrameDecodes | main.c:174-205 | the frame sent decodes to the node's identifier, the sensor words (or 0xffff when the read failed) and the battery level |
| Scheduler.TransmitCycle | main.c:170-211 | a pass that sends stores the readings or the sentinel, the battery level, one more packet, the error count (reset or plus one), a new interval from the ADC bit and a zero period count, and makes the driver calls in main.c's order |
| Scheduler.SentOutcome | main.c:170-222 | a pass that sends ends in the state after sending, with the calls of fetching, sending and an armed sleep |
| Scheduler.SentState | main.c:176-211 | the fields of the state after fetching a reading and sending |
| Scheduler.FailSafeCycle | main.c:183-190 | a pass that ends in the reset sends nothing, does not start a measurement, never kicks or re-arms the watchdog, and stores the sentinel |
| Scheduler.TrailingFailuresRun | main.c:178-183 | the last TrailingFailures(h) reads failed, and the one before them succeeded |
| Scheduler.TrailingSnoc | main.c:178-183 | a good read ends the run of failures, and a failed read extends it |
| Scheduler.CountsTrailingFailures | main.c:178-190 | readerrcnt counts the failed reads since the last good one, and the reset comes exactly when that run exceeds five |
| Scheduler.Node.constructor | main.c:119-163 | start-up: the identifier is loaded from EEPROM, the radio is set up and put to sleep, the watchdog is armed, the first measurement is started, and the loop state is `Boot` |
| Scheduler.Node.LoadSettingsFromEeprom | main.c:95-102 | replaces only the identifier, by `LoadedId` |
| Scheduler.Node.WriteFields | main.c:83-91 | writes the nine header and payload bytes into the frame buffer in place |
| Scheduler.Node.PrepareFrame | main.c:81-93 | the frame buffer holds exactly `Encode` of the identifier, readings and battery level |
| Scheduler.Node.WatchdogTimeout | main.c:129-131 | a timeout wakes the loop and disarms the interrupt if it is enabled, and resets the device otherwise |
| Scheduler.Node.SleepForever | main.c:187-189 | the fail-safe loop ends only in the reset |
| Scheduler.Node.SleepUntilWoken | main.c:216-222 | sleep, wake, and enable the interrupt again, or reset when it was not enabled |
| Scheduler.Node.Fetch | main.c:170-191 | wakes the radio, starts the ADC, reads the sensor and stores its words or the sentinel with the error count |
| Scheduler.Node.Send | main.c:192-211 | starts the next measurement, reads the battery, sends the frame of the current state, counts the packet, picks the next interval and puts the radio to sleep |
| Scheduler.Node.TransmitPass | main.c:170-211 | a transmit cycle ends in `TransmitOutcome`: the fail-safe, or a sent frame |
| Scheduler.Node.Step | main.c:164-223 | one pass of the loop changes the state, the frame sent and the driver calls exactly as `Cycle` says, and keeps the invariant while the device runs |
| SoftI2c.PackUnpack | sht4x.c:136-147 | sampling a byte's bits most significant first and shifting them in gives the byte back |
| SoftI2c.TransmittedOctet | sht4x.c:87-124 | a device reads what bbtwi_transmit_byte sends, entered with SDA low, as that byte, acknowledged exactly when the device pulled SDA low |
| SoftI2c.TransmittedOctetPortHigh | sht4x.c:89-105 | entered with the SDA port bit still set, the byte is sent with its top bit forced to 1 |
| SoftI2c.ReceivedOctet | sht4x.c:129-163 | a device reads the nine clocks of bbtwi_read_byte as the sampled byte, acknowledged exactly when `sendack` is set |
| SoftI2c.OctetsAppend | sht4x.c:87-163 | nine-clock byte groups can be read one after the other |
| SoftI2c.Bus.constructor | sht4x.c:39-51 | after sht4x_init both lines are released with their pull-ups on and nothing has been seen on the bus |
| SoftI2c.Bus.Start | sht4x.c:56-66 | bbtwi_start produces a START condition and leaves both lines driven low |
| SoftI2c.Bus.Stop | sht4x.c:71-81 | bbtwi_stop releases both lines, and a device sees a STOP condition only when SDA was driven low on entry |
| SoftI2c.Bus.ClockOut | sht4x.c:90-104 | one pass of the transmit loop: one clock pulse with the bit on SDA, then SDA driven low |
| SoftI2c.Bus.AckIn | sht4x.c:106-123 | the acknowledge clock: SDA released and sampled, and the acknowledge is the line pulled low |
| SoftI2c.Bus.TransmitByte | sht4x.c:87-124 | the eight data clocks, most significant bit first, and the acknowledge clock, returning whether the device acknowledged |
| SoftI2c.Bus.ReleaseSda | sht4x.c:131-135 | SDA released with its pull-up on, and nothing seen on the bus |
| SoftI2c.Bus.ClockIn | sht4x.c:137-146 | one pass of the read loop: one clock pulse, returning the level the device presents on SDA |
| SoftI2c.Bus.ReadSda | sht4x.c:137-146 | the level on SDA: the driven level, or, with SDA released, the next level the device supplies, which it consumes; the bus decoder records the sampled level |
| SoftI2c.Bus.AckOut | sht4x.c:148-161 | the ninth clock with SDA driven low for an acknowledge and high for none, then SDA released |
| SoftI2c.Bus.SampleByte | sht4x.c:136-147 | the read loop returns the eight levels the device presents, packed most significant first |
| SoftI2c.Bus.ReadByte | sht4x.c:129-163 | bbtwi_read_byte returns the byte the device sends, with the eight sample clocks then the acknowledge clock |
| Sht4x.AddressByte | sht4x.c:25-29 | the address byte carries the 7-bit address 0x44 above the read/write bit |
| Sht4x.AddressBytes | sht4x.c:165-207 | the driver writes to 0x88 and reads from 0x89 |
| Sht4x.TruncatedPoly | sht4x.c:182 | XORing 0x131 into the promoted shift and truncating to a byte is XORing 0x31 into the byte shift |
| Sht4x.ShiftByte | sht4x.c:180-186 | one eight-bit loop of sht4x_crc is the eight polynomial shifts of the frame checksum |
| Sht4x.Crc | sht4x.c:175-196 | sht4x_crc is the CRC-8 of the two bytes, with polynomial 0x31 and start value 0xFF |
| Sht4x.WordCrc | sht4x.c:175-196 | the Sensirion checksum, started from 0xFF, is the frame checksum of the word with its high byte inverted |
| Sht4x.InvertedStart | sht4x.c:175-179 | starting the register at 0xFF is the same as inverting the first byte |
| Sht4x.CheckValue | sht4x.c:174-196 | Sensirion's check value: the checksum of 0xBEEF is 0x92 |
| Sht4x.WordCrcDetectsByteError | sht4x.c:175-196 | changing exactly one byte of a word changes its checksum |
| Sht4x.ReadingOfReply | sht4x.c:208-218 | the reply the sensor sends for two words is read as those words, valid |
| Sht4x.ReadingValidIff | sht4x.c:214-218 | a reading is valid exactly when the six bytes are the sensor's reply for the words read |
| Sht4x.Reading | sht4x.c:214-218 | the temperature and humidity words are the first and second byte pair, high byte first, and the reading is valid exactly when both checksums match |
| Sht4x.WordByteError | sht4x.c:214 | a word and its checksum with exactly one of the three bytes changed fail the check |
| Sht4x.CorruptedReadingInvalid | sht4x.c:208-216 | a valid reply with one byte of a word-and-checksum triple changed is read as invalid |
| Sht4x.Received | sht4x.c:208-213 | the bytes paired with their acknowledge flags, one per byte read |
| Sht4x.ReadsCons | sht4x.c:208-213 | one byte read followed by more is the run of all of them |
| Sht4x.ReadsOctets | sht4x.c:208-213 | a device reads the clocks of consecutive byte reads as the bytes read, each acknowledged as requested |
| Sht4x.StartMeas | sht4x.c:165-172 | START, the write address, the measurement command 0xFD, STOP, with the acknowledges ignored |
| Sht4x.CommandOctets | sht4x.c:165-172 | a device reads the measurement command as the bytes 0x88 and 0xFD |
| Sht4x.ReadBytes | sht4x.c:208-213 | consecutive bbtwi_read_byte calls return the bytes the sensor supplies and show their clocks on the bus |
| Sht4x.Store | sht4x.c:214-218 | from the six bytes read: valid exactly when both checksums match, and the two words high byte first |
| Sht4x.ReadReply | sht4x.c:208-219 | the acknowledged part of sht4x_read: the reading of the six bytes the sensor supplies |
| Sht4x.Read | sht4x.c:198-220 | without an acknowledge of the read address: STOP and an invalid reading with the old words; otherwise the reading of the six reply bytes, and as written no STOP on the bus |
| Sht4x.PeeksPrefix | sht4x.c:136-147 | sampling as many levels as were supplied gives them back and leaves what follows |
| Sht4x.ByteOfSupply | sht4x.c:136-147 | one byte read of a byte's levels gives the byte back |
| Sht4x.SupplyCons | sht4x.c:208-213 | a sensor's supply starts with the levels of its first byte |
| Sht4x.InBytesCons | sht4x.c:208-213 | a run of byte reads is one byte read followed by the others |
| Sht4x.FirstByteOfSupply | sht4x.c:208-213 | the first byte read of a sensor's supply is the first byte it sent |
| Sht4x.SupplyStep | sht4x.c:208-213 | if the bytes after the first are read back, then so are all of them |
| Sht4x.InBytesSupply | sht4x.c:208-213 | byte reads of a sensor's supply give back the bytes the sensor sent |
| Sht4x.AckedThen | sht4x.c:204 | a sensor that pulls SDA low acknowledges the read address |
| Sht4x.ReadBackOfReply | sht4x.c:214-218 | six bytes read as the reply for two words give those words, valid |
| Sht4x.ReplyReadBack | sht4x.c:198-220 | a sensor that acknowledges and sends the reply for two words is read as those words, valid |
| Sht4x.ReadOctets | sht4x.c:201-213 | a device reads the request and the reply as 0x89 and the six bytes, all acknowledged but the last |
| Sht4x.ReadsEndOnAck | sht4x.c:148-161 | byte reads end on the clock of the last acknowledge bit |
| Sht4x.AckedReadLeavesBusOpen | sht4x.c:208-219 | as written, an acknowledged sht4x_read does not end with a STOP condition |
| Sht4x.ReadReplyWithStop | sht4x.c:208-219 | the acknowledged part of the read with SDA pulled low before the stop: the same reading, then a STOP |
| Sht4x.ReadWithStop | sht4x.c:198-220 | sht4x_read corrected: the same reading, and the bus always ends with a STOP |
| Rfm69.DecodeAccess | rfm69.c:56-62 | the chip takes a 7-bit address from the high byte of an access |
| Rfm69.ReadCommandDecodes | rfm69.c:56-58 | a read word carries the 7-bit address, no write flag and a zero data byte |
| Rfm69.WriteCommandDecodes | rfm69.c:60-62 | a write word carries the 7-bit address, the write flag 0x80 and the value |
| Rfm69.ReadCommand | rfm69.c:57 | the read word has the 7-bit address in its high byte, the write flag clear and a zero data byte |
| Rfm69.WriteCommand | rfm69.c:61 | the write word has the 7-bit address in its high byte with the write flag set, and the value as its data byte |
| Rfm69.AccessRoundTrip | rfm69.c:56-62 | every write word, and every read word with a zero data byte, is the encoding of its decoding |
| Rfm69.WithMode | rfm69.c:70-95 | selecting a mode replaces bits 4:2 of RegOpMode and keeps the others |
| Rfm69.WithModeTwice | rfm69.c:125-136 | selecting a mode twice is selecting the second one |
| Rfm69.Process | rfm69.c:46-62 | a completed SS-low window keeps the register file at 128 registers |
| Rfm69.Repeat | rfm69.c:127-135 | n copies of the poll access |
| Rfm69.ReadyPollsFirst | rfm69.c:94 | the wait for ModeReady reads up to and including the first value that shows the flag |
| Rfm69.ReadyPollsExhausted | rfm69.c:94 | when the flag never shows among the given values, the wait reads them all and one more |
| Rfm69.SentPollsBounded | rfm69.c:127-135 | the wait for PacketSent reads at least once and never more than its budget |
| Rfm69.SentPollsFirst | rfm69.c:127-135 | within the budget, the wait stops at the first value that shows PacketSent |
| Rfm69.SentPollsGivesUp | rfm69.c:127-135 | without PacketSent within the budget, the wait gives up after exactly the budget |
| Rfm69.SendLogParts | rfm69.c:112-137 | the windows of sendarray are the length write, the FIFO clear, the burst, the mode change, the polls and the change back |
| Rfm69.ReadLeavesChip | rfm69.c:56-58 | reading any register other than the two status registers changes nothing in the chip |
| Rfm69.StatusReads | rfm69.c:56-58 | a status register read returns the next status value and consumes it |
| Rfm69.WriteStores | rfm69.c:60-62 | a write to an ordinary register stores the value there and changes nothing else |
| Rfm69.ClearFifoEmpties | rfm69.c:64-68 | the FIFO-clearing write empties the FIFO and changes nothing else |
| Rfm69.FifoBurstAppends | rfm69.c:116-123 | a burst write to RegFifo appends the data bytes to the FIFO in order |
| Rfm69.TransmitSendsFifo | rfm69.c:70-78 | entering transmit mode sends the FIFO as one packet and empties it |
| Rfm69.IdleModeStores | rfm69.c:70-85 | entering standby or sleep only changes RegOpMode |
| Rfm69.RoundDivNearest | rfm69.c:202-214 | the rounding division is off by at most half the divisor |
| Rfm69.SetupConstants | rfm69.c:29-31 | 868.3 MHz is 0xD91333 frequency steps and 17241 baud is 0x0740 crystal cycles per bit |
| Rfm69.InitLogParts | rfm69.c:152-219 | the windows of initchip are its groups of register writes in order |
| Rfm69.InitImageSettings | rfm69.c:152-219 | after set-up the chip is in standby, RegFrf holds the carrier frequency and RegBitrate the bit rate, most significant byte first, and RegPayloadLength is non-zero |
| Rfm69.Radio.constructor | rfm69.c:139-150 | after initport SS is high and the SPI port is master with SPI2X off |
| Rfm69.Radio.Select | rfm69.c:47 | SS low opens a window |
| Rfm69.Radio.Deselect | rfm69.c:50 | SS high makes the chip act on the window, which joins the log |
| Rfm69.Radio.Spi8 | rfm69.c:38-44 | one byte shifted out inside the window, returning the chip's reply |
| Rfm69.Radio.Spi16 | rfm69.c:46-53 | two bytes in one window, high byte first, returning the chip's two replies as a word |
| Rfm69.Radio.ReadReg | rfm69.c:56-58 | returns the chip's value of register `reg & 0x7f` |
| Rfm69.Radio.WriteReg | rfm69.c:60-62 | one write window, which the chip acts on |
| Rfm69.Radio.ClearFifo | rfm69.c:64-68 | one write of the FifoOverrun bit into RegIrqFlags2, and the FIFO is empty |
| Rfm69.Radio.ChangeMode | rfm69.c:70-95 | read-modify-write of RegOpMode that selects the mode |
| Rfm69.Radio.SetTransmitter | rfm69.c:70-78 | transmit mode when enabled and standby otherwise |
| Rfm69.Radio.SetSleep | rfm69.c:80-96 | sleep: sleep mode, then the SPI and USART0 clocks gated; wake: clocks on, SPI configured again, standby, then polling until ModeReady |
| Rfm69.Radio.WaitModeReady | rfm69.c:94 | reads RegIrqFlags1 until ModeReady shows |
| Rfm69.Radio.FillFifo | rfm69.c:116-123 | one burst window with the RegFifo write address and the first `length` bytes |
| Rfm69.Radio.WaitPacketSent | rfm69.c:127-135 | reads RegIrqFlags2 until PacketSent shows or 10000 reads are used up |
| Rfm69.Radio.SendArray | rfm69.c:112-137 | the first `length` bytes go on the air as one packet, RegPayloadLength is `length`, and the chip ends in standby whether or not PacketSent showed |
| Rfm69.Radio.InitModem | rfm69.c:153-171 | the first group of set-up writes |
| Rfm69.Radio.InitSync | rfm69.c:175-184 | the second group of set-up writes |
| Rfm69.Radio.InitPacket | rfm69.c:185-196 | the third group of set-up writes, with 0x0c written to RegPayloadLength |
| Rfm69.Radio.InitCarrier | rfm69.c:197-216 | the frequency and bit-rate registers, most significant byte first |
| Rfm69.Radio.InitChip | rfm69.c:152-219 | initchip's fixed sequence of register writes, leaving the register image `InitImage` and an empty FIFO |

## Left out

- adc.c (adc_init, adc_power, adc_start, adc_read) is not part of this model. The ADC value is a parameter of a loop pass. The ADC calls (adc_init at start-up, adc_power and adc_start in a transmitting pass) only appear as effects in the trace, and the value adc_read returns is that parameter.
- eepromflasher.c is not part of this model. The EEPROM reads are the two bytes passed to `Node.constructor` and `Node.LoadSettingsFromEeprom`.
- Delays (`_delay_ms`, `_delay_loop_1`), the clock prescaler, the timer, TWI and analog-comparator power bits, the digital-input disables, the IRQ pin and the LED are not modelled: they carry no logic.
- The sleep mode set-up, `sei` and the ISR body are reduced to the watchdog rule: a timeout with the interrupt enabled wakes the loop and disables the interrupt, and a timeout with it disabled resets the device. Interrupt timing is not modelled.
- `Node.constructor` records the start-up calls of main.c:119-163 as effects (rfm69_initport, adc_init, sht4x_init, rfm69_initchip, rfm69_setsleep, the watchdog set-up, the first sht4x_startmeas). It does not run the `Radio` and `Bus` objects, so what rfm69_initport and sht4x_init do to the port pins is only proved on those classes (`Radio.constructor`, `Bus.constructor`), as are the other drivers.
- rfm69_readstatus, rfm69_waitforrts and rfm69_sendbyte are never called by the firmware and are not modelled.
- The SPI busy-wait on SPIF is not modelled. A transfer completes at once once the port is clocked and configured (`Radio.SpiReady`).
- The radio's MISO byte during the address byte is modelled as 0, because the firmware ignores it.
- In a burst write only writes to RegFifo use more than the first data byte, because the firmware bursts nothing else.
- The packet on the air is what the FIFO holds when transmit mode is entered. The chip model does not enforce RegPayloadLength, and it does not model the air time.
- RegIrqFlags1 and RegIrqFlags2 come from oracle sequences. Once an oracle is exhausted the chip reports the awaited flag, so the wait for ModeReady terminates. The real chip gives no such promise.
- The floating-point `round` of rfm69.c:202 and rfm69.c:214 is written as the integer rounding division `RoundDiv`. Its results are proved against the register constants.
- `Radio.InitCarrier`: `freq >> 16` and `freq >> 8` are written as divisions by 0x10000 and 0x100. They are the same on an unsigned word.
- `Radio.WaitPacketSent` counts `maxreps` as an unbounded integer that starts at 10000. That value fits the source's `uint16_t`.
- The comment at rfm69.c:187-191 says 0 is written to RegPayloadLength, but rfm69.c:192 writes 0x0c. The model follows the code.
- The comment of bbtwi_transmit_byte says SDA may be driven either way on entry. The code only ever sets 1-bits, so the byte arrives right only when SDA starts low (`TransmittedOctetPortHigh` shows the other case). Every caller enters with SDA low.
- Clock stretching and bus arbitration are not modelled. The sensor only supplies data-line levels.
- The sensor's measurement timing is not modelled. Whether it acknowledges the read address is the first level it supplies.

## Findings

| source | as written | input that shows it | evidently intended | confidence | as-written member | corrected member |
|---|---|---|---|---|---|---|
| sht4x.c:213-219 with sht4x.c:71-81 | after the last `bbtwi_read_byte(0)` SDA is released, so `bbtwi_stop` raises SCL and then sets a port bit that is already set: the data line never rises while SCL is high, and no STOP condition appears on the bus | any read the sensor acknowledges, for example a sensor that supplies the level 0 and then `Supply(Reply(temp, hum))` | every transaction of sht4x_read ends with a STOP condition (section 3.1.4 of UM10204) | medium, not executed | Sht4x.Read, Sht4x.AckedReadLeavesBusOpen | Sht4x.ReadWithStop, Sht4x.ReadReplyWithStop |
