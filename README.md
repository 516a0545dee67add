# SHT11 two-wire driver, modelled in Dafny

This project models the bit-banged driver for the Sensirion SHT11
humidity/temperature sensor in `main.c`, an AVR program. The driver emulates
two open-drain lines, SCK and DATA, by toggling bits DDD2 and DDD3 of the
port D direction register DDRD:

- a set bit drives the line low;
- a cleared bit releases it to the pull-up, or to the sensor.

The driver reads DATA through bit 3 of PIND. On top of the four line macros
it builds:

- the transmission start;
- an MSB-first byte shift-out;
- an MSB-first shift-in with an ACK/NAK trailer;
- a command with an acknowledge read and a bounded completion poll;
- a nine-pulse bus reset;
- the main loop's measurement sequence (temperature, then humidity, each a
  16-bit count from a high and a low byte, the checksum discarded, and a
  reset that abandons the pass on error).

The model has three modules:

- `Bits` (bits.dfy): the direction register and the four macros on it; the
  MSB-first order of bits on the wire (`BitsOf`, and `ByteOf` for the
  `ret |= i` assembly); the 16-bit count.
- `Waveform` (waveform.dfy): every driver operation as the trace of events it
  emits. An event is SCK set, DATA set, one PIND read or one
  one-millisecond delay. The module also gives the results the driver
  computes from the levels the sensor presents. A passive bus monitor (`Watch`)
  folds a trace into the DATA setting of the driver (released or driven low)
  at each rising SCK edge, the levels read, the number of delays and the
  final line settings. The lemmas state each operation's waveform in those
  terms. Where the order of events matters beyond what the monitor keeps
  (each read taken while SCK is high), lemmas state the positions of the
  events in the trace.
- `Driver` (driver.dfy): class `Sht11`, the driver as the AVR runs it. It holds
  the two direction bits (the other six DDRD bits are a constant), the trace
  so far, the sensor's script of DATA levels and the number of PIND reads
  made. Every C function is a method with the same loops and branches. Each
  method is proved to append exactly the trace of its `Waveform` counterpart
  and to return the value `Waveform` defines.

The sensor is a script `input: seq<bool>`: read k of PIND sees `input[k]`,
or high (the pull-up) once the script has run out. While the driver itself
pulls DATA low, a read sees low (wired AND).

## Model

| member | source | states |
|---|---|---|
| Bits.Register | main.c:9-16 | DDRD with SCK and DATA driven or released: bit DDD2 set iff SCK is driven, DDD3 set iff DATA is driven, the other six bits as given |
| Bits.RegisterOfAny | main.c:9-16 | every DDRD value is described by its two pin bits and its other six bits |
| Bits.LineMacros | main.c:12-16 | SCK_LO sets bit 2, SCK_HI clears it, DATA_LO sets bit 3, DATA_HI clears it; each leaves every other direction bit unchanged |
| Bits.MaskStep | main.c:144-146 | mask 0x80 >> n selects wire bit n (bit 7-n) of the byte and is non-zero; halving it gives the next mask, and 0 after the eighth bit, so the loops run exactly eight times |
| Bits.BitsOf | main.c:144-153 | a byte on the wire is eight bits, bit k being bit 7-k of the byte (MSB first) |
| Bits.ByteOfWireBits | main.c:198-204 | the byte assembled by ByteOf has bit 7-k set iff sample k was high, and no bit for samples not yet taken |
| Bits.BitsOfByteOf | main.c:198-204 | unpacking the byte assembled from eight samples gives back the samples |
| Bits.BitsOfInjective | main.c:144-153 | two bytes with the same eight wire bits are equal |
| Bits.ByteOfBitsOf | main.c:144-153 | assembling the bits of a byte as shifted out MSB first gives back the byte |
| Bits.CombineValue | main.c:63-64 | the count is high byte * 256 + low byte |
| Bits.Combine | main.c:63-64 | the 16-bit count built from the high byte shifted left by 8 and or-ed with the low byte: its high byte is hi and its low byte is lo (CombineValue gives its value) |
| Bits.ByteOf | main.c:195-204 | the byte assembled by or-ing the mask of each high read into `ret`, read k landing on mask 0x80 >> k; its properties are in ByteOfWireBits and BitsOfByteOf |
| Waveform.Code | main.c:18-22 | the wire codes of the two commands, 0x03 for temperature and 0x05 for humidity; the three address bits are 000 |
| Waveform.CodeBits | main.c:18-22 | on the wire, MSB first, each code is the address 000 then 00011 (temperature) or 00101 (humidity); the two codes differ |
| Waveform.StartCondition | main.c:121-139 | from any line levels, the start sequence gives exactly two rising SCK edges, with DATA high then low, and ends with SCK low and DATA high |
| Waveform.StartFall | main.c:123-128 | both lines are high after the third step, then DATA falls while SCK stays high |
| Waveform.StartRise | main.c:130-138 | from SCK high and DATA low: SCK rises again with DATA still low, then DATA rises while SCK is high, and SCK ends low |
| Waveform.ShiftOutAt | main.c:144-158 | bit k is put on DATA before the k-th SCK rise, which is followed by SCK low |
| Waveform.SendWaveform | main.c:141-161 | sht11_send from SCK low gives exactly eight rising edges, with DATA equal to bit 7-k at edge k, and ends with SCK low and DATA released |
| Waveform.Loopback | main.c:144-159 | a receiver that latches DATA at each rising SCK edge of sht11_send(b) sees eight bits, and assembling them MSB first gives b |
| Waveform.ShiftInWatch | main.c:198-206 | the receive loop performs one read per SCK rise, with DATA left released |
| Waveform.ShiftInAt | main.c:200-205 | read k of the receive loop comes right after the k-th rise of SCK and before SCK falls: it is taken while SCK is high |
| Waveform.RecvReadAt | main.c:197-205 | in the whole sht11_recv trace, each data read lies between an SCK rise and the next SCK fall |
| Waveform.RecvBitStep | main.c:200-205 | one receive pass: setting the mask bit exactly when the read is high turns the byte of n reads into the byte of n + 1 reads |
| Waveform.RecvWaveform | main.c:193-224 | sht11_recv: exactly eight reads, DATA released at their edges; at the ninth rise DATA is low iff ACK is sent; ends with SCK low and DATA released |
| Waveform.ResetPulsesWatch | main.c:232-236 | n pulses give n rising edges with DATA unchanged |
| Waveform.ResetWaveform | main.c:226-238 | sht11_reset releases DATA, lowers SCK, gives nine rising edges with DATA released, then the start condition, and ends with SCK low and DATA released |
| Waveform.WaitSamples | main.c:178-185 | the poll makes between 1 and 2000 reads, and it stops early only at a low read |
| Waveform.WaitSamplesHigh | main.c:178-185 | every poll read but the last one is high |
| Waveform.WaitAfterHighRun | main.c:178-185 | after i high reads the poll continues as a poll with i fewer iterations |
| Waveform.WaitTicks | main.c:178-185 | the number of `_delay_ms(1)` calls of the poll: one per high read (WaitWatch, WaitForReady and CommandTimeout state its values) |
| Waveform.WaitWatch | main.c:178-185 | the poll reads exactly the levels up to the first low one (at most 2000), delays once per high read, and does not touch the lines |
| Waveform.WaitForReady | main.c:178-185 | a sensor that keeps DATA high for h < 2000 reads, then pulls it low, ends the poll after h + 1 reads and h delays |
| Waveform.CommandEnd | main.c:164-191 | sht11_send_cmd makes between 3 and 2002 reads |
| Waveform.CommandError | main.c:166-190 | the value sht11_send_cmd returns, from the ACK read and the read after the poll; CommandErrorCases states its three outcomes |
| Waveform.CommandErrorCases | main.c:173-190 | the result is 0 iff the ACK read and the read after the poll are both low, 1 iff the read after the poll is high, and 0x08 iff only the ACK read is high |
| Waveform.CommandHeadWaveform | main.c:169-175 | start condition, the eight code bits MSB first, then one more rise with DATA released and one ACK read |
| Waveform.CommandAckAt | main.c:173-175 | the ACK read comes right after the SCK rise that follows the command byte and before SCK falls: it is taken while SCK is high |
| Waveform.CommandWaveform | main.c:164-191 | sht11_send_cmd from any line levels: the start edges, the code bits, the ACK edge, the ACK read, the poll reads, the final read and one delay per high poll read; ends with SCK low and DATA released |
| Waveform.CommandTimeout | main.c:178-190 | a sensor that never pulls DATA low after the ACK read costs exactly 2000 poll reads and 2000 delays, and the command returns 1 |
| Waveform.CommandReady | main.c:169-190 | ACK low, h < 2000 high polls, then low twice: no error, h + 3 reads, h delays |
| Waveform.ReadResult | main.c:63-65 | the count from the first two of the three bytes read after a successful command; the checksum reads do not enter it (ChecksumIgnored) |
| Waveform.Measure | main.c:57-65 | one measurement's count, or None when sht11_send_cmd returned non-zero; MeasureFail, MeasureOk and MeasureReady state its cases |
| Waveform.MeasureEnd | main.c:57-65 | the number of reads after one measurement: the command's reads, plus 24 on success (MeasureFail, MeasureOk) |
| Waveform.MeasureFail | main.c:57-62 | a failed command yields no count, makes no further read and is followed by the reset |
| Waveform.MeasureOk | main.c:63-65 | a successful command is followed by three byte receptions; the count is built from the first two, after 24 further reads |
| Waveform.ResultWaveform | main.c:63-65 | the three receptions make 24 reads; DATA is low at the 9th and 18th rises (ACK) and high at the 27th (NAK after the checksum); they end with SCK low and DATA released |
| Waveform.MeasureFailWaveform | main.c:57-62 | after a failed command the reset adds no read and no delay, and the lines end idle |
| Waveform.MeasureOkWaveform | main.c:63-65 | after a successful command exactly 24 more reads follow, with no delay, and the lines end idle |
| Waveform.MeasureWaveform | main.c:57-65 | one measurement reads exactly the command's reads and, on success, 24 more; it ends with SCK low and DATA released |
| Waveform.WaitSamplesAgree | main.c:178-185 | the poll length depends only on the levels the poll reads |
| Waveform.ChecksumIgnored | main.c:63-65 | two sensors that differ only in the checksum byte give the same measurement |
| Waveform.MeasureReady | main.c:57-65 | ACK low, h < 2000 high polls, then low twice, then bytes hi and lo: the count is hi * 256 + lo, after h + 27 reads |
| Waveform.TemperatureScenario | main.c:57-65 | temperature command acknowledged at once, completion after 50 polls, bytes 0x21 0x34 0x00: count 8500, 77 reads, 50 delays |
| Waveform.CycleOutcome | main.c:57-75 | one pass of the main loop: both counts, or None when either command fails; CycleReports states when it reports and what |
| Waveform.CycleReports | main.c:57-75 | a pass reports a reading iff both commands succeed, with each count read after its own command; a failed temperature command is followed only by the reset |
| Driver.Sht11.constructor | main.c:9-16 | the driver starts from any DDRD value, with an empty trace and no read made |
| Driver.Sht11.SckLo | main.c:12 | SCK driven low, DATA untouched, one event recorded |
| Driver.Sht11.SckHi | main.c:13 | SCK released, DATA untouched, one event recorded |
| Driver.Sht11.DataLo | main.c:15 | DATA driven low, SCK untouched, one event recorded |
| Driver.Sht11.DataHi | main.c:16 | DATA released, SCK untouched, one event recorded |
| Driver.Sht11.ReadData | main.c:174 | PIND bit 3 is 0x08 when the sensor leaves DATA high and the driver has released it, and 0 otherwise; exactly one read is made |
| Driver.Sht11.Delay | main.c:184 | one delay is recorded and nothing else changes |
| Driver.Sht11.TransStart | main.c:121-139 | appends the start-condition trace (see StartCondition), makes no read, ends idle |
| Driver.Sht11.Send | main.c:141-161 | appends the sht11_send trace of the byte (see SendWaveform), makes no read, ends idle; the loop invariant ties the mask to the bit being sent |
| Driver.Sht11.Recv | main.c:193-224 | returns the byte assembled MSB first from the next eight reads, makes exactly eight reads, appends the sht11_recv trace with ACK iff ack is non-zero, ends idle |
| Driver.Sht11.SendCmd | main.c:164-191 | returns CommandError of the reads (see CommandErrorCases), makes exactly the command's reads, appends the command's trace, ends idle |
| Driver.Sht11.AwaitCompletion | main.c:178-185 | the poll makes exactly WaitSamples reads and appends the poll trace: one delay after each high read, stopping at the first low read or after 2000 reads |
| Driver.Sht11.Reset | main.c:226-238 | appends the sht11_reset trace (see ResetWaveform), makes no read, ends idle |
| Driver.Sht11.RecvResult | main.c:63-65 | returns the count of the next two bytes, makes 24 reads (checksum included), appends the three receptions, ends idle |
| Driver.Sht11.MeasureOnce | main.c:57-65 | returns the count, or None on a command error; reads and trace as Measure, MeasureEnd and MeasureTrace say; ends idle |
| Driver.Sht11.Cycle | main.c:57-75 | one pass of the main loop returns both counts, or None as soon as a command fails (see CycleReports); ends idle |

## Left out

- UART set-up and character I/O (`uart_init`, `uart_putchar`, `uart_getchar`, main.c:90-119) and the stdio streams (main.c:43-47): serial plumbing that does not touch the sensor lines.
- `calc_temp`, `calc_humidity` (main.c:241-250) and the `printf` of main.c:79: floating-point conversion of the counts; the model stops at the raw 16-bit counts.
- The LED on PORTB (main.c:40, 55, 81): not part of the sensor protocol.
- `NOP()` and the durations of `_delay_ms`: timing is not modelled. Each `_delay_ms(1)` of the completion poll is one `Tick` event. The delays of main.c:49 and main.c:86 lie outside one pass and are left out.
- The endless `while(1)` of main.c:53-87: the model covers one pass (`Cycle`), and `continue` ends that pass.
- Electrical behaviour and the sensor's own logic: the sensor is a fixed script of DATA levels that does not react to the commands sent.
- Driver.Sht11.SckLo: states the new pin flags; the change of DDRD as a whole is proved once, in Bits.LineMacros, for the register the flags describe (`Ddrd()`).
- Driver.Sht11.SckHi: likewise, see Bits.LineMacros.
- Driver.Sht11.DataLo: likewise, see Bits.LineMacros.
- Driver.Sht11.DataHi: likewise, see Bits.LineMacros.
- Driver.Sht11.AwaitCompletion, Driver.Sht11.RecvResult and Driver.Sht11.MeasureOnce are not C functions: they are the poll loop of `sht11_send_cmd`, the three `sht11_recv` calls, and one half of the main loop body, made into methods of their own.
- `int i` of `sht11_send` and `unsigned char i` of `sht11_recv` are modelled as a `bv8` mask. The mask only takes the values 0x80 down to 0, so the width makes no difference.
- Bits.Combine: `sht11_recv(1) << 8` (main.c:63, 73) is evaluated in the AVR's 16-bit signed `int`. For a high byte of 0x80 or more the shift overflows `int`, which ISO C leaves undefined. The model takes the two's-complement bit pattern that avr-gcc produces, stored in the 16-bit `unsigned int`.

The completion check follows the code: after the poll, `sht11_send_cmd` makes one more read, and the result is 1 exactly when that read is high. This holds however the poll ended, so a poll that runs out but is followed by a low read reports no timeout. A poll that stops at a low read but is followed by a high read reports 1. The ACK failure alone returns the raw pin value 0x08, not a separate flag.
