/**
 * The SHT11 driver as the AVR runs it: the direction register DDRD is the
 * only state it changes, PIND is read for the DATA level, and every
 * register access is recorded in a trace. The methods are proved against
 * the traces and results of module Waveform.
 */
module Driver {
  import opened Bits
  import opened Waveform

  class Sht11 {
    /** The DDRD bits of the pins other than SCK and DATA, which the driver never changes. */
    const others: bv8
    /** DDRD bit DDD2: SCK is driven low (SCK_LO) rather than released (SCK_HI). */
    var sckDriven: bool
    /** DDRD bit DDD3: DATA is driven low (DATA_LO) rather than released (DATA_HI). */
    var dataDriven: bool
    /** Everything the driver has done to the lines so far. */
    var trace: seq<Event>
    /** The level the sensor leaves on DATA at each read of PIND. */
    const input: seq<bool>
    /** Number of PIND reads so far. */
    var cursor: nat

    constructor (ddrd: bv8, script: seq<bool>)
      ensures Ddrd() == ddrd && trace == [] && input == script && cursor == 0
    {
      others := ddrd & OtherPins;
      sckDriven := IsDriven(ddrd, SckBit);
      dataDriven := IsDriven(ddrd, DataBit);
      trace := [];
      input := script;
      cursor := 0;
      RegisterOfAny(ddrd);
    }

    /** The value of the direction register DDRD. */
    function Ddrd(): bv8
      reads this
    {
      Register(others, sckDriven, dataDriven)
    }

    /** Between transfers: SCK driven low and DATA released to the pull-up. */
    predicate Idle()
      reads this
    {
      sckDriven && !dataDriven
    }

    /** SCK_LO(): sets DDD2 (see Bits.LineMacros). */
    method SckLo()
      modifies this
      ensures sckDriven && dataDriven == old(dataDriven)
      ensures trace == old(trace) + [Clock(false)] && cursor == old(cursor)
    {
      sckDriven := true;
      trace := trace + [Clock(false)];
    }

    /** SCK_HI(): clears DDD2. */
    method SckHi()
      modifies this
      ensures !sckDriven && dataDriven == old(dataDriven)
      ensures trace == old(trace) + [Clock(true)] && cursor == old(cursor)
    {
      sckDriven := false;
      trace := trace + [Clock(true)];
    }

    /** DATA_LO(): sets DDD3. */
    method DataLo()
      modifies this
      ensures dataDriven && sckDriven == old(sckDriven)
      ensures trace == old(trace) + [Data(false)] && cursor == old(cursor)
    {
      dataDriven := true;
      trace := trace + [Data(false)];
    }

    /** DATA_HI(): clears DDD3. */
    method DataHi()
      modifies this
      ensures !dataDriven && sckDriven == old(sckDriven)
      ensures trace == old(trace) + [Data(true)] && cursor == old(cursor)
    {
      dataDriven := false;
      trace := trace + [Data(true)];
    }

    /**
     * `PIND & (1 << PIND3)`: 0x08 when DATA is high, 0 when it is low. The
     * line is low whenever the driver itself pulls it low (wired AND).
     */
    method ReadData() returns (v: Byte)
      modifies this
      ensures !dataDriven ==> v == if Level(input, old(cursor)) then DataHigh else 0
      ensures !dataDriven ==> trace == old(trace) + [Sample(Level(input, old(cursor)))]
      ensures dataDriven ==> v == 0 && trace == old(trace) + [Sample(false)]
      ensures sckDriven == old(sckDriven) && dataDriven == old(dataDriven) && cursor == old(cursor) + 1
    {
      var high := !dataDriven && Level(input, cursor);
      v := if high then DataHigh else 0;
      cursor := cursor + 1;
      trace := trace + [Sample(high)];
    }

    /** `_delay_ms(1)`. */
    method Delay()
      modifies this
      ensures sckDriven == old(sckDriven) && dataDriven == old(dataDriven)
      ensures cursor == old(cursor) && trace == old(trace) + [Tick]
    {
      trace := trace + [Tick];
    }

    /** sht11_trans_start: the transmission-start sequence, ending idle. */
    method TransStart()
      modifies this
      ensures trace == old(trace) + StartTrace && cursor == old(cursor) && Idle()
    {
      ghost var t0 := trace;
      SckLo();
      DataHi();
      SckHi();
      DataLo();
      SckLo();
      SckHi();
      DataHi();
      SckLo();
      assert trace == t0 + StartTrace;
    }

    /**
     * sht11_send: the byte MSB first, each bit put on DATA before an SCK
     * pulse, then DATA released.
     */
    method Send(b: bv8)
      modifies this
      ensures trace == old(trace) + SendTrace(b) && cursor == old(cursor) && Idle()
    {
      ghost var t0 := trace;
      ghost var bits := BitsOf(b);
      var mask: bv8 := 0x80;
      ghost var n: nat := 0;
      while mask > 0
        invariant n <= 8 && mask == (if n < 8 then Mask(n) else 0)
        invariant trace == t0 + ShiftOut(bits[..n]) && cursor == old(cursor)
        invariant n > 0 ==> sckDriven
        decreases 8 - n
      {
        MaskStep(b, n);
        if b & mask != 0 {
          DataHi();
        } else {
          DataLo();
        }
        SckHi();
        SckLo();
        ShiftOutStep(t0, bits, n, n + 1);
        mask := mask / 2;
        n := n + 1;
      }
      DataHi();
      SendTraceSteps(t0, b);
    }

    /**
     * sht11_recv: DATA released, eight reads each while SCK is high, the
     * sampled bits assembled MSB first, then the acknowledge bit (DATA low
     * when `ack` is non-zero) clocked out and DATA released.
     */
    method Recv(ack: Byte) returns (ret: bv8)
      modifies this
      ensures ret == ByteOf(Window(input, old(cursor), 8))
      ensures cursor == old(cursor) + 8
      ensures trace == old(trace) + RecvTrace(Window(input, old(cursor), 8), ack != 0)
      ensures Idle()
    {
      ghost var t, c0 := trace, cursor;
      ret := 0;
      DataHi();
      ghost var t0 := trace;
      var mask: bv8 := 0x80;
      ghost var n: nat := 0;
      while mask > 0
        invariant n <= 8 && mask == (if n < 8 then Mask(n) else 0)
        invariant cursor == c0 + n && !dataDriven
        invariant ret == ByteOf(Window(input, c0, n))
        invariant trace == t0 + ShiftIn(Window(input, c0, n))
        decreases 8 - n
      {
        ShiftInStep(t0, input, c0, n, n + 1);
        SckHi();
        var v := ReadData();
        RecvBitStep(ret, mask, v != 0, input, c0, n);
        if v != 0 {
          ret := ret | mask;
        }
        SckLo();
        mask := mask / 2;
        n := n + 1;
      }
      ghost var bits := Window(input, c0, 8);
      if ack != 0 {
        DataLo();
      } else {
        DataHi();
      }
      SckHi();
      SckLo();
      DataHi();
      RecvTraceSteps(t, bits, ack != 0);
    }

    /**
     * sht11_send_cmd: start, command code, one SCK pulse reading the ACK,
     * the completion wait, and a last read. The result is the ACK read (0x08
     * if high), overwritten with 1 when the last read is high.
     */
    method SendCmd(cmd: Command) returns (error: Byte)
      modifies this
      ensures error == CommandError(input, old(cursor))
      ensures cursor == CommandEnd(input, old(cursor))
      ensures trace == old(trace) + CommandTrace(input, old(cursor), cmd)
      ensures Idle()
    {
      ghost var c, t0 := cursor, trace;
      TransStart();
      Send(Code(cmd));
      SckHi();
      error := ReadData();
      SckLo();
      ghost var t1 := trace;
      assert t1 == t0 + StartTrace + SendTrace(Code(cmd)) + [Clock(true)] + [Sample(Level(input, c))] + [Clock(false)];
      assert cursor == c + 1;
      AwaitCompletion();
      ghost var w := WaitSamples(input, c + 1, PollLimit);
      assert trace == t1 + WaitTrace(input, c + 1, PollLimit) && cursor == c + 1 + w;
      var v := ReadData();
      CommandTraceSteps(t0, input, c, cmd);
      CommandErrorOf(input, c, error, v);
      if v != 0 {
        error := 1;
      }
    }

    /**
     * The completion wait of sht11_send_cmd: up to PollLimit reads, a
     * one-millisecond delay after each high one, leaving the loop at the
     * first low one.
     */
    method AwaitCompletion()
      requires !dataDriven
      modifies this
      ensures trace == old(trace) + WaitTrace(input, old(cursor), PollLimit)
      ensures cursor == old(cursor) + WaitSamples(input, old(cursor), PollLimit)
      ensures sckDriven == old(sckDriven) && dataDriven == old(dataDriven)
    {
      ghost var c, t0 := cursor, trace;
      var i: nat := 0;
      while i < PollLimit
        invariant i <= PollLimit && cursor == c + i && trace == t0 + Polls(i) && HighRun(input, c, i)
        invariant sckDriven == old(sckDriven) && dataDriven == old(dataDriven)
      {
        var v := ReadData();
        if v == 0 {
          WaitExit(t0, input, c, PollLimit, i);
          return;
        }
        Delay();
        PollStep(t0, i);
        i := i + 1;
      }
      WaitFull(t0, input, c, PollLimit);
    }

    /**
     * sht11_reset: DATA released, SCK low, nine SCK pulses, and a new
     * transmission start.
     */
    method Reset()
      modifies this
      ensures trace == old(trace) + ResetTrace() && cursor == old(cursor) && Idle()
    {
      ghost var t := trace;
      DataHi();
      SckLo();
      ghost var t0 := trace;
      var i := 0;
      while i < ResetPulseCount
        invariant i <= ResetPulseCount && trace == t0 + ResetPulses(i) && cursor == old(cursor)
      {
        SckHi();
        SckLo();
        JoinTraces(t0, ResetPulses(i), [Clock(true), Clock(false)]);
        i := i + 1;
      }
      TransStart();
      JoinTraces(t, [Data(true), Clock(false)], ResetPulses(ResetPulseCount));
      JoinTraces(t, [Data(true), Clock(false)] + ResetPulses(ResetPulseCount), StartTrace);
    }

    /**
     * One measurement of the main loop: the command, then on error a bus
     * reset and no value, otherwise the high byte, the low byte (both
     * acknowledged) and the checksum (not acknowledged, not used).
     */
    method MeasureOnce(cmd: Command) returns (r: Option<bv16>)
      modifies this
      ensures r == Measure(input, old(cursor))
      ensures cursor == MeasureEnd(input, old(cursor))
      ensures trace == old(trace) + MeasureTrace(input, old(cursor), cmd)
      ensures Idle()
    {
      ghost var c, t0 := cursor, trace;
      var error := SendCmd(cmd);
      if error != 0 {
        Reset();
        JoinTraces(t0, CommandTrace(input, c, cmd), ResetTrace());
        MeasureFail(input, c, cmd);
        return None;
      }
      var count := RecvResult();
      r := Some(count);
      JoinTraces(t0, CommandTrace(input, c, cmd), ResultTrace(input, CommandEnd(input, c)));
      MeasureOk(input, c, cmd);
    }

    /**
     * The three receptions of the main loop after a successful command: the
     * high byte and the low byte, both acknowledged, and the checksum, not
     * acknowledged and not used; the count is the two bytes combined.
     */
    method RecvResult() returns (count: bv16)
      modifies this
      ensures count == ReadResult(input, old(cursor))
      ensures cursor == old(cursor) + 24
      ensures trace == old(trace) + ResultTrace(input, old(cursor))
      ensures Idle()
    {
      ghost var e, t := cursor, trace;
      var hi := Recv(1);
      var lo := Recv(1);
      var _ := Recv(0);
      count := Combine(hi, lo);
      AppendResult(t, RecvTrace(Window(input, e, 8), true),
        RecvTrace(Window(input, e + 8, 8), true), RecvTrace(Window(input, e + 16, 8), false));
    }

    /**
     * One pass of the main loop: temperature, then humidity; a failure of
     * either command abandons the pass.
     */
    method Cycle() returns (r: Option<Reading>)
      modifies this
      ensures r == CycleOutcome(input, old(cursor))
      ensures cursor == CycleEnd(input, old(cursor))
      ensures trace == old(trace) + CycleTrace(input, old(cursor))
      ensures Idle()
    {
      ghost var c, t0 := cursor, trace;
      var temp := MeasureOnce(MeasureTemp);
      if temp.None? {
        assert trace == t0 + CycleTrace(input, c);
        return None;
      }
      ghost var e := cursor;
      var humid := MeasureOnce(MeasureHumidity);
      JoinTraces(t0, MeasureTrace(input, c, MeasureTemp), MeasureTrace(input, e, MeasureHumidity));
      assert CycleTrace(input, c) == MeasureTrace(input, c, MeasureTemp) + MeasureTrace(input, e, MeasureHumidity);
      if humid.None? {
        return None;
      }
      r := Some(Reading(temp.value, humid.value));
    }
  }

}
