/**
 * The signals the SHT11 driver puts on its two lines, as traces of events,
 * and what the driver computes from the levels the sensor puts on DATA.
 * Every operation of the driver is specified here by the trace it emits;
 * the lemmas state what the sensor sees on the wire.
 */
module Waveform {
  import opened Bits

  /** One observable step of the driver. */
  datatype Event =
    | Clock(high: bool)   // SCK_HI (true, released) or SCK_LO (false, driven)
    | Data(high: bool)    // DATA_HI (true, released) or DATA_LO (false, driven)
    | Sample(high: bool)  // one read of PIND bit 3
    | Tick                // one `_delay_ms(1)` of the completion poll

  /** The two measurement commands and their wire codes. */
  datatype Command = MeasureTemp | MeasureHumidity

  function Code(cmd: Command): (code: bv8)
    ensures code >> 5 == 0
  {
    match cmd
    case MeasureTemp => 0x03
    case MeasureHumidity => 0x05
  }

  /**
   * The bits of each code as sent MSB first: the address 000, then the
   * command 00011 (temperature) or 00101 (humidity); the two differ.
   */
  lemma CodeBits(cmd: Command)
    ensures BitsOf(Code(cmd))[..3] == [false, false, false]
    ensures BitsOf(Code(cmd))[3..] ==
      match cmd
      case MeasureTemp => [false, false, false, true, true]
      case MeasureHumidity => [false, false, true, false, true]
    ensures Code(MeasureTemp) != Code(MeasureHumidity)
  {
    var bits := BitsOf(Code(cmd));
    assert Mask(0) == 0x80 && Mask(1) == 0x40 && Mask(2) == 0x20 && Mask(3) == 0x10;
    assert Mask(4) == 0x08 && Mask(5) == 0x04 && Mask(6) == 0x02 && Mask(7) == 0x01;
    assert bits[0] == WireBit(Code(cmd), 0) && bits[1] == WireBit(Code(cmd), 1);
    assert bits[2] == WireBit(Code(cmd), 2) && bits[3] == WireBit(Code(cmd), 3);
    assert bits[4] == WireBit(Code(cmd), 4) && bits[5] == WireBit(Code(cmd), 5);
    assert bits[6] == WireBit(Code(cmd), 6) && bits[7] == WireBit(Code(cmd), 7);
  }

  /** Iterations of the completion poll before the driver gives up. */
  const PollLimit: nat := 2000

  /**
   * The level of DATA at the k-th read of PIND while the driver has released
   * it: what the sensor drives, and high (the pull-up) once the sensor's
   * script has run out.
   */
  function Level(input: seq<bool>, k: nat): bool
  {
    if k < |input| then input[k] else true
  }

  /** The levels of n consecutive reads, starting with read number c. */
  function Window(input: seq<bool>, c: nat, n: nat): seq<bool>
  {
    seq(n, k requires 0 <= k < n => Level(input, c + k))
  }

  // ---------------------------------------------------------------------
  // What the lines show: a monitor folded over the trace.

  /**
   * The state of a passive monitor of the bus: the current SCK and DATA
   * levels as the driver sets them, the DATA level at each rising edge of
   * SCK (the bit the sensor latches), the levels read from PIND and the
   * number of one-millisecond delays.
   */
  datatype Monitor = Monitor(sck: bool, data: bool, atRise: seq<bool>, samples: seq<bool>, ticks: nat)

  function Step(m: Monitor, e: Event): Monitor
  {
    match e
    case Clock(high) => m.(sck := high, atRise := if high && !m.sck then m.atRise + [m.data] else m.atRise)
    case Data(high) => m.(data := high)
    case Sample(high) => m.(samples := m.samples + [high])
    case Tick => m.(ticks := m.ticks + 1)
  }

  /** The monitor after watching trace t. */
  function Watch(m: Monitor, t: seq<Event>): Monitor
  {
    if t == [] then m else Step(Watch(m, t[..|t| - 1]), t[|t| - 1])
  }

  /** A non-empty sequence is its prefix followed by its last element. */
  lemma LastSplit<T>(s: seq<T>)
    requires |s| > 0
    ensures s[..|s| - 1] + [s[|s| - 1]] == s
  {
  }

  /** n + 1 copies of x are n copies followed by one more. */
  lemma Repeat(n: nat, x: bool)
    ensures seq(n, _ => x) + [x] == seq(n + 1, _ => x)
  {
  }

  /** Traces recorded one after the other. */
  lemma JoinTraces(t: seq<Event>, a: seq<Event>, b: seq<Event>)
    ensures t + a + b == t + (a + b)
  {
  }

  /** Watching a + b: watch a, then b from the monitor a leaves. */
  lemma WatchThen(m: Monitor, a: seq<Event>, b: seq<Event>, ma: Monitor)
    requires Watch(m, a) == ma
    ensures Watch(m, a + b) == Watch(ma, b)
  {
    WatchAppend(m, a, b);
  }

  lemma {:induction false} WatchAppend(m: Monitor, a: seq<Event>, b: seq<Event>)
    ensures Watch(m, a + b) == Watch(Watch(m, a), b)
  {
    if b == [] {
      assert a + b == a;
    } else {
      assert (a + b)[..|a + b| - 1] == a + b[..|b| - 1];
      WatchAppend(m, a, b[..|b| - 1]);
    }
  }

  lemma WatchOne(m: Monitor, a: Event)
    ensures Watch(m, [a]) == Step(m, a)
  {
    assert [a][..0] == [];
  }

  lemma WatchTwo(m: Monitor, a: Event, b: Event)
    ensures Watch(m, [a, b]) == Step(Step(m, a), b)
  {
    assert [a, b][..1] == [a];
    WatchOne(m, a);
  }

  lemma WatchThree(m: Monitor, a: Event, b: Event, c: Event)
    ensures Watch(m, [a, b, c]) == Step(Step(Step(m, a), b), c)
  {
    assert [a, b, c][..2] == [a, b];
    WatchTwo(m, a, b);
  }

  lemma WatchFour(m: Monitor, a: Event, b: Event, c: Event, d: Event)
    ensures Watch(m, [a, b, c, d]) == Step(Step(Step(Step(m, a), b), c), d)
  {
    assert [a, b, c, d][..3] == [a, b, c];
    WatchThree(m, a, b, c);
  }

  // ---------------------------------------------------------------------
  // Transaction start (sht11_trans_start).

  /** SCK low, DATA high, SCK high, DATA low: DATA falls while SCK is high. */
  const StartFallTrace: seq<Event> := [Clock(false), Data(true), Clock(true), Data(false)]

  /** SCK low, SCK high, DATA high, SCK low: DATA rises while SCK is high. */
  const StartRiseTrace: seq<Event> := [Clock(false), Clock(true), Data(true), Clock(false)]

  /** The whole transmission start sequence. */
  const StartTrace: seq<Event> := StartFallTrace + StartRiseTrace

  /**
   * The start condition, from any line levels: two SCK rising edges, the
   * first with DATA high and the second with DATA low, and the sequence ends
   * with SCK low and DATA high.
   */
  lemma StartCondition(m: Monitor)
    ensures Watch(m, StartTrace) == m.(sck := false, data := true, atRise := m.atRise + [true, false])
  {
    StartFall(m);
    StartRise(Watch(m, StartFallTrace));
    WatchAppend(m, StartFallTrace, StartRiseTrace);
  }

  /** The first half: both lines high, then DATA falls while SCK stays high. */
  lemma StartFall(m: Monitor)
    ensures Watch(m, StartFallTrace[..3]).sck && Watch(m, StartFallTrace[..3]).data
    ensures Watch(m, StartFallTrace) == m.(sck := true, data := false, atRise := m.atRise + [true])
  {
    assert StartFallTrace[..3] == [Clock(false), Data(true), Clock(true)];
    WatchThree(m, Clock(false), Data(true), Clock(true));
    WatchFour(m, Clock(false), Data(true), Clock(true), Data(false));
  }

  /** The second half, from SCK high and DATA low: DATA rises while SCK is high after one more SCK pulse. */
  lemma StartRise(m: Monitor)
    requires m.sck && !m.data
    ensures Watch(m, StartRiseTrace[..2]).sck && !Watch(m, StartRiseTrace[..2]).data
    ensures Watch(m, StartRiseTrace[..3]).sck && Watch(m, StartRiseTrace[..3]).data
    ensures Watch(m, StartRiseTrace) == m.(sck := false, data := true, atRise := m.atRise + [false])
  {
    assert StartRiseTrace[..2] == [Clock(false), Clock(true)];
    assert StartRiseTrace[..3] == [Clock(false), Clock(true), Data(true)];
    WatchTwo(m, Clock(false), Clock(true));
    WatchThree(m, Clock(false), Clock(true), Data(true));
    WatchFour(m, Clock(false), Clock(true), Data(true), Clock(false));
  }

  // ---------------------------------------------------------------------
  // Shift-out (sht11_send).

  /** One pulse per bit, DATA set to the bit before SCK rises. */
  function ShiftOut(bits: seq<bool>): (t: seq<Event>)
    ensures |t| == 3 * |bits|
  {
    if bits == [] then []
    else ShiftOut(bits[..|bits| - 1]) + [Data(bits[|bits| - 1]), Clock(true), Clock(false)]
  }

  /** The trace of sending byte b: its eight bits MSB first, then DATA released. */
  function SendTrace(b: bv8): seq<Event>
  {
    ShiftOut(BitsOf(b)) + [Data(true)]
  }

  /** All eight bits shifted out, then DATA released, after a trace t. */
  lemma SendTraceSteps(t: seq<Event>, b: bv8)
    ensures t + ShiftOut(BitsOf(b)[..8]) + [Data(true)] == t + SendTrace(b)
  {
    assert BitsOf(b)[..8] == BitsOf(b);
  }

  /** Shifting out one more bit appends its three events, one at a time, to a trace t. */
  lemma ShiftOutStep(t: seq<Event>, bits: seq<bool>, n: nat, m: nat)
    requires n < |bits| && m == n + 1
    ensures t + ShiftOut(bits[..n]) + [Data(bits[n])] + [Clock(true)] + [Clock(false)] == t + ShiftOut(bits[..m])
  {
    assert bits[..m][..n] == bits[..n];
    assert ShiftOut(bits[..m]) == ShiftOut(bits[..n]) + [Data(bits[n]), Clock(true), Clock(false)];
  }

  /** Bit k is put on DATA, then SCK rises and falls. */
  lemma {:induction false} ShiftOutAt(bits: seq<bool>, k: nat)
    requires k < |bits|
    ensures ShiftOut(bits)[3 * k] == Data(bits[k])
    ensures ShiftOut(bits)[3 * k + 1] == Clock(true)
    ensures ShiftOut(bits)[3 * k + 2] == Clock(false)
  {
    var n := |bits| - 1;
    if k < n {
      ShiftOutAt(bits[..n], k);
    }
  }

  /** From SCK low, every bit is on DATA at its own rising edge of SCK. */
  lemma {:induction false} ShiftOutWatch(m: Monitor, bits: seq<bool>)
    requires !m.sck
    ensures Watch(m, ShiftOut(bits)) ==
      m.(data := if bits == [] then m.data else bits[|bits| - 1], atRise := m.atRise + bits)
  {
    if bits != [] {
      var n := |bits| - 1;
      var p := ShiftOut(bits[..n]);
      var q := [Data(bits[n]), Clock(true), Clock(false)];
      ShiftOutWatch(m, bits[..n]);
      WatchAppend(m, p, q);
      var m' := Watch(m, p);
      WatchThree(m', Data(bits[n]), Clock(true), Clock(false));
      LastSplit(bits);
    }
  }

  /**
   * sht11_send from SCK low: exactly eight SCK rising edges, at edge k DATA
   * holds bit 7-k of the byte (MSB first), nothing is read, and it ends with
   * SCK low and DATA released.
   */
  lemma SendWaveform(m: Monitor, b: bv8)
    requires !m.sck
    ensures Watch(m, SendTrace(b)) == m.(data := true, atRise := m.atRise + BitsOf(b))
    ensures forall k: nat :: k < 8 ==>
      SendTrace(b)[3 * k] == Data(WireBit(b, k)) && SendTrace(b)[3 * k + 1] == Clock(true)
  {
    forall k: nat | k < 8
      ensures SendTrace(b)[3 * k] == Data(WireBit(b, k)) && SendTrace(b)[3 * k + 1] == Clock(true)
    {
      ShiftOutAt(BitsOf(b), k);
    }
    ShiftOutWatch(m, BitsOf(b));
    WatchAppend(m, ShiftOut(BitsOf(b)), [Data(true)]);
    WatchOne(Watch(m, ShiftOut(BitsOf(b))), Data(true));
  }

  /** A receiver that latches DATA at every rising SCK edge of sht11_send(b) reads b back. */
  lemma Loopback(b: bv8, data0: bool)
    ensures |Watch(Monitor(false, data0, [], [], 0), SendTrace(b)).atRise| == 8
    ensures ByteOf(Watch(Monitor(false, data0, [], [], 0), SendTrace(b)).atRise) == b
  {
    SendWaveform(Monitor(false, data0, [], [], 0), b);
    assert [] + BitsOf(b) == BitsOf(b);
    ByteOfBitsOf(b);
  }

  // ---------------------------------------------------------------------
  // Shift-in (sht11_recv).

  /** One pulse per bit, PIND read while SCK is high. */
  function ShiftIn(samples: seq<bool>): (t: seq<Event>)
    ensures |t| == 3 * |samples|
  {
    if samples == [] then []
    else ShiftIn(samples[..|samples| - 1]) + [Clock(true), Sample(samples[|samples| - 1]), Clock(false)]
  }

  /** Read k is taken between the k-th rise of SCK and the fall after it: while SCK is high. */
  lemma {:induction false} ShiftInAt(samples: seq<bool>, k: nat)
    requires k < |samples|
    ensures ShiftIn(samples)[3 * k] == Clock(true)
    ensures ShiftIn(samples)[3 * k + 1] == Sample(samples[k])
    ensures ShiftIn(samples)[3 * k + 2] == Clock(false)
  {
    var n := |samples| - 1;
    if k < n {
      ShiftInAt(samples[..n], k);
    }
  }

  /** DATA released, the data pulses, the ACK (DATA low) or NAK (DATA high) pulse, DATA released. */
  function RecvTrace(samples: seq<bool>, ack: bool): seq<Event>
  {
    [Data(true)] + ShiftIn(samples) + [Data(!ack), Clock(true), Clock(false), Data(true)]
  }

  /**
   * In sht11_recv, the k-th read comes right after the k-th rise of SCK and
   * before SCK falls again: every data bit is read while SCK is high.
   */
  lemma RecvReadAt(samples: seq<bool>, ack: bool, k: nat)
    requires k < |samples|
    ensures RecvTrace(samples, ack)[3 * k + 1] == Clock(true)
    ensures RecvTrace(samples, ack)[3 * k + 2] == Sample(samples[k])
    ensures RecvTrace(samples, ack)[3 * k + 3] == Clock(false)
  {
    ShiftInAt(samples, k);
    var p := ShiftIn(samples);
    assert RecvTrace(samples, ack)[1 + 3 * k] == p[3 * k];
    assert RecvTrace(samples, ack)[1 + (3 * k + 1)] == p[3 * k + 1];
    assert RecvTrace(samples, ack)[1 + (3 * k + 2)] == p[3 * k + 2];
  }

  /** The byte reception's events appended one at a time after a trace t. */
  lemma RecvTraceSteps(t: seq<Event>, samples: seq<bool>, ack: bool)
    ensures t + [Data(true)] + ShiftIn(samples) + [Data(!ack)] + [Clock(true)] + [Clock(false)] + [Data(true)] ==
      t + RecvTrace(samples, ack)
  {
  }

  /**
   * One more read while shifting a byte in: its three events are appended
   * and, when it is high, the bit with mask 0x80 >> n is set.
   */
  lemma ShiftInStep(t: seq<Event>, input: seq<bool>, c: nat, n: nat, m: nat)
    requires n < 8 && m == n + 1
    ensures t + ShiftIn(Window(input, c, n)) + [Clock(true)] + [Sample(Level(input, c + n))] + [Clock(false)] ==
      t + ShiftIn(Window(input, c, m))
  {
    assert Window(input, c, m)[..n] == Window(input, c, n);
    assert ShiftIn(Window(input, c, m)) ==
      ShiftIn(Window(input, c, n)) + [Clock(true), Sample(Level(input, c + n)), Clock(false)];
  }

  /**
   * One pass of sht11_recv's loop: with ret the byte assembled from the
   * first n reads and mask = 0x80 >> n, setting the mask bit exactly when
   * read n is high gives the byte of n + 1 reads, and the halved mask is
   * the next one.
   */
  lemma RecvBitStep(ret: bv8, mask: bv8, high: bool, input: seq<bool>, c: nat, n: nat)
    requires n < 8 && mask == Mask(n) && ret == ByteOf(Window(input, c, n)) && high == Level(input, c + n)
    ensures (if high then ret | mask else ret) == ByteOf(Window(input, c, n + 1))
    ensures mask != 0 && mask / 2 == if n + 1 < 8 then Mask(n + 1) else 0
  {
    MaskHalves(n);
    assert Window(input, c, n + 1)[..n] == Window(input, c, n);
  }

  /** From SCK low, one read per rising edge of SCK, with DATA left as it was. */
  lemma {:induction false} ShiftInWatch(m: Monitor, samples: seq<bool>)
    requires !m.sck
    ensures Watch(m, ShiftIn(samples)) ==
      m.(atRise := m.atRise + seq(|samples|, _ => m.data), samples := m.samples + samples)
  {
    if samples != [] {
      var n := |samples| - 1;
      var p := ShiftIn(samples[..n]);
      var q := [Clock(true), Sample(samples[n]), Clock(false)];
      ShiftInWatch(m, samples[..n]);
      WatchAppend(m, p, q);
      var m' := Watch(m, p);
      WatchThree(m', Clock(true), Sample(samples[n]), Clock(false));
      assert Watch(m', q) == m'.(atRise := m'.atRise + [m.data], samples := m'.samples + [samples[n]]);
      LastSplit(samples);
      Repeat(n, m.data);
      assert m.atRise + seq(n, _ => m.data) + [m.data] == m.atRise + seq(n + 1, _ => m.data);
      assert m.samples + samples[..n] + [samples[n]] == m.samples + samples;
    }
  }

  /**
   * sht11_recv from SCK low: exactly one read per data pulse and no other
   * read; DATA released at each of these edges; at the edge after them DATA
   * is low iff an ACK is sent; it ends with SCK low and DATA released.
   */
  lemma RecvWaveform(m: Monitor, samples: seq<bool>, ack: bool)
    requires !m.sck
    ensures Watch(m, RecvTrace(samples, ack)) ==
      m.(data := true, atRise := m.atRise + seq(|samples|, _ => true) + [!ack], samples := m.samples + samples)
  {
    var h := [Data(true)];
    var p := ShiftIn(samples);
    var q := [Data(!ack), Clock(true), Clock(false), Data(true)];
    assert RecvTrace(samples, ack) == h + p + q;
    WatchAppend(m, h, p);
    WatchAppend(m, h + p, q);
    WatchOne(m, Data(true));
    ShiftInWatch(Watch(m, h), samples);
    var m' := Watch(m, h + p);
    WatchFour(m', Data(!ack), Clock(true), Clock(false), Data(true));
  }

  // ---------------------------------------------------------------------
  // Bus reset (sht11_reset).

  /** n clock pulses with DATA untouched. */
  function ResetPulses(n: nat): (t: seq<Event>)
    ensures |t| == 2 * n
  {
    if n == 0 then [] else ResetPulses(n - 1) + [Clock(true), Clock(false)]
  }

  /** Number of recovery pulses of the bus reset. */
  const ResetPulseCount: nat := 9

  /** DATA released, SCK low, nine pulses, then a new start condition. */
  function ResetTrace(): seq<Event>
  {
    [Data(true), Clock(false)] + ResetPulses(ResetPulseCount) + StartTrace
  }

  lemma {:induction false} ResetPulsesWatch(m: Monitor, n: nat)
    requires !m.sck
    ensures Watch(m, ResetPulses(n)) == m.(atRise := m.atRise + seq(n, _ => m.data))
  {
    if n > 0 {
      var p := ResetPulses(n - 1);
      var q := [Clock(true), Clock(false)];
      ResetPulsesWatch(m, n - 1);
      WatchAppend(m, p, q);
      var m' := Watch(m, p);
      WatchTwo(m', Clock(true), Clock(false));
      Repeat(n - 1, m.data);
    }
  }

  /**
   * sht11_reset, from any line levels: DATA released and SCK low, then
   * exactly nine SCK rising edges with DATA released, then the start
   * condition; nothing is read and the bus ends with SCK low and DATA
   * released.
   */
  lemma ResetWaveform(m: Monitor)
    ensures var pre := [Data(true), Clock(false)] + ResetPulses(ResetPulseCount);
      ResetTrace() == pre + StartTrace &&
      Watch(m, pre) == m.(sck := false, data := true, atRise := m.atRise + seq(9, _ => true))
    ensures Watch(m, ResetTrace()) ==
      m.(sck := false, data := true, atRise := m.atRise + seq(9, _ => true) + [true, false])
  {
    var h := [Data(true), Clock(false)];
    var p := ResetPulses(ResetPulseCount);
    WatchTwo(m, Data(true), Clock(false));
    ResetPulsesWatch(Watch(m, h), ResetPulseCount);
    WatchAppend(m, h, p);
    StartCondition(Watch(m, h + p));
    WatchAppend(m, h + p, StartTrace);
  }

  // ---------------------------------------------------------------------
  // Command and completion wait (sht11_send_cmd).

  /**
   * Number of PIND reads of the wait loop started at read c with n
   * iterations left: it stops after the first low level, and after n reads
   * at most.
   */
  function WaitSamples(input: seq<bool>, c: nat, n: nat): (w: nat)
    ensures w <= n && (n > 0 ==> w >= 1)
    ensures n > 0 ==> w == n || !Level(input, c + w - 1)
    decreases n
  {
    if n == 0 then 0
    else if !Level(input, c) then 1
    else 1 + WaitSamples(input, c + 1, n - 1)
  }

  /** Every read of the wait loop but the last one is high. */
  lemma {:induction false} WaitSamplesHigh(input: seq<bool>, c: nat, n: nat, k: nat)
    requires c <= k < c + WaitSamples(input, c, n) - 1
    ensures Level(input, k)
    decreases n
  {
    if k > c {
      WaitSamplesHigh(input, c + 1, n - 1, k);
    }
  }

  /** The delays of the wait loop: one after every high read. */
  function WaitTicks(input: seq<bool>, c: nat, n: nat): nat
  {
    var w := WaitSamples(input, c, n);
    if n > 0 && !Level(input, c + w - 1) then w - 1 else w
  }

  /** The wait loop: each high read is followed by a delay; a low read ends it. */
  function WaitTrace(input: seq<bool>, c: nat, n: nat): seq<Event>
    decreases n
  {
    if n == 0 then []
    else if !Level(input, c) then [Sample(false)]
    else [Sample(true), Tick] + WaitTrace(input, c + 1, n - 1)
  }

  /** The first i iterations of the wait loop when each of their reads is high. */
  function Polls(i: nat): (t: seq<Event>)
    ensures |t| == 2 * i
  {
    if i == 0 then [] else Polls(i - 1) + [Sample(true), Tick]
  }

  /** The i reads from read c on are all high. */
  predicate HighRun(input: seq<bool>, c: nat, i: nat)
  {
    i == 0 || (Level(input, c + i - 1) && HighRun(input, c, i - 1))
  }

  /**
   * After i high reads, the wait loop goes on as a loop started i reads
   * later with i fewer iterations.
   */
  lemma {:induction false} WaitAfterHighRun(input: seq<bool>, c: nat, n: nat, i: nat)
    requires i <= n && HighRun(input, c, i)
    ensures WaitTrace(input, c, n) == Polls(i) + WaitTrace(input, c + i, n - i)
    ensures WaitSamples(input, c, n) == i + WaitSamples(input, c + i, n - i)
    decreases i
  {
    if i > 0 {
      WaitAfterHighRun(input, c, n, i - 1);
      var r := WaitTrace(input, c + i, n - i);
      assert WaitTrace(input, c + i - 1, n - i + 1) == [Sample(true), Tick] + r;
      JoinTraces(Polls(i - 1), [Sample(true), Tick], r);
    }
  }

  /** One more high poll read and its tick, appended after a trace t. */
  lemma PollStep(t: seq<Event>, i: nat)
    ensures t + Polls(i) + [Sample(true)] + [Tick] == t + Polls(i + 1)
  {
  }

  /** The wait loop left at a low read after i high ones. */
  lemma WaitExit(t: seq<Event>, input: seq<bool>, c: nat, n: nat, i: nat)
    requires i < n && HighRun(input, c, i) && !Level(input, c + i)
    ensures t + Polls(i) + [Sample(false)] == t + WaitTrace(input, c, n)
    ensures WaitSamples(input, c, n) == i + 1
  {
    WaitAfterHighRun(input, c, n, i);
    assert WaitTrace(input, c + i, n - i) == [Sample(false)];
  }

  /** The wait loop run to its limit: n high reads. */
  lemma WaitFull(t: seq<Event>, input: seq<bool>, c: nat, n: nat)
    requires HighRun(input, c, n)
    ensures t + Polls(n) == t + WaitTrace(input, c, n)
    ensures WaitSamples(input, c, n) == n
  {
    WaitAfterHighRun(input, c, n, n);
    assert WaitTrace(input, c + n, 0) == [];
  }

  /**
   * The wait loop reads exactly the levels up to the first low one (or n of
   * them), waits one tick per high level, and does not touch the lines.
   */
  lemma {:induction false} WaitWatch(m: Monitor, input: seq<bool>, c: nat, n: nat)
    ensures Watch(m, WaitTrace(input, c, n)) ==
      m.(samples := m.samples + Window(input, c, WaitSamples(input, c, n)), ticks := m.ticks + WaitTicks(input, c, n))
    decreases n
  {
    if n > 0 && Level(input, c) {
      var m' := m.(samples := m.samples + [true], ticks := m.ticks + 1);
      WaitWatch(m', input, c + 1, n - 1);
      WaitWatchContinues(m, m', input, c, n);
    } else {
      WaitWatchStops(m, input, c, n);
    }
  }

  /** One high read and one tick, then the rest of the wait loop. */
  lemma WaitWatchContinues(m: Monitor, m': Monitor, input: seq<bool>, c: nat, n: nat)
    requires n > 0 && Level(input, c)
    requires m' == m.(samples := m.samples + [true], ticks := m.ticks + 1)
    requires Watch(m', WaitTrace(input, c + 1, n - 1)) ==
      m'.(samples := m'.samples + Window(input, c + 1, WaitSamples(input, c + 1, n - 1)),
          ticks := m'.ticks + WaitTicks(input, c + 1, n - 1))
    ensures Watch(m, WaitTrace(input, c, n)) ==
      m.(samples := m.samples + Window(input, c, WaitSamples(input, c, n)), ticks := m.ticks + WaitTicks(input, c, n))
  {
    var h := [Sample(true), Tick];
    var r := WaitTrace(input, c + 1, n - 1);
    var w := WaitSamples(input, c + 1, n - 1);
    var rest := Window(input, c + 1, w);
    calc {
      Watch(m, WaitTrace(input, c, n));
      { assert WaitTrace(input, c, n) == h + r; }
      Watch(m, h + r);
      { WatchAppend(m, h, r); }
      Watch(Watch(m, h), r);
      { WatchTwo(m, Sample(true), Tick); }
      Watch(m', r);
      m'.(samples := m'.samples + rest, ticks := m'.ticks + WaitTicks(input, c + 1, n - 1));
      { assert m.samples + [true] + rest == m.samples + ([true] + rest); }
      m.(samples := m.samples + ([true] + rest), ticks := m.ticks + 1 + WaitTicks(input, c + 1, n - 1));
      { WaitWindowStep(input, c, n); }
      m.(samples := m.samples + Window(input, c, WaitSamples(input, c, n)), ticks := m.ticks + WaitTicks(input, c, n));
    }
  }

  /** A high first read comes before the reads of the rest of the wait loop. */
  lemma WaitWindowStep(input: seq<bool>, c: nat, n: nat)
    requires n > 0 && Level(input, c)
    ensures Window(input, c, WaitSamples(input, c, n)) == [true] + Window(input, c + 1, WaitSamples(input, c + 1, n - 1))
    ensures WaitTicks(input, c, n) == WaitTicks(input, c + 1, n - 1) + 1
  {
    WaitStepCounts(input, c, n);
    var w := WaitSamples(input, c + 1, n - 1);
    assert Window(input, c, w + 1) == [true] + Window(input, c + 1, w);
  }

  /** A high first read adds one read and one delay to the rest of the wait loop. */
  lemma WaitStepCounts(input: seq<bool>, c: nat, n: nat)
    requires n > 0 && Level(input, c)
    ensures WaitSamples(input, c, n) == WaitSamples(input, c + 1, n - 1) + 1
    ensures WaitTicks(input, c, n) == WaitTicks(input, c + 1, n - 1) + 1
  {
  }

  /** The wait loop with no iteration left, or whose first read is low. */
  lemma WaitWatchStops(m: Monitor, input: seq<bool>, c: nat, n: nat)
    requires n == 0 || !Level(input, c)
    ensures Watch(m, WaitTrace(input, c, n)) ==
      m.(samples := m.samples + Window(input, c, WaitSamples(input, c, n)), ticks := m.ticks + WaitTicks(input, c, n))
  {
    if n > 0 {
      WatchOne(m, Sample(false));
      assert Window(input, c, 1) == [false];
    } else {
      assert Window(input, c, 0) == [];
    }
  }

  /** Number of the read just after sht11_send_cmd returns, when it started at read c. */
  function CommandEnd(input: seq<bool>, c: nat): (e: nat)
    ensures c + 3 <= e <= c + 2 + PollLimit
  {
    c + 2 + WaitSamples(input, c + 1, PollLimit)
  }

  /**
   * The value returned by sht11_send_cmd: zero iff the ACK read and the read
   * after the wait loop are both low; 1 when the last read is high; 0x08
   * (the raw PIND bit) when only the ACK read is high.
   */
  function CommandError(input: seq<bool>, c: nat): Byte
  {
    var error: Byte := if Level(input, c) then DataHigh else 0;
    if Level(input, CommandEnd(input, c) - 1) then 1 else error
  }

  /**
   * The three outcomes of sht11_send_cmd: success exactly when the ACK read
   * and the final read are low; 1 exactly when the final read is high; 0x08
   * exactly when only the ACK read is high.
   */
  lemma CommandErrorCases(input: seq<bool>, c: nat)
    ensures CommandError(input, c) == 0 <==> !Level(input, c) && !Level(input, CommandEnd(input, c) - 1)
    ensures CommandError(input, c) == 1 <==> Level(input, CommandEnd(input, c) - 1)
    ensures CommandError(input, c) == DataHigh <==> Level(input, c) && !Level(input, CommandEnd(input, c) - 1)
  {
  }

  /** CommandError from the two raw reads, in the form the driver computes it. */
  lemma CommandErrorOf(input: seq<bool>, c: nat, ack: Byte, last: Byte)
    requires ack == if Level(input, c) then DataHigh else 0
    requires last == if Level(input, c + 1 + WaitSamples(input, c + 1, PollLimit)) then DataHigh else 0
    ensures CommandError(input, c) == if last != 0 then 1 else ack
  {
  }

  /** The ACK pulse: SCK high, one read, SCK low. */
  function AckTrace(level: bool): seq<Event>
  {
    [Clock(true), Sample(level), Clock(false)]
  }

  /** Start, command byte, ACK pulse with one read, wait loop, one more read. */
  function CommandTrace(input: seq<bool>, c: nat, cmd: Command): seq<Event>
  {
    StartTrace + SendTrace(Code(cmd)) + AckTrace(Level(input, c))
      + WaitTrace(input, c + 1, PollLimit) + [Sample(Level(input, CommandEnd(input, c) - 1))]
  }

  /** The command's events as sht11_send_cmd appends them after a trace t. */
  lemma CommandTraceSteps(t: seq<Event>, input: seq<bool>, c: nat, cmd: Command)
    ensures t + StartTrace + SendTrace(Code(cmd)) + [Clock(true)] + [Sample(Level(input, c))] + [Clock(false)]
      + WaitTrace(input, c + 1, PollLimit) + [Sample(Level(input, c + 1 + WaitSamples(input, c + 1, PollLimit)))] ==
      t + CommandTrace(input, c, cmd)
  {
    assert CommandEnd(input, c) - 1 == c + 1 + WaitSamples(input, c + 1, PollLimit);
    AppendSteps(t, StartTrace, SendTrace(Code(cmd)), Clock(true), Sample(Level(input, c)), Clock(false),
      WaitTrace(input, c + 1, PollLimit), Sample(Level(input, CommandEnd(input, c) - 1)));
  }

  /** Regrouping the three byte receptions of a result. */
  lemma AppendResult(t: seq<Event>, r1: seq<Event>, r2: seq<Event>, r3: seq<Event>)
    ensures t + r1 + r2 + r3 == t + (r1 + r2 + r3)
  {
    JoinTraces(t, r1, r2);
    JoinTraces(t, r1 + r2, r3);
  }

  /** Regrouping the pieces of a command as the driver appends them one by one. */
  lemma AppendSteps(t: seq<Event>, a: seq<Event>, b: seq<Event>, x: Event, y: Event, z: Event, w: seq<Event>, l: Event)
    ensures t + a + b + [x] + [y] + [z] + w + [l] == t + (a + b + [x, y, z] + w + [l])
  {
    JoinTraces(t, a, b);
    assert [x] + [y] + [z] == [x, y, z];
    JoinTraces(t + (a + b), [x] + [y], [z]);
    JoinTraces(t + (a + b), [x], [y]);
    JoinTraces(t, a + b, [x, y, z]);
    JoinTraces(t, a + b + [x, y, z], w);
    JoinTraces(t, a + b + [x, y, z] + w, [l]);
  }

  /**
   * The ACK read of sht11_send_cmd comes right after the rise of SCK that
   * follows the command byte, and before SCK falls again: it is taken while
   * SCK is high.
   */
  lemma CommandAckAt(input: seq<bool>, c: nat, cmd: Command)
    ensures |StartTrace + SendTrace(Code(cmd))| == 33
    ensures CommandTrace(input, c, cmd)[33] == Clock(true)
    ensures CommandTrace(input, c, cmd)[34] == Sample(Level(input, c))
    ensures CommandTrace(input, c, cmd)[35] == Clock(false)
  {
    var head := StartTrace + SendTrace(Code(cmd));
    assert |head| == 33;
    PieceAt(head, AckTrace(Level(input, c)), WaitTrace(input, c + 1, PollLimit),
      [Sample(Level(input, CommandEnd(input, c) - 1))]);
  }

  /** The events of a piece a keep their order after what comes before it. */
  lemma PieceAt(h: seq<Event>, a: seq<Event>, w: seq<Event>, l: seq<Event>)
    ensures forall i :: 0 <= i < |a| ==> (h + a + w + l)[|h| + i] == a[i]
  {
  }

  /**
   * sht11_send_cmd, from any line levels: the start condition, the command
   * code MSB first, one more rising edge with DATA released for the ACK, and
   * then the reads from read c on, up to CommandEnd: the ACK level, the wait
   * loop's levels and the final level, with one tick per high poll read.
   * It ends with SCK low and DATA released.
   */
  lemma CommandWaveform(m: Monitor, input: seq<bool>, c: nat, cmd: Command)
    ensures Watch(m, CommandTrace(input, c, cmd)) ==
      m.(sck := false, data := true,
         atRise := m.atRise + [true, false] + BitsOf(Code(cmd)) + [true],
         samples := m.samples + Window(input, c, CommandEnd(input, c) - c),
         ticks := m.ticks + WaitTicks(input, c + 1, PollLimit))
  {
    var w := WaitSamples(input, c + 1, PollLimit);
    var last := Level(input, c + 1 + w);
    var head := StartTrace + SendTrace(Code(cmd)) + AckTrace(Level(input, c));
    var t4 := WaitTrace(input, c + 1, PollLimit);
    var m3 := m.(sck := false, data := true,
                 atRise := m.atRise + [true, false] + BitsOf(Code(cmd)) + [true],
                 samples := m.samples + [Level(input, c)]);
    var m4 := m3.(samples := m3.samples + Window(input, c + 1, w), ticks := m3.ticks + WaitTicks(input, c + 1, PollLimit));
    assert CommandTrace(input, c, cmd) == head + t4 + [Sample(last)];
    CommandHeadWaveform(m, cmd, Level(input, c));
    WaitWatch(m3, input, c + 1, PollLimit);
    WatchThen(m, head, t4, m3);
    WatchOne(m4, Sample(last));
    WatchThen(m, head + t4, [Sample(last)], m4);
    assert CommandEnd(input, c) - c == w + 2;
    WindowAroundWait(input, c, w);
    SamplesAroundWait(m.samples, Level(input, c), Window(input, c + 1, w), last);
  }

  lemma SamplesAroundWait(s: seq<bool>, ack: bool, poll: seq<bool>, last: bool)
    ensures s + [ack] + poll + [last] == s + ([ack] + poll + [last])
  {
  }

  /** The reads of sht11_send_cmd: the ACK read, the poll reads and the final read. */
  lemma WindowAroundWait(input: seq<bool>, c: nat, w: nat)
    ensures Window(input, c, w + 2) == [Level(input, c)] + Window(input, c + 1, w) + [Level(input, c + 1 + w)]
  {
  }

  /**
   * Start, command byte and ACK pulse: two rises of the start condition, the
   * eight code bits, the ACK rise with DATA released, and one read.
   */
  lemma CommandHeadWaveform(m: Monitor, cmd: Command, ack: bool)
    ensures Watch(m, StartTrace + SendTrace(Code(cmd)) + AckTrace(ack)) ==
      m.(sck := false, data := true,
         atRise := m.atRise + [true, false] + BitsOf(Code(cmd)) + [true],
         samples := m.samples + [ack])
  {
    var m1 := m.(sck := false, data := true, atRise := m.atRise + [true, false]);
    var m2 := m1.(data := true, atRise := m1.atRise + BitsOf(Code(cmd)));
    calc {
      Watch(m, StartTrace + SendTrace(Code(cmd)) + AckTrace(ack));
      { WatchAppend(m, StartTrace + SendTrace(Code(cmd)), AckTrace(ack)); }
      Watch(Watch(m, StartTrace + SendTrace(Code(cmd))), AckTrace(ack));
      { WatchAppend(m, StartTrace, SendTrace(Code(cmd))); StartCondition(m); }
      Watch(Watch(m1, SendTrace(Code(cmd))), AckTrace(ack));
      { SendWaveform(m1, Code(cmd)); }
      Watch(m2, AckTrace(ack));
      { WatchThree(m2, Clock(true), Sample(ack), Clock(false)); }
      m2.(atRise := m2.atRise + [true], samples := m2.samples + [ack]);
    }
  }

  /**
   * A sensor that never pulls DATA low after the ACK read makes
   * sht11_send_cmd fail after exactly PollLimit poll reads and PollLimit
   * ticks: the wait is bounded.
   */
  lemma CommandTimeout(input: seq<bool>, c: nat)
    requires forall k: nat :: c < k ==> Level(input, k)
    ensures WaitSamples(input, c + 1, PollLimit) == PollLimit
    ensures WaitTicks(input, c + 1, PollLimit) == PollLimit
    ensures CommandEnd(input, c) == c + PollLimit + 2
    ensures CommandError(input, c) == 1
  {
    var w := WaitSamples(input, c + 1, PollLimit);
    assert Level(input, c + 1 + w - 1);
  }

  // ---------------------------------------------------------------------
  // One measurement (the body of the main loop, per command).

  /** The 16-bit count from the two bytes starting at read c; the checksum byte after them is not used. */
  function ReadResult(input: seq<bool>, c: nat): bv16
  {
    Combine(ByteOf(Window(input, c, 8)), ByteOf(Window(input, c + 8, 8)))
  }

  /** The raw count of one measurement started at read c, or None when the command failed. */
  function Measure(input: seq<bool>, c: nat): Option<bv16>
  {
    if CommandError(input, c) != 0 then None
    else Some(ReadResult(input, CommandEnd(input, c)))
  }

  /** Number of the read after one measurement: on failure no byte is received. */
  function MeasureEnd(input: seq<bool>, c: nat): nat
  {
    if CommandError(input, c) != 0 then CommandEnd(input, c)
    else CommandEnd(input, c) + 24
  }

  /** The three byte receptions after a successful command: two with ACK, the checksum with NAK. */
  function ResultTrace(input: seq<bool>, e: nat): seq<Event>
  {
    RecvTrace(Window(input, e, 8), true) + RecvTrace(Window(input, e + 8, 8), true)
      + RecvTrace(Window(input, e + 16, 8), false)
  }

  /** The command, then the reset on failure or the three byte receptions on success. */
  function MeasureTrace(input: seq<bool>, c: nat, cmd: Command): seq<Event>
  {
    var rest := if CommandError(input, c) != 0 then ResetTrace() else ResultTrace(input, CommandEnd(input, c));
    CommandTrace(input, c, cmd) + rest
  }

  /** A measurement whose command failed: no value, a bus reset, no further read. */
  lemma MeasureFail(input: seq<bool>, c: nat, cmd: Command)
    requires CommandError(input, c) != 0
    ensures Measure(input, c) == None && MeasureEnd(input, c) == CommandEnd(input, c)
    ensures MeasureTrace(input, c, cmd) == CommandTrace(input, c, cmd) + ResetTrace()
  {
  }

  /** A measurement whose command succeeded: the count of the next 16 reads, 24 reads in all. */
  lemma MeasureOk(input: seq<bool>, c: nat, cmd: Command)
    requires CommandError(input, c) == 0
    ensures Measure(input, c) == Some(ReadResult(input, CommandEnd(input, c)))
    ensures MeasureEnd(input, c) == CommandEnd(input, c) + 24
    ensures MeasureTrace(input, c, cmd) == CommandTrace(input, c, cmd) + ResultTrace(input, CommandEnd(input, c))
  {
  }

  /**
   * Reading the result from SCK low: 24 reads in three bytes, DATA released
   * at every data edge, ACK (DATA low) after the first two bytes and NAK
   * (DATA high) after the checksum; the count is the high byte times 256
   * plus the low byte.
   */
  lemma ResultWaveform(m: Monitor, input: seq<bool>, e: nat)
    requires !m.sck
    ensures Watch(m, ResultTrace(input, e)) ==
      m.(data := true,
         atRise := m.atRise + seq(8, _ => true) + [false] + seq(8, _ => true) + [false] + seq(8, _ => true) + [true],
         samples := m.samples + Window(input, e, 24))
  {
    var s1, s2, s3 := Window(input, e, 8), Window(input, e + 8, 8), Window(input, e + 16, 8);
    var r1, r2, r3 := RecvTrace(s1, true), RecvTrace(s2, true), RecvTrace(s3, false);
    var m1 := m.(data := true, atRise := m.atRise + seq(8, _ => true) + [false], samples := m.samples + s1);
    var m2 := m1.(data := true, atRise := m1.atRise + seq(8, _ => true) + [false], samples := m1.samples + s2);
    calc {
      Watch(m, r1 + r2 + r3);
      { WatchAppend(m, r1 + r2, r3); }
      Watch(Watch(m, r1 + r2), r3);
      { WatchAppend(m, r1, r2); RecvWaveform(m, s1, true); }
      Watch(Watch(m1, r2), r3);
      { RecvWaveform(m1, s2, true); }
      Watch(m2, r3);
      { RecvWaveform(m2, s3, false); }
      m2.(data := true, atRise := m2.atRise + seq(8, _ => true) + [true], samples := m2.samples + s3);
      { WindowSplit(input, e, 8, 8); WindowSplit(input, e, 16, 8);
        assert Window(input, e, 24) == s1 + s2 + s3;
        assert m.samples + s1 + s2 + s3 == m.samples + (s1 + s2 + s3); }
      m.(data := true,
         atRise := m.atRise + seq(8, _ => true) + [false] + seq(8, _ => true) + [false] + seq(8, _ => true) + [true],
         samples := m.samples + Window(input, e, 24));
    }
  }

  /** Consecutive reads: a window of i + j reads is the first i followed by the next j. */
  lemma WindowSplit(input: seq<bool>, c: nat, i: nat, j: nat)
    ensures Window(input, c, i + j) == Window(input, c, i) + Window(input, c + i, j)
  {
  }

  /**
   * One measurement from any line levels: a failed command is followed by
   * the reset and no further read; a successful one by exactly 24 reads in
   * three byte receptions. Either way the bus ends with SCK low and DATA
   * released.
   */
  lemma MeasureWaveform(m: Monitor, input: seq<bool>, c: nat, cmd: Command)
    ensures var m' := Watch(m, MeasureTrace(input, c, cmd));
      !m'.sck && m'.data && m'.samples == m.samples + Window(input, c, MeasureEnd(input, c) - c) &&
      m'.ticks == m.ticks + WaitTicks(input, c + 1, PollLimit)
  {
    if CommandError(input, c) != 0 {
      MeasureFailWaveform(m, input, c, cmd);
    } else {
      MeasureOkWaveform(m, input, c, cmd);
    }
  }

  /** The monitor after the command of one measurement. */
  function AfterCommand(m: Monitor, input: seq<bool>, c: nat, cmd: Command): Monitor
  {
    m.(sck := false, data := true,
       atRise := m.atRise + [true, false] + BitsOf(Code(cmd)) + [true],
       samples := m.samples + Window(input, c, CommandEnd(input, c) - c),
       ticks := m.ticks + WaitTicks(input, c + 1, PollLimit))
  }

  /** A failed command: the reset adds no read and no tick. */
  lemma MeasureFailWaveform(m: Monitor, input: seq<bool>, c: nat, cmd: Command)
    requires CommandError(input, c) != 0
    ensures var m' := Watch(m, MeasureTrace(input, c, cmd));
      !m'.sck && m'.data && m'.samples == m.samples + Window(input, c, MeasureEnd(input, c) - c) &&
      m'.ticks == m.ticks + WaitTicks(input, c + 1, PollLimit)
  {
    var t := CommandTrace(input, c, cmd);
    var m1 := AfterCommand(m, input, c, cmd);
    CommandWaveform(m, input, c, cmd);
    assert Watch(m, t) == m1;
    assert MeasureTrace(input, c, cmd) == t + ResetTrace();
    WatchThen(m, t, ResetTrace(), m1);
    ResetWaveform(m1);
    var m2 := Watch(m1, ResetTrace());
    assert Watch(m, MeasureTrace(input, c, cmd)) == m2;
    assert MeasureEnd(input, c) == CommandEnd(input, c);
  }

  /** A successful command: the three byte receptions add 24 reads and no tick. */
  lemma MeasureOkWaveform(m: Monitor, input: seq<bool>, c: nat, cmd: Command)
    requires CommandError(input, c) == 0
    ensures var m' := Watch(m, MeasureTrace(input, c, cmd));
      !m'.sck && m'.data && m'.samples == m.samples + Window(input, c, MeasureEnd(input, c) - c) &&
      m'.ticks == m.ticks + WaitTicks(input, c + 1, PollLimit)
  {
    var e := CommandEnd(input, c);
    var t := CommandTrace(input, c, cmd);
    var m1 := AfterCommand(m, input, c, cmd);
    CommandWaveform(m, input, c, cmd);
    assert Watch(m, t) == m1;
    assert MeasureTrace(input, c, cmd) == t + ResultTrace(input, e);
    WatchThen(m, t, ResultTrace(input, e), m1);
    ResultWaveform(m1, input, e);
    var m2 := Watch(m1, ResultTrace(input, e));
    assert Watch(m, MeasureTrace(input, c, cmd)) == m2;
    assert MeasureEnd(input, c) - c == e + 24 - c;
    assert m2.samples == m.samples + Window(input, c, e - c) + Window(input, e, 24);
    ResultSamples(m.samples, input, c, e);
  }

  /** The reads of the command followed by the 24 reads of the result. */
  lemma ResultSamples(samples: seq<bool>, input: seq<bool>, c: nat, e: nat)
    requires c <= e
    ensures samples + Window(input, c, e - c) + Window(input, e, 24) == samples + Window(input, c, e + 24 - c)
  {
    WindowSplit(input, c, e - c, 24);
  }

  /** The poll count depends only on the levels the poll reads. */
  lemma {:induction false} WaitSamplesAgree(input: seq<bool>, input': seq<bool>, c: nat, n: nat)
    requires forall k: nat :: c <= k < c + WaitSamples(input, c, n) ==> Level(input, k) == Level(input', k)
    ensures WaitSamples(input, c, n) == WaitSamples(input', c, n)
    decreases n
  {
    if n > 0 && Level(input, c) {
      WaitSamplesAgree(input, input', c + 1, n - 1);
    }
  }

  /**
   * The discarded checksum byte does not influence the result: two sensor
   * scripts that differ only in the eight checksum reads give the same
   * measurement.
   */
  lemma ChecksumIgnored(input: seq<bool>, input': seq<bool>, c: nat)
    requires forall k: nat :: k < CommandEnd(input, c) + 16 ==> Level(input, k) == Level(input', k)
    ensures Measure(input, c) == Measure(input', c)
  {
    WaitSamplesAgree(input, input', c + 1, PollLimit);
    var e := CommandEnd(input, c);
    assert Window(input, e, 8) == Window(input', e, 8);
    assert Window(input, e + 8, 8) == Window(input', e + 8, 8);
  }

  /**
   * A sensor that keeps DATA high for h poll reads and then pulls it low
   * ends the wait after h + 1 reads and h ticks, provided h is below the
   * poll limit.
   */
  lemma {:induction false} WaitForReady(input: seq<bool>, c: nat, n: nat, h: nat)
    requires h < n
    requires forall k: nat :: c <= k < c + h ==> Level(input, k)
    requires !Level(input, c + h)
    ensures WaitSamples(input, c, n) == h + 1
    ensures WaitTicks(input, c, n) == h
    decreases h
  {
    if h > 0 {
      assert Level(input, c);
      WaitForReady(input, c + 1, n - 1, h - 1);
      WaitStepCounts(input, c, n);
    }
  }

  /**
   * A command that succeeds: ACK low, h high polls, then DATA low at the
   * end of the wait and at the read after it. No error is reported and the
   * command uses h + 3 reads and h ticks.
   */
  lemma CommandReady(input: seq<bool>, c: nat, h: nat)
    requires h < PollLimit
    requires !Level(input, c)
    requires forall k: nat :: c < k <= c + h ==> Level(input, k)
    requires !Level(input, c + h + 1) && !Level(input, c + h + 2)
    ensures CommandError(input, c) == 0
    ensures CommandEnd(input, c) == c + h + 3
    ensures WaitTicks(input, c + 1, PollLimit) == h
  {
    WaitForReady(input, c + 1, PollLimit, h);
  }

  /**
   * A successful command followed by the two result bytes: the count is
   * the high byte times 256 plus the low byte, and the measurement uses
   * h + 27 reads.
   */
  lemma MeasureReady(input: seq<bool>, c: nat, h: nat, hi: bv8, lo: bv8)
    requires h < PollLimit
    requires !Level(input, c)
    requires forall k: nat :: c < k <= c + h ==> Level(input, k)
    requires !Level(input, c + h + 1) && !Level(input, c + h + 2)
    requires Window(input, c + h + 3, 8) == BitsOf(hi) && Window(input, c + h + 11, 8) == BitsOf(lo)
    ensures Measure(input, c) == Some(Combine(hi, lo))
    ensures MeasureEnd(input, c) == c + h + 27
  {
    CommandReady(input, c, h);
    ByteOfBitsOf(hi);
    ByteOfBitsOf(lo);
  }

  /** Inside the script, a window is a slice of it. */
  lemma WindowInScript(input: seq<bool>, c: nat, n: nat)
    requires c + n <= |input|
    ensures Window(input, c, n) == input[c..c + n]
  {
    forall k | 0 <= k < n ensures Window(input, c, n)[k] == input[c..c + n][k] {
      assert Level(input, c + k) == input[c + k];
    }
  }

  /**
   * The temperature command acknowledged at once, completion signalled after
   * 50 poll ticks, bytes 0x21, 0x34 and checksum 0x00: raw count 0x2134 = 8500.
   */
  lemma TemperatureScenario()
    ensures var input := [false] + seq(50, _ => true) + [false, false] + BitsOf(0x21) + BitsOf(0x34) + BitsOf(0x00);
      Measure(input, 0) == Some(8500) && MeasureEnd(input, 0) == 77 &&
      WaitTicks(input, 1, PollLimit) == 50
  {
    var pre := [false] + seq(50, _ => true) + [false, false];
    var input := pre + BitsOf(0x21) + BitsOf(0x34) + BitsOf(0x00);
    assert |pre| == 53 && |input| == 77;
    forall k: nat | 0 < k <= 50 ensures Level(input, k) {
      assert input[k] == pre[k];
    }
    assert input[51] == pre[51] && input[52] == pre[52];
    WindowInScript(input, 53, 8);
    WindowInScript(input, 61, 8);
    assert input[53..61] == BitsOf(0x21);
    assert input[61..69] == BitsOf(0x34);
    MeasureReady(input, 0, 50, 0x21, 0x34);
    CommandReady(input, 0, 50);
  }

  // ---------------------------------------------------------------------
  // One cycle of the main loop.

  datatype Option<T> = None | Some(value: T)

  /** The raw temperature and humidity counts of one successful cycle. */
  datatype Reading = Reading(temp: bv16, humid: bv16)

  /** Temperature, then humidity; any failure abandons the whole cycle. */
  function CycleOutcome(input: seq<bool>, c: nat): Option<Reading>
  {
    match Measure(input, c)
    case None => None
    case Some(temp) =>
      match Measure(input, MeasureEnd(input, c))
      case None => None
      case Some(humid) => Some(Reading(temp, humid))
  }

  function CycleEnd(input: seq<bool>, c: nat): nat
  {
    if Measure(input, c).None? then MeasureEnd(input, c)
    else MeasureEnd(input, MeasureEnd(input, c))
  }

  function CycleTrace(input: seq<bool>, c: nat): seq<Event>
  {
    var rest := if Measure(input, c).None? then [] else MeasureTrace(input, MeasureEnd(input, c), MeasureHumidity);
    MeasureTrace(input, c, MeasureTemp) + rest
  }

  /**
   * A cycle reports a reading iff both commands succeed, the temperature
   * count being that of the first measurement and the humidity count that of
   * the second; a failed temperature command skips the humidity command.
   */
  lemma CycleReports(input: seq<bool>, c: nat)
    ensures CycleOutcome(input, c).Some? <==>
      CommandError(input, c) == 0 && CommandError(input, MeasureEnd(input, c)) == 0
    ensures CycleOutcome(input, c).Some? ==>
      CycleOutcome(input, c).value.temp == ReadResult(input, CommandEnd(input, c)) &&
      CycleOutcome(input, c).value.humid == ReadResult(input, CommandEnd(input, MeasureEnd(input, c)))
    ensures CommandError(input, c) != 0 ==>
      CycleEnd(input, c) == CommandEnd(input, c) &&
      CycleTrace(input, c) == CommandTrace(input, c, MeasureTemp) + ResetTrace()
  {
  }
}
