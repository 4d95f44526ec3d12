/** Sub-strategy B of the Bitcoin Alpha strategy
    (strategy/bitcoinalpha/bcasubb.py): a rule cascade that turns indicator
    readings into at most one exit signal per tick, a duplicate-signal filter,
    a candle cursor and the cursor arithmetic of the streaming hook. The
    indicators themselves are not modelled: their latest values are inputs. */
module SubStrategyB {
  import opened Outcomes
  import opened Signals

  /** A price candle of the instrument; `ended` when it is consolidated. */
  datatype Candle = Candle(timestamp: real, open: real, high: real, low: real, close: real, ended: bool)

  /** The Tom DeMark setup: its count `c` and its direction sign `d`. */
  datatype Setup = Setup(c: int, d: int)

  /** The indicator values the cascade reads once they are computed for the
      tick: the last RSI (on the 0..1 scale), EMA and SMA, the last close of
      the price series, and the Tom DeMark setup when that indicator is
      configured. */
  datatype Readings = Readings(rsi: real, ema: real, sma: real, close: real, tomdemark: Option<Setup>)

  function Sign(x: int): int
  {
    if x > 0 then 1 else if x < 0 then -1 else 0
  }

  /** The level-1 classification: below its SMA the EMA marks a bear trend with
      RSI bands 0.2/0.5, otherwise (equality included) a bull trend with bands
      0.6/0.8. An RSI above the upper band gives -1, below the lower band 1. */
  function Level1(ema: real, sma: real, rsi: real): (r: int)
    ensures r in {-1, 0, 1}
    ensures r == -1 <==> rsi > (if ema < sma then 0.5 else 0.8)
    ensures r == 1 <==> rsi < (if ema < sma then 0.2 else 0.6)
  {
    if ema < sma then
      if rsi > 0.5 then -1 else if rsi < 0.2 then 1 else 0
    else
      if rsi > 0.8 then -1 else if rsi < 0.6 then 1 else 0
  }

  /** The direction of the exit the Tom DeMark setup asks for, 0 for none: a
      complete setup (count 9) exits against its direction sign, a setup
      cancelled at count 3 to 5 exits along it. */
  function SetupExit(t: Setup): (dir: int)
    ensures dir in {-1, 0, 1}
    ensures t.c == 9 ==> dir == -Sign(t.d)
    ensures 3 <= t.c <= 5 ==> dir == Sign(t.d)
    ensures t.c != 9 && !(3 <= t.c <= 5) ==> dir == 0
  {
    if t.c == 9 && t.d < 0 then 1
    else if t.c == 9 && t.d > 0 then -1
    else if 3 <= t.c <= 5 && t.d > 0 then 1
    else if 3 <= t.c <= 5 && t.d < 0 then -1
    else 0
  }

  /** The override direction of a tick: that of the setup when the indicator
      is configured, else none. */
  function Override(r: Readings): int
  {
    if r.tomdemark.Some? then SetupExit(r.tomdemark.value) else 0
  }

  /** The signal of the level-1 rule: an exit of the longs when the
      classification is bearish, of the shorts when bullish, at `close`. */
  function Level1Signal(level1: int, tf: real, timestamp: real, close: real): Option<Signal>
  {
    if level1 < 0 then Some(Signal(SIGNAL_EXIT, 1, tf, timestamp, close))
    else if level1 > 0 then Some(Signal(SIGNAL_EXIT, -1, tf, timestamp, close))
    else None
  }

  /** The cascade of `process1`: the level-1 signal, replaced by the Tom DeMark
      signal whenever the setup asks for one (the last assignment wins).
      `candleClose` is the last candle's close, `r.close` the price series'
      last close. Every signal is an exit stamped with the strategy timeframe
      and the tick's timestamp. */
  function Cascade(tf: real, timestamp: real, candleClose: real, r: Readings): (signal: Option<Signal>)
    ensures signal.Some? ==>
      && signal.value.kind == SIGNAL_EXIT && signal.value.dir in {-1, 1}
      && signal.value.tf == tf && signal.value.timestamp == timestamp
    ensures signal.None? <==> Level1(r.ema, r.sma, r.rsi) == 0 && Override(r) == 0
    ensures Override(r) != 0 ==> signal.value.dir == Override(r) && signal.value.price == r.close
    ensures Override(r) == 0 && signal.Some? ==>
      signal.value.dir == -Level1(r.ema, r.sma, r.rsi) && signal.value.price == candleClose
  {
    var fromLevel1 := Level1Signal(Level1(r.ema, r.sma, r.rsi), tf, timestamp, candleClose);
    var o := Override(r);
    if o != 0 then Some(Signal(SIGNAL_EXIT, o, tf, timestamp, r.close)) else fromLevel1
  }

  /** Two signals fall in the same slot when kind, direction and base time
      agree. */
  predicate SameSlot(a: Signal, b: Signal, baseTime: BaseTime)
  {
    a.kind == b.kind && a.dir == b.dir && BaseTimeOf(a, baseTime) == BaseTimeOf(b, baseTime)
  }

  /** What the duplicate filter returns and retains. */
  datatype Deduped = Deduped(emitted: Option<Signal>, last: Option<Signal>)

  /** The duplicate filter of `process`: a candidate in the same slot as the
      retained signal is dropped and the retained one kept; any other
      candidate is emitted and retained. */
  function Dedup(last: Option<Signal>, candidate: Option<Signal>, baseTime: BaseTime): (r: Deduped)
    ensures r.emitted.None? ==> r.last == last
    ensures r.emitted.Some? ==> r.emitted == candidate && r.last == candidate
    ensures r.emitted.None? <==>
      candidate.None? || (last.Some? && SameSlot(candidate.value, last.value, baseTime))
  {
    if candidate.None? then Deduped(None, last)
    else if last.Some? && SameSlot(candidate.value, last.value, baseTime) then Deduped(None, last)
    else Deduped(candidate, candidate)
  }

  /** The cursor after a tick: the last candle's own timestamp while it is
      still open, the start of the next candle once it has ended. */
  function Cursor(last: Candle, tf: real): (next: real)
    requires tf > 0.0
    ensures last.timestamp <= next <= last.timestamp + tf
    ensures !last.ended ==> next == last.timestamp
    ensures next == last.timestamp + tf <==> last.ended
  {
    if !last.ended then last.timestamp else last.timestamp + tf
  }

  /** Python's `int()` of a float: truncation toward zero. */
  function Trunc(x: real): (r: int)
    ensures 0.0 <= x ==> 0 <= r && r as real <= x < r as real + 1.0
    ensures x < 0.0 ==> r <= 0 && r as real - 1.0 < x <= r as real
  {
    if x >= 0.0 then x.Floor else -((-x).Floor)
  }

  lemma PositiveProduct(a: real, b: real)
    requires 0.0 < a && 0.0 < b
    ensures 0.0 < a * b
  {
  }

  /** Dividing by a positive timeframe keeps the sign, and a gap of at least
      one timeframe backwards gives a quotient of at most -1. */
  lemma QuotientSign(x: real, tf: real)
    requires tf > 0.0
    ensures 0.0 <= x ==> 0.0 <= x / tf
    ensures x <= -tf ==> x / tf <= -1.0
  {
    var q := x / tf;
    assert q * tf == x;
    if 0.0 <= x {
      NonNegativeFactor(q, tf);
    }
    if x <= -tf {
      assert (q + 1.0) * tf == x + tf;
      NonPositiveFactor(q + 1.0, tf);
    }
  }

  lemma NonNegativeFactor(a: real, b: real)
    requires 0.0 < b && 0.0 <= a * b
    ensures 0.0 <= a
  {
    if a < 0.0 {
      PositiveProduct(-a, b);
      assert false;
    }
  }

  lemma NonPositiveFactor(a: real, b: real)
    requires 0.0 < b && a * b <= 0.0
    ensures a <= 0.0
  {
    if a > 0.0 {
      PositiveProduct(a, b);
      assert false;
    }
  }

  /** The `delta` of `stream`: the whole timeframes between the streamer's
      cursor and the strategy's, plus one, capped by the samples available. */
  function Delta(next: real, streamed: real, tf: real, available: nat): (delta: int)
    requires tf > 0.0
    ensures delta <= available
    ensures streamed <= next ==> delta >= 0 && (available > 0 ==> delta >= 1)
    ensures next <= streamed - tf ==> delta <= 0
  {
    QuotientSign(next - streamed, tf);
    var d := Trunc((next - streamed) / tf) + 1;
    if d < available then d else available
  }

  /** A streamer exactly `k` timeframes behind receives `k + 1` frames (the
      candle it stopped at is sent again), or every available one. */
  lemma DeltaCatchesUp(next: real, streamed: real, tf: real, available: nat, k: nat)
    requires tf > 0.0
    requires next - streamed == k as real * tf
    ensures Delta(next, streamed, tf, available) == if k + 1 < available then k + 1 else available
  {
    assert (next - streamed) / tf == k as real;
    assert Trunc(k as real) == k;
  }

  /** The frames `stream` sends: one per candle, the `count` most recent ones,
      oldest first. */
  function Trailing(timestamps: seq<real>, count: int): (frames: seq<real>)
    requires count <= |timestamps|
    ensures |frames| == if count > 0 then count else 0
    ensures forall j :: 0 <= j < |frames| ==> frames[j] == timestamps[|timestamps| - |frames| + j]
  {
    if count > 0 then timestamps[|timestamps| - count..] else []
  }

  /** The sink of the streaming hook: its own cursor and the frames pushed to
      it, each identified by its candle timestamp. */
  class Streamer {
    var nextTimestamp: real
    var frames: seq<real>

    constructor (nextTimestamp: real)
      ensures this.nextTimestamp == nextTimestamp && frames == []
    {
      this.nextTimestamp := nextTimestamp;
      frames := [];
    }

    /** Flushes the frame of the candle at `ts`. */
    method Push(ts: real)
      modifies this`frames
      ensures frames == old(frames) + [ts]
    {
      frames := frames + [ts];
    }
  }

  class SubB {
    const tf: real
    const depth: int
    const baseTime: BaseTime
    var nextTimestamp: real
    var lastSignal: Option<Signal>
    var trend: int
    var canLong: bool
    var canShort: bool

    /** The side flags always follow the trend, and at least one side stays
        tradeable. */
    ghost predicate Valid()
      reads this
    {
      && tf > 0.0 && depth >= 1
      && trend in {-1, 0, 1}
      && canLong == (trend >= 0) && canShort == (trend <= 0)
    }

    constructor (tf: real, depth: int, baseTime: BaseTime, nextTimestamp: real)
      requires tf > 0.0 && depth >= 1
      ensures Valid()
      ensures this.tf == tf && this.depth == depth && this.baseTime == baseTime
      ensures this.nextTimestamp == nextTimestamp && lastSignal.None? && trend == 0
    {
      this.tf := tf;
      this.depth := depth;
      this.baseTime := baseTime;
      this.nextTimestamp := nextTimestamp;
      lastSignal := None;
      trend := 0;
      canLong, canShort := true, true;
    }

    /** `process1`: the rule cascade written as successive overwrites of one
        signal, which also records the level-1 trend and the side flags. */
    method Process1(timestamp: real, candles: seq<Candle>, readings: Readings) returns (signal: Option<Signal>)
      requires Valid() && |candles| > 0
      modifies this`trend, this`canLong, this`canShort
      ensures Valid()
      ensures signal == Cascade(tf, timestamp, candles[|candles| - 1].close, readings)
      ensures trend == Level1(readings.ema, readings.sma, readings.rsi)
      ensures canLong || canShort
      ensures canLong && canShort <==> trend == 0
    {
      signal := None;
      var level1Signal := 0;
      if readings.ema < readings.sma {
        if readings.rsi > 0.5 {
          level1Signal := -1;
        } else if readings.rsi < 0.2 {
          level1Signal := 1;
        }
      } else {
        if readings.rsi > 0.8 {
          level1Signal := -1;
        } else if readings.rsi < 0.6 {
          level1Signal := 1;
        }
      }
      var close := candles[|candles| - 1].close;
      if level1Signal < 0 {
        signal := Some(Signal(SIGNAL_EXIT, 1, tf, timestamp, close));
        trend := -1;
      } else if level1Signal > 0 {
        signal := Some(Signal(SIGNAL_EXIT, -1, tf, timestamp, close));
        trend := 1;
      } else {
        trend := 0;
      }
      canLong := trend >= 0;
      canShort := trend <= 0;
      if readings.tomdemark.Some? {
        var td := readings.tomdemark.value;
        if td.c == 9 && td.d < 0 {
          signal := Some(Signal(SIGNAL_EXIT, 1, tf, timestamp, readings.close));
        } else if td.c == 9 && td.d > 0 {
          signal := Some(Signal(SIGNAL_EXIT, -1, tf, timestamp, readings.close));
        } else if 3 <= td.c <= 5 && td.d > 0 {
          signal := Some(Signal(SIGNAL_EXIT, 1, tf, timestamp, readings.close));
        } else if 3 <= td.c <= 5 && td.d < 0 {
          signal := Some(Signal(SIGNAL_EXIT, -1, tf, timestamp, readings.close));
        }
      }
    }

    /** `process`: with fewer candles than the depth nothing happens; otherwise
        the cascade runs, the cursor moves to the last candle, and the
        candidate goes through the duplicate filter against the retained
        signal. `candles` is what the candle source returned for the window
        starting `depth` timeframes before the cursor. */
    method Process(timestamp: real, candles: seq<Candle>, readings: Readings) returns (signal: Option<Signal>)
      requires Valid()
      modifies this`nextTimestamp, this`lastSignal, this`trend, this`canLong, this`canShort
      ensures Valid()
      ensures |candles| < depth ==>
        && signal.None? && nextTimestamp == old(nextTimestamp) && lastSignal == old(lastSignal)
        && trend == old(trend) && canLong == old(canLong) && canShort == old(canShort)
      ensures |candles| >= depth ==>
        var d := Dedup(old(lastSignal), Cascade(tf, timestamp, candles[|candles| - 1].close, readings), baseTime);
        && signal == d.emitted && lastSignal == d.last
        && nextTimestamp == Cursor(candles[|candles| - 1], tf)
        && trend == Level1(readings.ema, readings.sma, readings.rsi)
    {
      if |candles| < depth {
        return None;
      }
      signal := Process1(timestamp, candles, readings);
      var last := candles[|candles| - 1];
      nextTimestamp := if !last.ended then last.timestamp else last.timestamp + tf;
      if signal.Some? {
        if lastSignal.Some? && signal.value.kind == lastSignal.value.kind
           && signal.value.dir == lastSignal.value.dir
           && baseTime(signal.value.tf, signal.value.timestamp)
              == baseTime(lastSignal.value.tf, lastSignal.value.timestamp) {
          signal := None;
        } else {
          lastSignal := signal;
        }
      }
    }

    /** `stream`: sends the frames of the last `delta` candles, oldest first,
        then moves the streamer's cursor to the strategy's. `timestamps` are
        the candle timestamps of the price series. */
    method Stream(streamer: Streamer, timestamps: seq<real>)
      requires Valid()
      modifies streamer
      ensures streamer.frames
        == old(streamer.frames) + Trailing(timestamps, Delta(nextTimestamp, old(streamer.nextTimestamp), tf, |timestamps|))
      ensures streamer.nextTimestamp == nextTimestamp
    {
      var n := |timestamps|;
      var delta := Delta(nextTimestamp, streamer.nextTimestamp, tf, n);
      var i := -delta;
      while i < 0
        invariant delta > 0 ==> -delta <= i <= 0
        invariant delta <= 0 ==> i == -delta
        invariant streamer.frames == old(streamer.frames) + (if delta > 0 then timestamps[n - delta..n + i] else [])
      {
        streamer.Push(timestamps[n + i]);
        i := i + 1;
      }
      streamer.nextTimestamp := nextTimestamp;
    }
  }
}
