/** Folding live trades into a candle series (tests/real-time/lib/ohlcvSampler.js).
    The series is the caller's array of candles; a trade either opens a new candle
    aligned to the timeframe or updates the last one in place. The current time,
    read from the clock by the source, is a parameter here. */
module Sampler {
  import opened JsText

  /** One candle `[time, open, high, low, close, volume]`. */
  datatype Candle = Candle(ts: int, open: real, high: real, low: real, close: real, volume: real)

  /** A trade; its volume may be missing. */
  datatype Trade = Trade(price: real, volume: Option<real>)

  /** What `sample` returns: undefined for an empty series, true for a new candle,
      false for an update of the last one. */
  datatype Outcome = NoCandles | NewCandle | Updated

  /** The default timeframe: five minutes. */
  const DefaultTf: int := 300000

  /** `trade.volume || 0` */
  function TradeVolume(t: Trade): real
  {
    match t.volume
    case Some(v) => v
    case None => 0.0
  }

  /** A whole multiple of a positive number is at least that number away from zero. */
  lemma MulBounds(x: int, b: int)
    requires b > 0
    ensures x >= 1 ==> x * b >= b
    ensures x <= -1 ==> x * b <= -b
  {
  }

  /** A multiple of `b` leaves no remainder. */
  lemma MultipleHasNoRemainder(q: int, b: int)
    requires b > 0
    ensures (q * b) % b == 0
  {
    var d, m := (q * b) / b, (q * b) % b;
    assert (q - d) * b == m;
    MulBounds(q - d, b);
  }

  function Abs(b: int): int { if b < 0 then -b else b }

  /** JavaScript's `a % b`: the remainder takes the sign of the dividend and ignores
      the sign of the divisor. */
  function JsRem(a: int, b: int): (r: int)
    requires b != 0
    ensures a >= 0 ==> 0 <= r < Abs(b)
    ensures a < 0 ==> -Abs(b) < r <= 0
  {
    var m := Abs(b);
    if a >= 0 then a % m else -((-a) % m)
  }

  /** Taking away the JavaScript remainder leaves a multiple of the divisor's size. */
  lemma JsRemAligned(a: int, b: int)
    requires b != 0
    ensures (a - JsRem(a, b)) % Abs(b) == 0
  {
    var m := Abs(b);
    if a >= 0 {
      assert a - a % m == (a / m) * m;
      MultipleHasNoRemainder(a / m, m);
    } else {
      assert a + (-a) % m == -((-a) / m) * m;
      MultipleHasNoRemainder(-((-a) / m), m);
    }
  }

  /** The start of the timeframe bucket that contains `now`. */
  function BucketStart(now: int, tf: int): int
    requires tf != 0
  {
    now - JsRem(now, tf)
  }

  predicate WellFormed(c: Candle) {
    c.low <= c.open <= c.high && c.low <= c.close <= c.high
  }

  function Max(a: real, b: real): real { if a >= b then a else b }
  function Min(a: real, b: real): real { if a <= b then a else b }

  /** The series after one trade at time `now`, and the outcome. */
  function SampleStep(candles: seq<Candle>, trade: Trade, tf: int, now: int): (seq<Candle>, Outcome)
    requires tf != 0
  {
    if candles == [] then (candles, NoCandles)
    else
      var last := candles[|candles| - 1];
      var p := trade.price;
      if now >= last.ts + tf then
        (candles + [Candle(BucketStart(now, tf), p, p, p, p, TradeVolume(trade))], NewCandle)
      else
        var updated := last.(high := Max(p, last.high), low := Min(p, last.low),
                             close := p, volume := last.volume + TradeVolume(trade));
        (candles[..|candles| - 1] + [updated], Updated)
  }

  /** The caller's candle array, which `Sample` changes in place. */
  class Series {
    var candles: seq<Candle>

    constructor (initial: seq<Candle>)
      ensures candles == initial
    {
      candles := initial;
    }

    /** `sample(ohlcv, trade, tf)`, with the source's default timeframe. A negative
        timeframe is accepted as in the source: candles are then aligned to its size. */
    method Sample(trade: Trade, now: int, tf: int := DefaultTf) returns (r: Outcome)
      requires tf != 0
      modifies this
      ensures (candles, r) == SampleStep(old(candles), trade, tf, now)
      ensures r == NoCandles <==> old(candles) == []
      ensures r == NewCandle ==> |candles| == |old(candles)| + 1 && candles[..|old(candles)|] == old(candles)
      ensures r == Updated ==> |candles| == |old(candles)| && candles[..|candles| - 1] == old(candles)[..|candles| - 1]
    {
      if candles == [] {
        return NoCandles;
      }
      var last := candles[|candles| - 1];
      var tick := trade.price;
      var volume := TradeVolume(trade);
      var tNext := last.ts + tf;
      if now >= tNext {
        var t := now - JsRem(now, tf);
        candles := candles + [Candle(t, tick, tick, tick, tick, volume)];
        r := NewCandle;
      } else {
        var high := Max(tick, last.high);
        var low := Min(tick, last.low);
        ghost var before := candles;
        candles := candles[|candles| - 1 := Candle(last.ts, last.open, high, low, tick, last.volume + volume)];
        assert candles == before[..|before| - 1] + [candles[|candles| - 1]];
        r := Updated;
      }
    }
  }

  // ---------------------------------------------------------------------------
  // Properties

  /** The bucket start is a multiple of the timeframe's size no later than `now` and
      less than that size before it, for every non-negative time. */
  lemma BucketStartAligned(now: int, tf: int)
    requires tf != 0 && now >= 0
    ensures var t := BucketStart(now, tf); t % Abs(tf) == 0 && now - Abs(tf) < t <= now
  {
    JsRemAligned(now, tf);
  }

  /** Multiplying by a positive number keeps a strict order. */
  lemma MulCancelLess(a: int, b: int, c: int)
    requires c > 0 && a * c < b * c
    ensures a < b
  {
    assert (a - b) * c == a * c - b * c;
    MulBounds(a - b, c);
  }

  /** If the last candle was aligned, a new candle starts at least one timeframe after it. */
  lemma NewCandleAfterAlignedLast(last: int, now: int, tf: int)
    requires tf > 0 && now >= 0 && last % tf == 0
    requires now >= last + tf
    ensures BucketStart(now, tf) >= last + tf
  {
    var q := last / tf + 1;
    assert last + tf == q * tf;
    var p := now / tf;
    assert now == p * tf + now % tf;
    assert BucketStart(now, tf) == p * tf;
    assert q * tf < (p + 1) * tf;
    MulCancelLess(q, p + 1, tf);
    assert q * tf <= p * tf;
  }

  /** Once the timeframe boundary is crossed, exactly one aligned candle opened, high, low
      and closed at the trade price, holding the trade volume, is appended. */
  lemma SampleAppendsOnBoundary(candles: seq<Candle>, trade: Trade, tf: int, now: int)
    requires tf != 0 && candles != []
    requires now >= candles[|candles| - 1].ts + tf
    ensures var (after, r) := SampleStep(candles, trade, tf, now);
      var p := trade.price;
      r == NewCandle && after == candles + [Candle(BucketStart(now, tf), p, p, p, p, TradeVolume(trade))]
    ensures now >= 0 ==> var t := SampleStep(candles, trade, tf, now).0[|candles|].ts;
      t % Abs(tf) == 0 && now - Abs(tf) < t <= now
  {
    if now >= 0 {
      BucketStartAligned(now, tf);
    }
  }

  /** Inside the current timeframe only the last candle changes: its time and open stay,
      high and low take in the price, close becomes the price and volume grows by the
      trade volume (zero when missing). */
  lemma SampleUpdatesLast(candles: seq<Candle>, trade: Trade, tf: int, now: int)
    requires tf != 0 && candles != []
    requires now < candles[|candles| - 1].ts + tf
    ensures var (after, r) := SampleStep(candles, trade, tf, now);
      var n := |candles|;
      var (old_, new_) := (candles[n - 1], after[n - 1]);
      r == Updated && |after| == n && after[..n - 1] == candles[..n - 1] &&
      new_.ts == old_.ts && new_.open == old_.open &&
      new_.high >= trade.price && new_.high >= old_.high &&
      (new_.high == trade.price || new_.high == old_.high) &&
      new_.low <= trade.price && new_.low <= old_.low &&
      (new_.low == trade.price || new_.low == old_.low) &&
      new_.close == trade.price && new_.volume == old_.volume + TradeVolume(trade)
  {
  }

  /** An empty series is left alone. */
  lemma SampleEmpty(trade: Trade, tf: int, now: int)
    requires tf != 0
    ensures SampleStep([], trade, tf, now) == ([], NoCandles)
  {
  }

  /** Sampling keeps every candle well formed (low <= open, close <= high). */
  lemma SampleKeepsWellFormed(candles: seq<Candle>, trade: Trade, tf: int, now: int)
    requires tf != 0
    requires forall i :: 0 <= i < |candles| ==> WellFormed(candles[i])
    ensures var after := SampleStep(candles, trade, tf, now).0;
      forall i :: 0 <= i < |after| ==> WellFormed(after[i])
  {
    var after := SampleStep(candles, trade, tf, now).0;
    forall i | 0 <= i < |after| ensures WellFormed(after[i]) {
      if i < |candles| - 1 || (i < |candles| && after == candles + [after[|after| - 1]]) {
        assert after[i] == candles[i];
      }
    }
  }
}
