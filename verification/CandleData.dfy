/** Candles and what the data API of one bar answers from them. */
module CandleData {
  import opened Basics

  datatype Bar = Bar(ts: int, open: real, high: real, low: real, close: real, volume: real)

  // ---------------------------------------------------------------- candle accessors

  /** `candles.slice(max(0, t - lookback), t)`; a negative lookback starts past `t` and yields nothing. */
  function ClosedBefore(candles: seq<Bar>, t: nat, lookback: int): (r: seq<Bar>)
    requires t <= |candles|
    ensures |r| == Max(0, Min(t, lookback))
    ensures forall i :: 0 <= i < |r| ==> r[i] == candles[t - |r| + i]
  {
    var start := Max(0, t - lookback);
    if start <= t then candles[start..t] else []
  }

  /** The per-bar data API keeps the last answered window; the memo is private to one bar. */
  class DataApi {
    const candles: seq<Bar>
    const t: nat
    var lastLookback: int
    var lastSlice: Option<seq<Bar>>

    ghost predicate Valid() reads this {
      t <= |candles| && (lastSlice.Some? ==> lastSlice.value == ClosedBefore(candles, t, lastLookback))
    }

    constructor (candles: seq<Bar>, t: nat)
      requires t <= |candles|
      ensures Valid() && this.candles == candles && this.t == t
    {
      this.candles, this.t := candles, t;
      lastLookback, lastSlice := -1, None;
    }

    /** The memo is invisible: whatever was asked before, the answer is the window strictly before `t`. */
    method ClosedCandles(lookback: int) returns (r: seq<Bar>)
      requires Valid()
      modifies this
      ensures Valid()
      ensures r == ClosedBefore(candles, t, lookback)
    {
      if lookback == lastLookback && lastSlice.Some? {
        return lastSlice.value;
      }
      var start := if t - lookback > 0 then t - lookback else 0;
      r := if start <= t then candles[start..t] else [];
      lastSlice := Some(r);
      lastLookback := lookback;
    }
  }

  function SumCloses(candles: seq<Bar>, lo: nat, hi: nat): (r: real)
    requires lo <= hi <= |candles|
  {
    if lo == hi then 0.0 else SumCloses(candles, lo, hi - 1) + candles[hi - 1].close
  }

  /** Simple moving average of the closes `[t - period + 1, t]`. */
  function Sma(candles: seq<Bar>, t: nat, period: int): (r: Option<real>)
    requires t < |candles|
    ensures r.Some? <==> 0 < period <= t + 1
  {
    if period <= 0 || t - period + 1 < 0 then None
    else Some(SumCloses(candles, t - period + 1, t + 1) / period as real)
  }

  method SmaAsOf(candles: seq<Bar>, t: nat, period: int) returns (r: Option<real>)
    requires t < |candles|
    ensures r == Sma(candles, t, period)
  {
    if period <= 0 { return None; }
    var start := t - period + 1;
    if start < 0 { return None; }
    var sum := 0.0;
    var i := start;
    while i <= t
      invariant start <= i <= t + 1
      invariant sum == SumCloses(candles, start, i)
    {
      sum := sum + candles[i].close;
      i := i + 1;
    }
    r := Some(sum / period as real);
  }

  // ---------------------------------------------------------------- locality in time

  lemma {:induction false} SumClosesLocal(a: seq<Bar>, b: seq<Bar>, lo: nat, hi: nat)
    requires lo <= hi <= |a| && hi <= |b| && a[..hi] == b[..hi]
    ensures SumCloses(a, lo, hi) == SumCloses(b, lo, hi)
    decreases hi
  {
    if lo < hi {
      assert a[..hi - 1] == a[..hi][..hi - 1] && b[..hi - 1] == b[..hi][..hi - 1];
      assert a[hi - 1] == a[..hi][hi - 1] == b[..hi][hi - 1] == b[hi - 1];
      SumClosesLocal(a, b, lo, hi - 1);
    }
  }
}
