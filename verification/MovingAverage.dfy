/** The streaming moving average: a ring buffer, the formula over it, and its agreement with the direct
    average of the last closes. */
module MovingAverage {
  import opened Basics
  import opened CandleData
  import opened Indicators

  // ---------------------------------------------------------------- windows

  /** The window after one more element: at capacity the oldest element leaves. */
  function Slid(w: seq<real>, x: real, capacity: nat): seq<real> {
    if |w| < capacity || w == [] then w + [x] else w[1..] + [x]
  }

  /** The sum from the oldest to the newest. */
  function SumOf(w: seq<real>): real {
    if w == [] then 0.0 else SumOf(w[..|w| - 1]) + w[|w| - 1]
  }

  function MeanOf(w: seq<real>, period: nat): Option<real> {
    if |w| < period || period == 0 then None else Some(SumOf(w) / period as real)
  }

  /** Where cell `i` of the window lies in a ring whose oldest cell is `head`. */
  function Cell(head: nat, i: nat, capacity: nat): (r: nat)
    requires head < capacity && i <= capacity
    ensures r < capacity
  {
    if head + i < capacity then head + i else head + i - capacity
  }

  lemma CellIsModulo(head: nat, i: nat, capacity: nat)
    requires head < capacity && i <= capacity
    ensures (head + i) % capacity == Cell(head, i, capacity)
  {
    var k := if head + i < capacity then 0 else 1;
    var r := Cell(head, i, capacity);
    assert head + i == k * capacity + r;
    Remainder(head + i, capacity, k, r);
  }

  lemma Remainder(x: nat, d: nat, k: nat, r: nat)
    requires x == k * d + r && r < d && k <= 1
    ensures x % d == r
  {
  }

  /** The ring's own index arithmetic. */
  function Wrap(head: nat, i: nat, capacity: nat): (r: nat)
    requires head < capacity && i <= capacity
    ensures r == Cell(head, i, capacity)
  {
    CellIsModulo(head, i, capacity);
    (head + i) % capacity
  }

  /** The window stored in a ring. */
  function Window(buf: seq<real>, head: nat, len: nat): (r: seq<real>)
    requires head < |buf| && len <= |buf|
    ensures |r| == len && forall i :: 0 <= i < len ==> r[i] == buf[Cell(head, i, |buf|)]
  {
    seq(len, i requires 0 <= i < len => buf[Cell(head, i, |buf|)])
  }

  lemma PushGrows(buf: seq<real>, head: nat, len: nat, x: real)
    requires head < |buf| && len < |buf|
    ensures Window(buf[Cell(head, len, |buf|) := x], head, len + 1) == Window(buf, head, len) + [x]
  {
  }

  lemma PushTurns(buf: seq<real>, head: nat, x: real)
    requires head < |buf|
    ensures Window(buf[head := x], Cell(head, 1, |buf|), |buf|) == Window(buf, head, |buf|)[1..] + [x]
  {
  }

  class RingWindow {
    const capacity: nat
    const buf: array<real>
    var head: nat
    var len: nat

    ghost predicate Valid() reads this {
      capacity >= 1 && buf.Length == capacity && head < capacity && len <= capacity
    }

    ghost function Contents(): (r: seq<real>)
      requires Valid()
      reads this, buf
    {
      Window(buf[..], head, len)
    }

    constructor (capacity: nat)
      requires capacity >= 1
      ensures Valid() && fresh(buf) && this.capacity == capacity && Contents() == []
    {
      this.capacity := capacity;
      buf := new real[capacity](_ => 0.0);
      head, len := 0, 0;
    }

    method Push(x: real)
      requires Valid()
      modifies this, buf
      ensures Valid() && Contents() == Slid(old(Contents()), x, capacity)
    {
      hide Window, Cell, Wrap;
      ghost var before := buf[..];
      if len < capacity {
        PushGrows(before, head, len, x);
        buf[Wrap(head, len, capacity)] := x;
        len := len + 1;
        assert buf[..] == before[Cell(head, len - 1, capacity) := x];
        return;
      }
      PushTurns(before, head, x);
      buf[head] := x;
      assert buf[..] == before[head := x];
      head := Wrap(head, 1, capacity);
    }

    method Sum() returns (s: real)
      requires Valid()
      ensures s == SumOf(Contents())
    {
      hide Wrap;
      s := 0.0;
      var i := 0;
      while i < len
        invariant 0 <= i <= len && s == SumOf(Contents()[..i])
      {
        assert Contents()[..i + 1][..i] == Contents()[..i];
        s := s + buf[Wrap(head, i, capacity)];
        i := i + 1;
      }
      assert Contents()[..len] == Contents();
    }

    /** The formula's value: absent until the window is full. */
    method Mean() returns (v: Option<real>)
      requires Valid()
      ensures v == MeanOf(Contents(), capacity)
    {
      if len < capacity { return None; }
      var s := Sum();
      v := Some(s / capacity as real);
    }
  }

  // ---------------------------------------------------------------- the formula as a streaming instance

  const SMA: Name := Name("sma")
  const PERIOD: Name := Name("period")

  function SourceValue(bar: Bar, source: Source): real {
    match source
    case Close => bar.close
    case Open => bar.open
    case High => bar.high
    case Low => bar.low
    case Volume => bar.volume
    case Hlc3 => (bar.high + bar.low + bar.close) / 3.0
    case Ohlc4 => (bar.open + bar.high + bar.low + bar.close) / 4.0
  }

  function SmaStart(period: nat, source: Source): Instance {
    SmaInstance(period, source, [])
  }

  function SmaUpdate(i: Instance, bar: Bar): Instance
    requires i.SmaInstance?
  {
    i.(window := Slid(i.window, SourceValue(bar, i.source), i.period))
  }

  function SmaValue(i: Instance): Option<Value>
    requires i.SmaInstance?
  {
    var mean := MeanOf(i.window, i.period);
    if mean.Some? then Some(Scalar(mean.value)) else None
  }

  /** A backend whose moving average is this formula, whatever its other indicators are. */
  ghost predicate NativeSma(adapter: Adapter) {
    (forall key: Key :: key.name == SMA && PERIOD in key.params && key.params[PERIOD] >= 1.0 ==>
       adapter.create(key) == SmaStart(key.params[PERIOD].Floor, key.source)) &&
    (forall i: Instance, bar: Bar :: i.SmaInstance? ==> adapter.update(i, bar) == SmaUpdate(i, bar)) &&
    forall i: Instance :: i.SmaInstance? ==> adapter.value(i) == SmaValue(i)
  }

  /** The catalog entry: one required whole parameter of at least one, closes by default. */
  ghost predicate CatalogsSma(def: Definition) {
    def.name == SMA && def.paramNames == [PERIOD] && def.schema == map[PERIOD := ParamSpec(true, Some(1.0), None, None)] &&
    |def.sources| > 0 && def.sources[0] == Close && forall p: Params :: def.consistent(p)
  }

  function Sources(candles: seq<Bar>, source: Source, lo: nat, hi: nat): (r: seq<real>)
    requires lo <= hi <= |candles|
    ensures |r| == hi - lo && forall i :: 0 <= i < |r| ==> r[i] == SourceValue(candles[lo + i], source)
  {
    seq(hi - lo, i requires 0 <= i < hi - lo => SourceValue(candles[lo + i], source))
  }

  /** After `n` candles the window holds the sources of the last `period` of them, oldest first. */
  lemma {:induction false} WindowIsLast(adapter: Adapter, key: Key, candles: seq<Bar>, n: nat, period: nat)
    requires NativeSma(adapter) && key.name == SMA && PERIOD in key.params && key.params[PERIOD] == period as real && period >= 1
    requires n <= |candles|
    ensures Fed(adapter, key, candles, n) == SmaInstance(period, key.source, Sources(candles, key.source, Max(0, n - period), n))
  {
    hide Slid, SourceValue;
    if n == 0 {
      assert adapter.create(key) == SmaStart(period, key.source);
      assert Sources(candles, key.source, 0, 0) == [];
    } else {
      WindowIsLast(adapter, key, candles, n - 1, period);
      var before := SmaInstance(period, key.source, Sources(candles, key.source, Max(0, n - 1 - period), n - 1));
      assert adapter.update(before, candles[n - 1]) == SmaUpdate(before, candles[n - 1]);
      SlideSources(candles, key.source, n, period);
    }
  }

  lemma SlideSources(candles: seq<Bar>, source: Source, n: nat, period: nat)
    requires 1 <= n <= |candles| && period >= 1
    ensures Slid(Sources(candles, source, Max(0, n - 1 - period), n - 1), SourceValue(candles[n - 1], source), period) ==
            Sources(candles, source, Max(0, n - period), n)
  {
    hide SourceValue;
  }

  lemma {:induction false} SumsAgree(candles: seq<Bar>, lo: nat, hi: nat)
    requires lo <= hi <= |candles|
    ensures SumOf(Sources(candles, Close, lo, hi)) == SumCloses(candles, lo, hi)
    decreases hi
  {
    if lo < hi {
      var w := Sources(candles, Close, lo, hi);
      assert w[..|w| - 1] == Sources(candles, Close, lo, hi - 1);
      SumsAgree(candles, lo, hi - 1);
    }
  }

  /** What the legacy call asks for, and when it is accepted. */
  lemma SmaRequest(def: Definition, n: nat)
    requires CatalogsSma(def)
    ensures Positional(def.paramNames, [n as real], 1) == map[PERIOD := n as real]
    ensures var req := Request(SMA, map[PERIOD := n as real], None);
            KeyOf(def, req) == Key(SMA, map[PERIOD := n as real], Close) && (Accepts(def, req) <==> n >= 1)
  {
    var params: Params := map[PERIOD := n as real];
    assert Positional(def.paramNames, [n as real], 0) == map[];
    assert Defaults(def) == map[];
    assert Resolved(def, params) == params;
    assert (n as real).Floor == n;
    assert ParamsFine(def, params) <==> Fine(def.schema[PERIOD], n as real) by { assert PERIOD in params; }
  }

  /** The value the streaming instance shows at bar `t`. */
  lemma SmaValueAsOf(adapter: Adapter, candles: seq<Bar>, t: nat, n: nat)
    requires t < |candles| && NativeSma(adapter) && n >= 1
    ensures var direct := Sma(candles, t, n);
            ValueAsOf(adapter, Key(SMA, map[PERIOD := n as real], Close), candles, t) == if direct.Some? then Some(Scalar(direct.value)) else None
  {
    hide Fed;
    var key := Key(SMA, map[PERIOD := n as real], Close);
    WindowIsLast(adapter, key, candles, t + 1, n);
    SumsAgree(candles, Max(0, t + 1 - n), t + 1);
    var i := SmaInstance(n, Close, Sources(candles, Close, Max(0, t + 1 - n), t + 1));
    assert adapter.value(i) == SmaValue(i);
  }

  /** `value('sma', n)` of the streaming engine equals `indicatorAsOf('sma_n')`, at every bar and for every n. */
  lemma StreamingEqualsDirect(ind: Indicators, candles: seq<Bar>, t: nat, n: nat)
    requires t < |candles| && NativeSma(ind.adapter)
    requires Find(ind.catalog, SMA).Some? && CatalogsSma(Find(ind.catalog, SMA).value)
    ensures LegacyAnswer(ind, candles, t, SMA, [n as real]) == Sma(candles, t, n)
  {
    hide Find, Accepts, KeyOf, Positional, ValueAsOf, NativeSma, CatalogsSma;
    SmaRequest(Find(ind.catalog, SMA).value, n);
    if n >= 1 {
      SmaValueAsOf(ind.adapter, candles, t, n);
    }
    assert LegacyAnswer(ind, candles, t, SMA, [n as real]) == Sma(candles, t, n);
  }
}
