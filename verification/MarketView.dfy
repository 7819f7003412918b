/** What a strategy can see of the market at bar `t`: the point-in-time data, indicator and market
    accessors, and the hooks that may only reach the tape by asking them. */
module MarketView {
  import opened Basics
  import opened CandleData
  import opened FundingColumn
  import I = Indicators

  datatype Oi = Oi(ts: int, totalUsd: real)
  datatype Liq = Liq(ts: int, longUsd: real, shortUsd: real)
  datatype Taker = Taker(ts: int, buyUsd: real, sellUsd: real)

  /** One symbol of a materialized market tape; an absent column means the kind is not carried. */
  datatype Tape = Tape(grid: seq<int>, oi: Option<map<int, Oi>>, liq: Option<map<int, Liq>>,
                       funding: Option<seq<Funding>>, taker: Option<map<int, Taker>>)
  {
    predicate CarriesMarket() {
      oi.Some? || liq.Some? || funding.Some? || taker.Some?
    }
  }

  /** One symbol's data, with the indicator catalog and formulas that are evaluated over it. */
  datatype View = View(candles: seq<Bar>, tape: Option<Tape>, indicators: I.Indicators)

  datatype Query =
    | ClosedCandles(lookback: int)
    | IndicatorAsOf(period: int)
    | IndicatorQuery(request: I.Request)
    | IndicatorValue(name: I.Name, args: seq<real>)
    | HasOi | HasLiq
    | OiAsOf | LiqAsOf | FundingAsOf | TakerAsOf
    | OiWindow(lookback: int) | LiqWindow(lookback: int)
    | FundingWindow(lookback: int) | TakerWindow(lookback: int)

  datatype Answer =
    | Candles(bars: seq<Bar>)
    | Number(value: Option<real>)
    | Queried(result: Result<Option<I.Value>, I.Refusal>)
    | Flag(flag: bool)
    | OiPoint(oi: Option<Oi>) | OiPoints(ois: seq<Option<Oi>>)
    | LiqPoint(liq: Option<Liq>) | LiqPoints(liqs: seq<Option<Liq>>)
    | TakerPoint(taker: Option<Taker>) | TakerPoints(takers: seq<Option<Taker>>)
    | FundingRead(reading: Reading) | FundingPoints(points: seq<Option<Funding>>)
    | NotOffered

  // ---------------------------------------------------------------- market accessors

  function IndexOf(grid: seq<int>, ts: int): (r: int)
    ensures -1 <= r < |grid|
    ensures r == -1 ==> ts !in grid
    ensures r >= 0 ==> grid[r] == ts && forall i :: 0 <= i < r ==> grid[i] != ts
  {
    if grid == [] then -1
    else
      var r := IndexOf(grid[..|grid| - 1], ts);
      if r >= 0 then r else if grid[|grid| - 1] == ts then |grid| - 1 else -1
  }

  /** Grid position of bar `t`: the bar index itself when aligned, a search otherwise. */
  function GridIndex(grid: seq<int>, t: nat, ts: int): int {
    if t < |grid| && grid[t] == ts then t else IndexOf(grid, ts)
  }

  function WindowMinutes(grid: seq<int>, idx: int, lookback: int): (r: seq<int>)
    requires idx < |grid|
  {
    if idx < 0 || lookback <= 0 then [] else grid[Max(0, idx - lookback + 1)..idx + 1]
  }

  function At<T>(column: map<int, T>, ts: int): Option<T> {
    if ts in column then Some(column[ts]) else None
  }

  function Slots<T>(column: map<int, T>, minutes: seq<int>): (r: seq<Option<T>>)
    ensures |r| == |minutes|
    ensures forall i :: 0 <= i < |r| ==> r[i] == At(column, minutes[i])
  {
    seq(|minutes|, i requires 0 <= i < |minutes| => At(column, minutes[i]))
  }

  function FundingSlot(dense: seq<Funding>, grid: seq<int>, j: nat): Option<Funding>
    requires j < |grid|
  {
    match ReadingAt(dense, Column(dense, grid), grid, grid[j], j, None)
    case Missing => None
    case Stale(p) => Some(p)
    case Present(p) => Some(p)
  }

  function FundingSlots(dense: seq<Funding>, grid: seq<int>, idx: int, lookback: int): (r: seq<Option<Funding>>)
    requires idx < |grid|
  {
    if idx < 0 || lookback <= 0 then []
    else
      var start := Max(0, idx - lookback + 1);
      seq(idx + 1 - start, i requires 0 <= i < idx + 1 - start => FundingSlot(dense, grid, start + i))
  }

  predicate AsksMarket(q: Query) {
    !q.ClosedCandles? && !q.IndicatorAsOf? && !q.IndicatorQuery? && !q.IndicatorValue?
  }

  function MarketAnswer(tape: Tape, t: nat, ts: int, q: Query): (r: Answer)
    requires AsksMarket(q)
  {
    var idx := GridIndex(tape.grid, t, ts);
    match q
    case HasOi => Flag(tape.oi.Some? && idx >= 0)
    case HasLiq => Flag(tape.liq.Some? && idx >= 0)
    case OiAsOf => OiPoint(if tape.oi.None? || idx < 0 then None else At(tape.oi.value, ts))
    case LiqAsOf => LiqPoint(if tape.liq.None? || idx < 0 then None else At(tape.liq.value, ts))
    case OiWindow(l) =>
      OiPoints(if tape.oi.None? then [] else Slots(tape.oi.value, WindowMinutes(tape.grid, idx, l)))
    case LiqWindow(l) =>
      LiqPoints(if tape.liq.None? then [] else Slots(tape.liq.value, WindowMinutes(tape.grid, idx, l)))
    case TakerAsOf =>
      if tape.taker.None? then NotOffered
      else TakerPoint(if idx < 0 then None else At(tape.taker.value, ts))
    case TakerWindow(l) =>
      if tape.taker.None? then NotOffered
      else TakerPoints(Slots(tape.taker.value, WindowMinutes(tape.grid, idx, l)))
    case FundingAsOf =>
      if tape.funding.None? then NotOffered
      else
        var dense := tape.funding.value;
        FundingRead(ReadingAt(dense, Column(dense, tape.grid), tape.grid, ts, idx, None))
    case FundingWindow(l) =>
      if tape.funding.None? then NotOffered
      else FundingPoints(FundingSlots(tape.funding.value, tape.grid, idx, l))
  }

  /** Every way a hook can look at the tape from bar `t`. */
  function AnswerAt(view: View, t: nat, q: Query): (r: Answer)
    requires t < |view.candles|
  {
    match q
    case ClosedCandles(lookback) => Candles(ClosedBefore(view.candles, t, lookback))
    case IndicatorAsOf(period) => Number(Sma(view.candles, t, period))
    case IndicatorQuery(request) => Queried(I.QueryAnswer(view.indicators, view.candles, t, request))
    case IndicatorValue(name, args) => Number(I.LegacyAnswer(view.indicators, view.candles, t, name, args))
    case _ =>
      if view.tape.None? || !view.tape.value.CarriesMarket() then NotOffered
      else MarketAnswer(view.tape.value, t, view.candles[t].ts, q)
  }

  // ---------------------------------------------------------------- hooks

  /** State a strategy module and its overlays keep for one symbol, random source included. */
  type ModuleState(!new)

  /** A hook run: it returns, or asks one question and goes on with the answer. An answer the hook
      has no continuation for ends it with the given fallback. */
  datatype Hook<+R> =
    | Return(state: ModuleState, result: R)
    | Ask(query: Query, next: imap<Answer, Hook<R>>, state: ModuleState, result: R)

  function Interpret<R>(view: View, t: nat, hook: Hook<R>): (r: (ModuleState, R))
    requires t < |view.candles|
    decreases hook
  {
    match hook
    case Return(m, r) => (m, r)
    case Ask(q, next, m, r) =>
      var a := AnswerAt(view, t, q);
      if a in next then Interpret(view, t, next[a]) else (m, r)
  }

  // ---------------------------------------------------------------- hooks over the live accessors

  /** The objects behind a context: the engine lives through the whole run, the data API for one bar. */
  ghost predicate Serves(view: View, t: nat, engine: I.IndicatorEngine, data: DataApi)
    reads engine, data
  {
    t < |view.candles| && engine.Valid() && engine.candles == view.candles && engine.ind == view.indicators &&
    data.Valid() && data.candles == view.candles && data.t == t
  }

  /** One question put to the live accessors, whatever they remember from before. */
  method AskLive(view: View, t: nat, q: Query, engine: I.IndicatorEngine, data: DataApi) returns (a: Answer)
    requires Serves(view, t, engine, data)
    modifies engine, data
    ensures Serves(view, t, engine, data) && a == AnswerAt(view, t, q)
  {
    match q
    case ClosedCandles(lookback) =>
      var bars := data.ClosedCandles(lookback);
      a := Candles(bars);
    case IndicatorAsOf(period) =>
      var mean := SmaAsOf(view.candles, t, period);
      a := Number(mean);
    case IndicatorQuery(request) =>
      var result := engine.QueryAt(t, request);
      a := Queried(result);
    case IndicatorValue(name, args) =>
      var number := engine.ValueAt(t, name, args);
      a := Number(number);
    case _ =>
      a := if view.tape.None? || !view.tape.value.CarriesMarket() then NotOffered
           else MarketAnswer(view.tape.value, t, view.candles[t].ts, q);
  }

  /** A hook run on the live accessors does what its meaning says: their memory is invisible to it. */
  method RunLive<R>(view: View, t: nat, hook: Hook<R>, engine: I.IndicatorEngine, data: DataApi) returns (state: ModuleState, result: R)
    requires Serves(view, t, engine, data)
    modifies engine, data
    ensures Serves(view, t, engine, data) && (state, result) == Interpret(view, t, hook)
    decreases hook
  {
    match hook
    case Return(m, r) => return m, r;
    case Ask(q, next, m, r) =>
      var a := AskLive(view, t, q, engine, data);
      if a in next {
        state, result := RunLive(view, t, next[a], engine, data);
      } else {
        state, result := m, r;
      }
  }

  // ---------------------------------------------------------------- no lookahead, accessor by accessor

  ghost predicate MapsAgree<T(!new)>(a: Option<map<int, T>>, b: Option<map<int, T>>, upTo: int) {
    a.Some? == b.Some? &&
    (a.Some? ==> forall ts: int :: ts <= upTo ==> At(a.value, ts) == At(b.value, ts))
  }

  ghost predicate TapesAgree(a: Tape, b: Tape, upTo: int) {
    StrictlyAscending(a.grid) && StrictlyAscending(b.grid) &&
    SameMinutesThrough(a.grid, b.grid, upTo) &&
    MapsAgree(a.oi, b.oi, upTo) && MapsAgree(a.liq, b.liq, upTo) && MapsAgree(a.taker, b.taker, upTo) &&
    a.funding.Some? == b.funding.Some? &&
    (a.funding.Some? ==> AgreeThrough(a.funding.value, b.funding.value, upTo))
  }

  /** The two views carry the same kinds and hold the same data up to and including bar `t`. */
  ghost predicate SameThrough(v: View, w: View, t: nat) {
    t < |v.candles| && t < |w.candles| && v.candles[..t + 1] == w.candles[..t + 1] &&
    (forall i, j :: 0 <= i < j <= t ==> v.candles[i].ts < v.candles[j].ts) &&
    v.indicators == w.indicators &&
    v.tape.Some? == w.tape.Some? &&
    (v.tape.Some? ==> TapesAgree(v.tape.value, w.tape.value, v.candles[t].ts))
  }

  lemma EarlierAgreement(v: View, w: View, t: nat, u: nat)
    requires SameThrough(v, w, t) && u <= t
    ensures SameThrough(v, w, u)
  {
  }

  lemma GridPosition(g: seq<int>, h: seq<int>, t: nat, ts: int)
    requires StrictlyAscending(g) && StrictlyAscending(h) && SameMinutesThrough(g, h, ts)
    ensures var idx := GridIndex(g, t, ts);
            idx == GridIndex(h, t, ts) == IndexOf(g, ts) && idx < |g| && idx < |h| &&
            (idx >= 0 ==> idx < Cut(g, ts) && g[..idx + 1] == h[..idx + 1])
  {
    CutsAgree(g, h, ts);
    var k := Cut(g, ts);
    var i, j := IndexOf(g, ts), IndexOf(h, ts);
    if i >= 0 {
      assert i < k && h[i] == h[..k][i] == g[..k][i] == ts;
      assert g[..i + 1] == g[..k][..i + 1] && h[..i + 1] == h[..k][..i + 1];
    } else {
      assert ts !in g;
    }
  }

  lemma ReadingIsLocal(d: seq<Funding>, e: seq<Funding>, g: seq<int>, h: seq<int>, upTo: int, ts: int, idx: int,
                       cadenceMs: Option<int>)
    requires AgreeThrough(d, e, upTo) && SameMinutesThrough(g, h, upTo) && ts <= upTo
    requires 0 <= idx - 1 < |g| <==> 0 <= idx - 1 < |h|
    requires 0 <= idx - 1 < |g| ==> g[idx - 1] == h[idx - 1] && g[idx - 1] <= upTo
    ensures ReadingAt(d, Column(d, g), g, ts, idx, cadenceMs) == ReadingAt(e, Column(e, h), h, ts, idx, cadenceMs)
  {
    ColumnIsLocal(d, e, g, h, upTo, ts);
    if 0 <= idx - 1 < |g| {
      assert Covered(d, g[idx - 1]) == Covered(e, h[idx - 1]);
    }
  }

  lemma FundingSlotIsLocal(d: seq<Funding>, e: seq<Funding>, g: seq<int>, h: seq<int>, upTo: int, idx: nat, j: nat)
    requires AgreeThrough(d, e, upTo) && SameMinutesThrough(g, h, upTo)
    requires idx < |g| && idx < |h| && g[..idx + 1] == h[..idx + 1] && j <= idx
    requires forall i :: 0 <= i <= idx ==> g[i] <= upTo
    ensures FundingSlot(d, g, j) == FundingSlot(e, h, j)
  {
    assert g[j] == g[..idx + 1][j] == h[..idx + 1][j] == h[j];
    if j > 0 {
      assert g[j - 1] == g[..idx + 1][j - 1] == h[..idx + 1][j - 1] == h[j - 1];
    }
    ReadingIsLocal(d, e, g, h, upTo, g[j], j, None);
  }

  lemma FundingAnswersLocal(d: seq<Funding>, e: seq<Funding>, g: seq<int>, h: seq<int>, ts: int, idx: int, lookback: int)
    requires AgreeThrough(d, e, ts) && SameMinutesThrough(g, h, ts) && idx < |g| && idx < |h|
    requires idx >= 0 ==> g[..idx + 1] == h[..idx + 1] && forall i :: 0 <= i <= idx ==> g[i] <= ts
    ensures ReadingAt(d, Column(d, g), g, ts, idx, None) == ReadingAt(e, Column(e, h), h, ts, idx, None)
    ensures FundingSlots(d, g, idx, lookback) == FundingSlots(e, h, idx, lookback)
  {
    if idx > 0 {
      assert g[idx - 1] == g[..idx + 1][idx - 1] == h[..idx + 1][idx - 1] == h[idx - 1];
    }
    ReadingIsLocal(d, e, g, h, ts, ts, idx, None);
    if idx >= 0 && lookback > 0 {
      var start := Max(0, idx - lookback + 1);
      var x, y := FundingSlots(d, g, idx, lookback), FundingSlots(e, h, idx, lookback);
      forall i | 0 <= i < idx + 1 - start ensures x[i] == y[i] {
        FundingSlotIsLocal(d, e, g, h, ts, idx, start + i);
      }
      assert x == y;
    }
  }

  lemma WindowAnswersLocal(a: Tape, b: Tape, ts: int, idx: int, lookback: int)
    requires MapsAgree(a.oi, b.oi, ts) && MapsAgree(a.liq, b.liq, ts) && MapsAgree(a.taker, b.taker, ts)
    requires idx < |a.grid| && idx < |b.grid|
    requires idx >= 0 ==> a.grid[..idx + 1] == b.grid[..idx + 1] && forall i :: 0 <= i <= idx ==> a.grid[i] <= ts
    ensures var ma, mb := WindowMinutes(a.grid, idx, lookback), WindowMinutes(b.grid, idx, lookback);
            && (a.oi.Some? ==> Slots(a.oi.value, ma) == Slots(b.oi.value, mb))
            && (a.liq.Some? ==> Slots(a.liq.value, ma) == Slots(b.liq.value, mb))
            && (a.taker.Some? ==> Slots(a.taker.value, ma) == Slots(b.taker.value, mb))
  {
  }

  lemma MarketAnswerIsLocal(a: Tape, b: Tape, t: nat, ts: int, q: Query)
    requires TapesAgree(a, b, ts)
    requires AsksMarket(q)
    ensures MarketAnswer(a, t, ts, q) == MarketAnswer(b, t, ts, q)
  {
    GridPosition(a.grid, b.grid, t, ts);
    var idx := GridIndex(a.grid, t, ts);
    assert idx >= 0 ==> idx < Cut(a.grid, ts);
    hide *;
    assert idx == GridIndex(b.grid, t, ts);
    match q
    case OiWindow(l) => WindowAnswersLocal(a, b, ts, idx, l);
    case LiqWindow(l) => WindowAnswersLocal(a, b, ts, idx, l);
    case TakerWindow(l) => WindowAnswersLocal(a, b, ts, idx, l);
    case FundingAsOf =>
      if a.funding.Some? { FundingAnswersLocal(a.funding.value, b.funding.value, a.grid, b.grid, ts, idx, 0); }
    case FundingWindow(l) =>
      if a.funding.Some? { FundingAnswersLocal(a.funding.value, b.funding.value, a.grid, b.grid, ts, idx, l); }
    case _ =>
  }

  lemma CandlesAreLocal(a: seq<Bar>, b: seq<Bar>, t: nat, lookback: int, period: int)
    requires t < |a| && t < |b| && a[..t + 1] == b[..t + 1]
    ensures ClosedBefore(a, t, lookback) == ClosedBefore(b, t, lookback) && Sma(a, t, period) == Sma(b, t, period)
  {
    var x, y := ClosedBefore(a, t, lookback), ClosedBefore(b, t, lookback);
    forall i | 0 <= i < |x| ensures x[i] == y[i] {
      var j := t - |x| + i;
      assert a[j] == a[..t + 1][j] == b[..t + 1][j] == b[j];
    }
    if 0 < period <= t + 1 {
      SumClosesLocal(a, b, t - period + 1, t + 1);
    }
  }

  /** No accessor reveals anything after the bar it is asked from. */
  lemma AnswerIsLocal(v: View, w: View, t: nat, q: Query)
    requires SameThrough(v, w, t)
    ensures AnswerAt(v, t, q) == AnswerAt(w, t, q)
  {
    hide ClosedBefore, Sma, I.QueryAnswer, I.LegacyAnswer, MarketAnswer, TapesAgree;
    assert v.candles[t] == v.candles[..t + 1][t] == w.candles[..t + 1][t] == w.candles[t];
    match q {
      case ClosedCandles(lookback) => CandlesAreLocal(v.candles, w.candles, t, lookback, 0);
      case IndicatorAsOf(period) => CandlesAreLocal(v.candles, w.candles, t, 0, period);
      case IndicatorQuery(request) => I.IndicatorsAreLocal(v.indicators, v.candles, w.candles, t, request, request.name, []);
      case IndicatorValue(name, args) => I.IndicatorsAreLocal(v.indicators, v.candles, w.candles, t, I.Request(name, map[], None), name, args);
      case _ =>
        if v.tape.Some? {
          SameMarket(v.tape.value, w.tape.value, v.candles[t].ts);
          MarketAnswerIsLocal(v.tape.value, w.tape.value, t, v.candles[t].ts, q);
        }
    }
    assert AnswerAt(v, t, q) == AnswerAt(w, t, q);
  }

  lemma SameMarket(a: Tape, b: Tape, upTo: int)
    requires TapesAgree(a, b, upTo)
    ensures a.CarriesMarket() == b.CarriesMarket()
  {
  }

  /** Hence no hook, however it chooses its questions, can tell the two views apart at bar `t`. */
  lemma {:induction false} HookIsLocal<R>(v: View, w: View, t: nat, hook: Hook<R>)
    requires SameThrough(v, w, t)
    ensures Interpret(v, t, hook) == Interpret(w, t, hook)
    decreases hook
  {
    match hook
    case Return(_, _) =>
    case Ask(q, next, _, _) =>
      AnswerIsLocal(v, w, t, q);
      var a := AnswerAt(v, t, q);
      if a in next {
        HookIsLocal(v, w, t, next[a]);
      }
  }
}
