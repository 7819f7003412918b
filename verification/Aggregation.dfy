/** One equity curve and one set of artifact lists out of the per-symbol runs. */
module Aggregation {
  import opened Basics
  import opened MarketView
  import opened TradingEngine
  import opened BarLoop
  import opened BarRecords
  import opened BarMajor
  import Merge

  const INITIAL_EQUITY: real := 10000.0

  // ---------------------------------------------------------------- what the aggregate should be

  /** The latest equity at or before `ts`, scanning back from the end; the initial equity before the
      first bar. */
  function LatestEquity(curve: seq<EquityPoint>, ts: int): real {
    if curve == [] then INITIAL_EQUITY
    else if curve[|curve| - 1].barTs <= ts then curve[|curve| - 1].equity
    else LatestEquity(curve[..|curve| - 1], ts)
  }

  function LatestSum(curves: seq<seq<EquityPoint>>, n: nat, ts: int): real
    requires n <= |curves|
  {
    if n == 0 then 0.0 else LatestSum(curves, n - 1, ts) + LatestEquity(curves[n - 1], ts)
  }

  function FinalEquity(curve: seq<EquityPoint>): real {
    if curve == [] then INITIAL_EQUITY else curve[|curve| - 1].equity
  }

  function FinalSum(curves: seq<seq<EquityPoint>>, n: nat): real
    requires n <= |curves|
  {
    if n == 0 then 0.0 else FinalSum(curves, n - 1) + FinalEquity(curves[n - 1])
  }

  ghost predicate Ascends(curve: seq<EquityPoint>) {
    forall i, j :: 0 <= i < j < |curve| ==> curve[i].barTs <= curve[j].barTs
  }

  function CurveTimes(curve: seq<EquityPoint>): (r: seq<int>)
    ensures |r| == |curve| && forall i :: 0 <= i < |r| ==> r[i] == curve[i].barTs
  {
    seq(|curve|, i requires 0 <= i < |curve| => curve[i].barTs)
  }

  function AllTimes(curves: seq<seq<EquityPoint>>): (r: seq<int>)
    ensures forall s, i :: 0 <= s < |curves| && 0 <= i < |curves[s]| ==> curves[s][i].barTs in r
    ensures forall ts :: ts in r ==> Timed(curves, ts)
  {
    if curves == [] then []
    else
      var n := |curves| - 1;
      var before := AllTimes(curves[..n]);
      var r := before + CurveTimes(curves[n]);
      assert forall ts :: ts in r <==> ts in before || ts in CurveTimes(curves[n]);
      assert forall i :: 0 <= i < |curves[n]| ==> CurveTimes(curves[n])[i] in r;
      assert forall ts :: ts in before ==> Timed(curves[..n], ts) && Timed(curves, ts);
      assert forall ts :: ts in CurveTimes(curves[n]) ==> Timed(curves, ts);
      r
  }

  ghost predicate Timed(curves: seq<seq<EquityPoint>>, ts: int) {
    exists s, i :: 0 <= s < |curves| && 0 <= i < |curves[s]| && curves[s][i].barTs == ts
  }

  /** The equity of the last point that is not later than `ts`, and the initial equity where there is none. */
  lemma {:induction false} LatestLaw(curve: seq<EquityPoint>, ts: int, i: nat)
    requires i <= |curve| && (forall k :: i <= k < |curve| ==> curve[k].barTs > ts) && (i > 0 ==> curve[i - 1].barTs <= ts)
    ensures LatestEquity(curve, ts) == if i == 0 then 10000.0 else curve[i - 1].equity
    decreases |curve|
  {
    if i < |curve| {
      LatestLaw(curve[..|curve| - 1], ts, i);
    }
  }

  /** A curve that is added adds what it holds, wherever in the list it stands. */
  lemma {:induction false} SumLaw(a: seq<seq<EquityPoint>>, curve: seq<EquityPoint>, b: seq<seq<EquityPoint>>, n: nat, ts: int)
    requires n <= |b|
    ensures LatestSum(a + [curve] + b, |a| + 1 + n, ts) == LatestSum(a + b, |a| + n, ts) + LatestEquity(curve, ts)
    ensures FinalSum(a + [curve] + b, |a| + 1 + n) == FinalSum(a + b, |a| + n) + (if curve == [] then 10000.0 else curve[|curve| - 1].equity)
    ensures LatestSum([], 0, ts) == 0.0 == FinalSum([], 0)
    decreases n
  {
    hide LatestEquity;
    var x, y := a + [curve] + b, a + b;
    if n > 0 {
      SumLaw(a, curve, b, n - 1, ts);
      assert x[|a| + n] == b[n - 1] == y[|a| + n - 1];
    } else {
      SamePrefix(x, y, |a|, ts);
      assert x[|a|] == curve;
    }
  }

  lemma {:induction false} SamePrefix(x: seq<seq<EquityPoint>>, y: seq<seq<EquityPoint>>, n: nat, ts: int)
    requires n <= |x| && n <= |y| && forall i :: 0 <= i < n ==> x[i] == y[i]
    ensures LatestSum(x, n, ts) == LatestSum(y, n, ts) && FinalSum(x, n) == FinalSum(y, n)
  {
    hide LatestEquity;
    if n > 0 {
      SamePrefix(x, y, n - 1, ts);
    }
  }

  // ---------------------------------------------------------------- the pointer sweep

  /** Where a pointer standing at `i` stops for the time `ts`. */
  function Reach(curve: seq<EquityPoint>, i: nat, ts: int): (r: nat)
    requires i <= |curve|
    ensures i <= r <= |curve| && forall k :: i <= k < r ==> curve[k].barTs <= ts
    ensures r < |curve| ==> curve[r].barTs > ts
    decreases |curve| - i
  {
    if i < |curve| && curve[i].barTs <= ts then Reach(curve, i + 1, ts) else i
  }

  function EquityBefore(curve: seq<EquityPoint>, i: nat): real
    requires i <= |curve|
  {
    if i == 0 then INITIAL_EQUITY else curve[i - 1].equity
  }

  /** What the sweep holds for a curve at `ts`, for curves in any order. */
  function Held(curve: seq<EquityPoint>, ts: int): real {
    EquityBefore(curve, Reach(curve, 0, ts))
  }

  function HeldSum(curves: seq<seq<EquityPoint>>, n: nat, ts: int): real
    requires n <= |curves|
  {
    if n == 0 then 0.0 else HeldSum(curves, n - 1, ts) + Held(curves[n - 1], ts)
  }

  /** Starting from where an earlier time left the pointer makes no difference. */
  lemma ReachResumes(curve: seq<EquityPoint>, j: nat, i: nat, ts: int)
    requires j <= i <= |curve| && forall k :: 0 <= k < i ==> curve[k].barTs <= ts
    ensures Reach(curve, j, ts) == Reach(curve, i, ts)
    decreases i - j
  {
  }

  /** On a curve in time order the sweep holds the latest equity at or before `ts`. */
  lemma {:induction false} HeldIsLatest(curve: seq<EquityPoint>, ts: int)
    requires Ascends(curve)
    ensures Held(curve, ts) == LatestEquity(curve, ts)
  {
    if curve != [] {
      var n := |curve| - 1;
      var r := Reach(curve, 0, ts);
      if curve[n].barTs <= ts {
        assert r == |curve|;
      } else {
        HeldIsLatest(curve[..n], ts);
        assert r <= n;
        SameReach(curve, n, 0, ts);
      }
    }
  }

  lemma SameReach(curve: seq<EquityPoint>, n: nat, i: nat, ts: int)
    requires i <= n < |curve| && curve[n].barTs > ts
    ensures Reach(curve, i, ts) == Reach(curve[..n], i, ts)
    decreases n - i
  {
  }

  lemma {:induction false} SumIsLatest(curves: seq<seq<EquityPoint>>, n: nat, ts: int)
    requires n <= |curves| && forall s :: 0 <= s < |curves| ==> Ascends(curves[s])
    ensures HeldSum(curves, n, ts) == LatestSum(curves, n, ts)
  {
    if n > 0 {
      SumIsLatest(curves, n - 1, ts);
      HeldIsLatest(curves[n - 1], ts);
    }
  }

  /** At or after every bar, each curve contributes its final equity. */
  lemma {:induction false} SumIsFinal(curves: seq<seq<EquityPoint>>, n: nat, ts: int)
    requires n <= |curves| && forall s, i :: 0 <= s < |curves| && 0 <= i < |curves[s]| ==> curves[s][i].barTs <= ts
    ensures HeldSum(curves, n, ts) == FinalSum(curves, n)
  {
    if n > 0 {
      SumIsFinal(curves, n - 1, ts);
      var r := Reach(curves[n - 1], 0, ts);
      assert r == |curves[n - 1]|;
    }
  }

  /** A pointer and the equity it last passed, at some time not after `ts`. */
  ghost predicate Swept(curve: seq<EquityPoint>, ptr: nat, last: real, ts: int) {
    ptr <= |curve| && last == EquityBefore(curve, ptr) && forall k :: 0 <= k < ptr ==> curve[k].barTs <= ts
  }

  /** The inner loop: pointer `s` moves past every bar at or before `ts`; the others stay. */
  method SweepOne(curve: seq<EquityPoint>, ptr: array<nat>, last: array<real>, s: nat, ts: int)
    requires ptr.Length == last.Length && s < ptr.Length && Swept(curve, ptr[s], last[s], ts)
    modifies ptr, last
    ensures ptr[..] == old(ptr[..])[s := ptr[s]] && last[..] == old(last[..])[s := last[s]]
    ensures Swept(curve, ptr[s], last[s], ts) && last[s] == Held(curve, ts)
  {
    ReachResumes(curve, 0, ptr[s], ts);
    while ptr[s] < |curve| && curve[ptr[s]].barTs <= ts
      invariant ptr[..] == old(ptr[..])[s := ptr[s]] && last[..] == old(last[..])[s := last[s]]
      invariant Swept(curve, ptr[s], last[s], ts) && Reach(curve, ptr[s], ts) == Reach(curve, 0, ts)
      decreases |curve| - ptr[s]
    {
      last[s] := curve[ptr[s]].equity;
      ptr[s] := ptr[s] + 1;
    }
  }

  ghost predicate AllSwept(curves: seq<seq<EquityPoint>>, ptr: seq<nat>, last: seq<real>, ts: int) {
    |ptr| == |last| == |curves| && forall s :: 0 <= s < |curves| ==> Swept(curves[s], ptr[s], last[s], ts)
  }

  method SweepTo(curves: seq<seq<EquityPoint>>, ptr: array<nat>, last: array<real>, ts: int) returns (sum: real)
    requires AllSwept(curves, ptr[..], last[..], ts)
    modifies ptr, last
    ensures sum == HeldSum(curves, |curves|, ts) && AllSwept(curves, ptr[..], last[..], ts)
  {
    hide Swept, Held;
    sum := 0.0;
    var s := 0;
    while s < |curves|
      invariant 0 <= s <= |curves| && sum == HeldSum(curves, s, ts) && AllSwept(curves, ptr[..], last[..], ts)
    {
      assert Swept(curves[s], ptr[..][s], last[..][s], ts);
      SweepOne(curves[s], ptr, last, s, ts);
      sum := sum + last[s];
      s := s + 1;
    }
  }

  lemma LaterSwept(curves: seq<seq<EquityPoint>>, ptr: seq<nat>, last: seq<real>, ts: int, later: int)
    requires AllSwept(curves, ptr, last, ts) && ts <= later
    ensures AllSwept(curves, ptr, last, later)
  {
  }

  lemma NoneSwept(curves: seq<seq<EquityPoint>>, ptr: seq<nat>, last: seq<real>, ts: int)
    requires |ptr| == |last| == |curves| && forall s :: 0 <= s < |curves| ==> ptr[s] == 0 && last[s] == INITIAL_EQUITY
    ensures AllSwept(curves, ptr, last, ts)
  {
  }

  /** `aggregateEquityCurve`: one point per distinct time, strictly increasing, holding the sum of what
      each curve reached; the last point is the sum of the final equities. */
  method AggregateEquityCurve(curves: seq<seq<EquityPoint>>) returns (out: seq<EquityPoint>)
    ensures CurveTimes(out) == Distinct(AllTimes(curves))
    ensures forall u :: 0 <= u < |out| ==> out[u].barIndex == u && out[u].equity == HeldSum(curves, |curves|, out[u].barTs)
    ensures (forall s :: 0 <= s < |curves| ==> Ascends(curves[s])) ==>
              forall u :: 0 <= u < |out| ==> out[u].equity == LatestSum(curves, |curves|, out[u].barTs)
    ensures out != [] ==> out[|out| - 1].equity == FinalSum(curves, |curves|)
  {
    hide Distinct, AllTimes, HeldSum, AllSwept, LatestSum, FinalSum;
    var union := Distinct(AllTimes(curves));
    var ptr := new nat[|curves|](_ => 0);
    var last := new real[|curves|](_ => INITIAL_EQUITY);
    if |union| > 0 { NoneSwept(curves, ptr[..], last[..], union[0]); }
    out := [];
    var u := 0;
    while u < |union|
      invariant 0 <= u <= |union| && |out| == u
      invariant forall v :: 0 <= v < u ==> out[v] == EquityPoint(v, union[v], HeldSum(curves, |curves|, union[v]))
      invariant u < |union| ==> AllSwept(curves, ptr[..], last[..], union[u])
    {
      var ts := union[u];
      var sum := SweepTo(curves, ptr, last, ts);
      out := out + [EquityPoint(u, ts, sum)];
      u := u + 1;
      if u < |union| { LaterSwept(curves, ptr[..], last[..], ts, union[u]); }
    }
    AggregateMeans(curves, out);
  }

  /** What the swept points mean. */
  lemma AggregateMeans(curves: seq<seq<EquityPoint>>, out: seq<EquityPoint>)
    requires |out| == |Distinct(AllTimes(curves))|
    requires forall v :: 0 <= v < |out| ==> out[v] == EquityPoint(v, Distinct(AllTimes(curves))[v], HeldSum(curves, |curves|, Distinct(AllTimes(curves))[v]))
    ensures CurveTimes(out) == Distinct(AllTimes(curves))
    ensures (forall s :: 0 <= s < |curves| ==> Ascends(curves[s])) ==>
              forall u :: 0 <= u < |out| ==> out[u].equity == LatestSum(curves, |curves|, out[u].barTs)
    ensures out != [] ==> out[|out| - 1].equity == FinalSum(curves, |curves|)
  {
    hide Distinct, AllTimes, HeldSum, LatestSum, FinalSum;
    var union := Distinct(AllTimes(curves));
    forall v | 0 <= v < |out| && (forall s :: 0 <= s < |curves| ==> Ascends(curves[s]))
      ensures out[v].equity == LatestSum(curves, |curves|, out[v].barTs)
    {
      SumIsLatest(curves, |curves|, out[v].barTs);
    }
    if out != [] {
      LastIsLatest(curves, union);
      SumIsFinal(curves, |curves|, union[|union| - 1]);
    }
    assert CurveTimes(out) == union;
  }

  lemma LastIsLatest(curves: seq<seq<EquityPoint>>, union: seq<int>)
    requires union == Distinct(AllTimes(curves)) && union != []
    ensures forall s, i :: 0 <= s < |curves| && 0 <= i < |curves[s]| ==> curves[s][i].barTs <= union[|union| - 1]
  {
    forall s, i | 0 <= s < |curves| && 0 <= i < |curves[s]| ensures curves[s][i].barTs <= union[|union| - 1] {
      assert curves[s][i].barTs in union;
    }
  }

  // ---------------------------------------------------------------- the lists a run produces

  function DecisionTs(r: DecisionRecord): int { r.barTs }
  function FillTs(f: Fill): int { f.ts }
  function TradeTs(t: Trade): int { t.exitTs }
  function FundingTs(f: FundingEntry): int { f.ts }
  function OrderKey(o: Order): int { o.decisionBar }
  function RiskKey(r: RiskRecord): int { r.barIndex }

  lemma ByBarThenByTime<T(!new)>(env: Env, list: seq<T>, bar: T -> nat, ts: T -> int)
    requires TimesIncrease(env) && InOrder(list, bar, env.Bars())
    requires forall i :: 0 <= i < |list| ==> bar(list[i]) < env.Bars() && ts(list[i]) == env.view.candles[bar(list[i])].ts
    ensures Merge.Presorted(list, ts)
  {
  }

  /** When a symbol's bar times increase, every list its run produces is already sorted by the key it
      is merged by, and its equity curve is in time order: the fast path is taken. */
  lemma RunListsPresorted(env: Env, s: SymState)
    requires TimesIncrease(env) && Quiet(s.pf) && s.acc == NoRecords && env.Bars() > 0
    ensures var a := Run(env, s).acc;
            Merge.Presorted(a.decisions, DecisionTs) && Merge.Presorted(a.fills, FillTs) && Merge.Presorted(a.trades, TradeTs) &&
            Merge.Presorted(a.funding, FundingTs) && Merge.Presorted(a.orders, OrderKey) && Merge.Presorted(a.risks, RiskKey) && Ascends(a.equity)
  {
    hide Run;
    RunDated(env, s);
    DatedPresorted(env, Run(env, s).acc);
  }

  lemma DatedPresorted(env: Env, a: Accumulators)
    requires TimesIncrease(env) && Dated(env, a, env.Bars()) && TimesMatch(env, a)
    ensures Merge.Presorted(a.decisions, DecisionTs) && Merge.Presorted(a.fills, FillTs) && Merge.Presorted(a.trades, TradeTs) &&
            Merge.Presorted(a.funding, FundingTs) && Merge.Presorted(a.orders, OrderKey) && Merge.Presorted(a.risks, RiskKey) && Ascends(a.equity)
  {
    ByBarThenByTime(env, a.decisions, DecisionBar, DecisionTs);
    ByBarThenByTime(env, a.fills, FillBar, FillTs);
    ByBarThenByTime(env, a.trades, TradeBar, TradeTs);
    ByBarThenByTime(env, a.funding, FundingBar, FundingTs);
    forall i, j | 0 <= i < j < |a.orders| ensures OrderKey(a.orders[i]) <= OrderKey(a.orders[j]) {
      assert OrderBar(a.orders[i]) <= OrderBar(a.orders[j]);
    }
    forall i, j | 0 <= i < j < |a.risks| ensures RiskKey(a.risks[i]) <= RiskKey(a.risks[j]) {
      assert RiskBar(a.risks[i]) <= RiskBar(a.risks[j]);
    }
  }

  // ---------------------------------------------------------------- merging whole runs

  datatype MergedAccumulators = MergedAccumulators(
    equity: seq<EquityPoint>, trades: seq<Trade>, decisions: seq<DecisionRecord>, fills: seq<Fill>,
    funding: seq<FundingEntry>, orders: seq<Order>, risks: seq<RiskRecord>, issues: seq<Issue>)

  function Decisions(a: Accumulators): seq<DecisionRecord> { a.decisions }
  function Orders(a: Accumulators): seq<Order> { a.orders }
  function Fills(a: Accumulators): seq<Fill> { a.fills }
  function Risks(a: Accumulators): seq<RiskRecord> { a.risks }
  function Trades(a: Accumulators): seq<Trade> { a.trades }
  function Curve(a: Accumulators): seq<EquityPoint> { a.equity }
  function Funding(a: Accumulators): seq<FundingEntry> { a.funding }
  function Issues(a: Accumulators): seq<Issue> { a.issues }

  function Each<T>(all: seq<Accumulators>, pick: Accumulators -> seq<T>): (r: seq<seq<T>>)
    ensures |r| == |all| && forall s :: 0 <= s < |r| ==> r[s] == pick(all[s])
  {
    seq(|all|, s requires 0 <= s < |all| => pick(all[s]))
  }

  /** `concatBySymbol`. */
  function Concat<T>(lists: seq<seq<T>>): seq<T> {
    if lists == [] then [] else Concat(lists[..|lists| - 1]) + lists[|lists| - 1]
  }

  /** Every list is the ordered merge of the symbols' lists; issues, which carry no key, are appended
      symbol by symbol; the equity curve sums what the symbols' curves hold, once per distinct time. */
  ghost predicate MergeOf(all: seq<Accumulators>, r: MergedAccumulators) {
    Merge.Merged(Each(all, Trades), TradeTs, r.trades) && Merge.Merged(Each(all, Decisions), DecisionTs, r.decisions) &&
    Merge.Merged(Each(all, Fills), FillTs, r.fills) && Merge.Merged(Each(all, Funding), FundingTs, r.funding) &&
    Merge.Merged(Each(all, Orders), OrderKey, r.orders) && Merge.Merged(Each(all, Risks), RiskKey, r.risks) &&
    r.issues == Concat(Each(all, Issues)) && CurveOf(Each(all, Curve), r.equity)
  }

  ghost predicate CurveOf(curves: seq<seq<EquityPoint>>, out: seq<EquityPoint>) {
    CurveTimes(out) == Distinct(AllTimes(curves)) &&
    forall u :: 0 <= u < |out| ==> out[u].barIndex == u && out[u].equity == HeldSum(curves, |curves|, out[u].barTs)
  }

  /** The merge is a function of the symbols' lists alone. */
  lemma MergeUnique(all: seq<Accumulators>, a: MergedAccumulators, b: MergedAccumulators)
    requires MergeOf(all, a) && MergeOf(all, b)
    ensures a == b
  {
    hide Merge.Merged, CurveOf;
    Merge.MergedUnique(Each(all, Trades), TradeTs, a.trades, b.trades);
    Merge.MergedUnique(Each(all, Decisions), DecisionTs, a.decisions, b.decisions);
    Merge.MergedUnique(Each(all, Fills), FillTs, a.fills, b.fills);
    Merge.MergedUnique(Each(all, Funding), FundingTs, a.funding, b.funding);
    Merge.MergedUnique(Each(all, Orders), OrderKey, a.orders, b.orders);
    Merge.MergedUnique(Each(all, Risks), RiskKey, a.risks, b.risks);
    CurveUnique(Each(all, Curve), a.equity, b.equity);
  }

  lemma CurveUnique(curves: seq<seq<EquityPoint>>, a: seq<EquityPoint>, b: seq<EquityPoint>)
    requires CurveOf(curves, a) && CurveOf(curves, b)
    ensures a == b
  {
  }

  // ---------------------------------------------------------------- the merge, field by field

  /** Equal values keep symbol order, and within a symbol list order. */
  predicate PlacedBefore(p: Merge.Place, q: Merge.Place) {
    p.list < q.list || (p.list == q.list && p.pos < q.pos)
  }

  /** `out` reads off the symbols' orders, each once, ascending in `decisionBar`. */
  ghost predicate OrdersPlaced(all: seq<Accumulators>, out: seq<Order>, places: seq<Merge.Place>) {
    |places| == |out| && (forall p: Merge.Place :: p in places <==> p.list < |all| && p.pos < |all[p.list].orders|) &&
    (forall i :: 0 <= i < |out| ==> places[i] in places && out[i] == all[places[i].list].orders[places[i].pos]) &&
    forall i, j :: 0 <= i < j < |out| ==>
      out[i].decisionBar < out[j].decisionBar || (out[i].decisionBar == out[j].decisionBar && PlacedBefore(places[i], places[j]))
  }

  /** `out` reads off the symbols' risks, each once, ascending in `barIndex`. */
  ghost predicate RisksPlaced(all: seq<Accumulators>, out: seq<RiskRecord>, places: seq<Merge.Place>) {
    |places| == |out| && (forall p: Merge.Place :: p in places <==> p.list < |all| && p.pos < |all[p.list].risks|) &&
    (forall i :: 0 <= i < |out| ==> places[i] in places && out[i] == all[places[i].list].risks[places[i].pos]) &&
    forall i, j :: 0 <= i < j < |out| ==>
      out[i].barIndex < out[j].barIndex || (out[i].barIndex == out[j].barIndex && PlacedBefore(places[i], places[j]))
  }

  /** `out` reads off the symbols' trades, each once, ascending in `exitTs`. */
  ghost predicate TradesPlaced(all: seq<Accumulators>, out: seq<Trade>, places: seq<Merge.Place>) {
    |places| == |out| && (forall p: Merge.Place :: p in places <==> p.list < |all| && p.pos < |all[p.list].trades|) &&
    (forall i :: 0 <= i < |out| ==> places[i] in places && out[i] == all[places[i].list].trades[places[i].pos]) &&
    forall i, j :: 0 <= i < j < |out| ==>
      out[i].exitTs < out[j].exitTs || (out[i].exitTs == out[j].exitTs && PlacedBefore(places[i], places[j]))
  }

  /** `out` reads off the symbols' decisions, each once, ascending in `barTs`. */
  ghost predicate DecisionsPlaced(all: seq<Accumulators>, out: seq<DecisionRecord>, places: seq<Merge.Place>) {
    |places| == |out| && (forall p: Merge.Place :: p in places <==> p.list < |all| && p.pos < |all[p.list].decisions|) &&
    (forall i :: 0 <= i < |out| ==> places[i] in places && out[i] == all[places[i].list].decisions[places[i].pos]) &&
    forall i, j :: 0 <= i < j < |out| ==>
      out[i].barTs < out[j].barTs || (out[i].barTs == out[j].barTs && PlacedBefore(places[i], places[j]))
  }

  /** `out` reads off the symbols' fills, each once, ascending in `ts`. */
  ghost predicate FillsPlaced(all: seq<Accumulators>, out: seq<Fill>, places: seq<Merge.Place>) {
    |places| == |out| && (forall p: Merge.Place :: p in places <==> p.list < |all| && p.pos < |all[p.list].fills|) &&
    (forall i :: 0 <= i < |out| ==> places[i] in places && out[i] == all[places[i].list].fills[places[i].pos]) &&
    forall i, j :: 0 <= i < j < |out| ==>
      out[i].ts < out[j].ts || (out[i].ts == out[j].ts && PlacedBefore(places[i], places[j]))
  }

  /** `out` reads off the symbols' funding, each once, ascending in `ts`. */
  ghost predicate FundingPlaced(all: seq<Accumulators>, out: seq<FundingEntry>, places: seq<Merge.Place>) {
    |places| == |out| && (forall p: Merge.Place :: p in places <==> p.list < |all| && p.pos < |all[p.list].funding|) &&
    (forall i :: 0 <= i < |out| ==> places[i] in places && out[i] == all[places[i].list].funding[places[i].pos]) &&
    forall i, j :: 0 <= i < j < |out| ==>
      out[i].ts < out[j].ts || (out[i].ts == out[j].ts && PlacedBefore(places[i], places[j]))
  }

  /** Issues carry no key: they come symbol by symbol. */
  ghost predicate IssuesPlaced(all: seq<Accumulators>, out: seq<Issue>, places: seq<Merge.Place>) {
    |places| == |out| && (forall p: Merge.Place :: p in places <==> p.list < |all| && p.pos < |all[p.list].issues|) &&
    (forall i :: 0 <= i < |out| ==> places[i] in places && out[i] == all[places[i].list].issues[places[i].pos]) &&
    forall i, j :: 0 <= i < j < |out| ==> PlacedBefore(places[i], places[j])
  }

  /** Each merged list ascends in the field it is merged by, equal values in symbol order and then list order. */
  ghost predicate FieldsAscend(all: seq<Accumulators>, r: MergedAccumulators) {
    (exists places :: OrdersPlaced(all, r.orders, places)) &&
    (exists places :: RisksPlaced(all, r.risks, places)) &&
    (exists places :: TradesPlaced(all, r.trades, places)) &&
    (exists places :: DecisionsPlaced(all, r.decisions, places)) &&
    (exists places :: FillsPlaced(all, r.fills, places)) &&
    (exists places :: FundingPlaced(all, r.funding, places)) &&
    (exists places :: IssuesPlaced(all, r.issues, places))
  }

  lemma PlacesOf<T(!new)>(lists: seq<seq<T>>, key: T -> int, out: seq<T>) returns (places: seq<Merge.Place>)
    requires Merge.Merged(lists, key, out)
    ensures |places| == |out| && forall p: Merge.Place :: p in places <==> p.list < |lists| && p.pos < |lists[p.list]|
    ensures forall i :: 0 <= i < |out| ==> places[i] in places && out[i] == lists[places[i].list][places[i].pos]
    ensures forall i, j :: 0 <= i < j < |out| ==>
              key(out[i]) < key(out[j]) || (key(out[i]) == key(out[j]) && PlacedBefore(places[i], places[j]))
  {
    places :| Merge.Visits(lists, key, places) && out == Merge.Items(lists, places);
    forall p: Merge.Place ensures p in places <==> p.list < |lists| && p.pos < |lists[p.list]| {
      assert Merge.In(lists, p) <==> p in places;
    }
    forall i, j | 0 <= i < j < |out|
      ensures key(out[i]) < key(out[j]) || (key(out[i]) == key(out[j]) && PlacedBefore(places[i], places[j]))
    {
      assert Merge.Earlier(lists, key, places[i], places[j]);
    }
  }

  lemma OrdersAscend(all: seq<Accumulators>, out: seq<Order>)
    requires Merge.Merged(Each(all, Orders), OrderKey, out)
    ensures exists places :: OrdersPlaced(all, out, places)
  {
    hide Merge.Merged;
    var lists := Each(all, Orders);
    var places := PlacesOf(lists, OrderKey, out);
    assert forall p :: p in places <==> p.list < |all| && p.pos < |Orders(all[p.list])|;
    assert OrdersPlaced(all, out, places);
  }

  lemma RisksAscend(all: seq<Accumulators>, out: seq<RiskRecord>)
    requires Merge.Merged(Each(all, Risks), RiskKey, out)
    ensures exists places :: RisksPlaced(all, out, places)
  {
    hide Merge.Merged;
    var lists := Each(all, Risks);
    var places := PlacesOf(lists, RiskKey, out);
    assert forall p :: p in places <==> p.list < |all| && p.pos < |Risks(all[p.list])|;
    assert RisksPlaced(all, out, places);
  }

  lemma TradesAscend(all: seq<Accumulators>, out: seq<Trade>)
    requires Merge.Merged(Each(all, Trades), TradeTs, out)
    ensures exists places :: TradesPlaced(all, out, places)
  {
    hide Merge.Merged;
    var lists := Each(all, Trades);
    var places := PlacesOf(lists, TradeTs, out);
    assert forall p :: p in places <==> p.list < |all| && p.pos < |Trades(all[p.list])|;
    assert TradesPlaced(all, out, places);
  }

  lemma DecisionsAscend(all: seq<Accumulators>, out: seq<DecisionRecord>)
    requires Merge.Merged(Each(all, Decisions), DecisionTs, out)
    ensures exists places :: DecisionsPlaced(all, out, places)
  {
    hide Merge.Merged;
    var lists := Each(all, Decisions);
    var places := PlacesOf(lists, DecisionTs, out);
    assert forall p :: p in places <==> p.list < |all| && p.pos < |Decisions(all[p.list])|;
    assert DecisionsPlaced(all, out, places);
  }

  lemma FillsAscend(all: seq<Accumulators>, out: seq<Fill>)
    requires Merge.Merged(Each(all, Fills), FillTs, out)
    ensures exists places :: FillsPlaced(all, out, places)
  {
    hide Merge.Merged;
    var lists := Each(all, Fills);
    var places := PlacesOf(lists, FillTs, out);
    assert forall p :: p in places <==> p.list < |all| && p.pos < |Fills(all[p.list])|;
    assert FillsPlaced(all, out, places);
  }

  lemma FundingAscend(all: seq<Accumulators>, out: seq<FundingEntry>)
    requires Merge.Merged(Each(all, Funding), FundingTs, out)
    ensures exists places :: FundingPlaced(all, out, places)
  {
    hide Merge.Merged;
    var lists := Each(all, Funding);
    var places := PlacesOf(lists, FundingTs, out);
    assert forall p :: p in places <==> p.list < |all| && p.pos < |Funding(all[p.list])|;
    assert FundingPlaced(all, out, places);
  }

  /** `out` reads off the lists, one after the other, at these places. */
  ghost predicate InTurn<T(!new)>(lists: seq<seq<T>>, out: seq<T>, places: seq<Merge.Place>) {
    |places| == |out| && (forall p: Merge.Place :: p in places <==> p.list < |lists| && p.pos < |lists[p.list]|) &&
    (forall i :: 0 <= i < |out| ==> places[i] in places && out[i] == lists[places[i].list][places[i].pos]) &&
    forall i, j :: 0 <= i < j < |out| ==> PlacedBefore(places[i], places[j])
  }

  function PlacesIn(list: nat, n: nat): (r: seq<Merge.Place>)
    ensures |r| == n && forall k :: 0 <= k < n ==> r[k] == Merge.Place(list, k)
    ensures forall p :: p in r <==> p.list == list && p.pos < n
  {
    var r := seq(n, k requires 0 <= k < n => Merge.Place(list, k));
    assert forall p: Merge.Place :: p.list == list && p.pos < n ==> r[p.pos] == p;
    r
  }

  lemma OneMoreInTurn<T(!new)>(lists: seq<seq<T>>, out: seq<T>, places: seq<Merge.Place>, last: seq<T>)
    requires InTurn(lists, out, places)
    ensures InTurn(lists + [last], out + last, places + PlacesIn(|lists|, |last|))
  {
    var all, out', places' := lists + [last], out + last, places + PlacesIn(|lists|, |last|);
    hide PlacesIn;
    forall p: Merge.Place ensures p in places' <==> p.list < |all| && p.pos < |all[p.list]| {
      assert p in places' <==> p in places || p in PlacesIn(|lists|, |last|);
    }
    forall i | 0 <= i < |out'| ensures places'[i] in places' && out'[i] == all[places'[i].list][places'[i].pos] {
      assert i < |out| ==> places'[i] == places[i];
    }
    forall i, j | 0 <= i < j < |out'| ensures PlacedBefore(places'[i], places'[j]) {
      if i < |out| <= j {
        assert places[i] in places;
      }
    }
  }

  lemma {:induction false} ConcatPlaces<T(!new)>(lists: seq<seq<T>>) returns (places: seq<Merge.Place>)
    ensures InTurn(lists, Concat(lists), places)
  {
    if lists == [] {
      places := [];
    } else {
      var n := |lists| - 1;
      var before := ConcatPlaces(lists[..n]);
      places := before + PlacesIn(n, |lists[n]|);
      hide InTurn;
      OneMoreInTurn(lists[..n], Concat(lists[..n]), before, lists[n]);
      assert lists == lists[..n] + [lists[n]];
    }
  }

  lemma IssuesInOrder(all: seq<Accumulators>, out: seq<Issue>)
    requires out == Concat(Each(all, Issues))
    ensures exists places :: IssuesPlaced(all, out, places)
  {
    hide Concat;
    var places := ConcatPlaces(Each(all, Issues));
    assert forall p :: p in places <==> p.list < |all| && p.pos < |Issues(all[p.list])|;
    assert IssuesPlaced(all, out, places);
  }

  lemma MergeAscends(all: seq<Accumulators>, r: MergedAccumulators)
    requires MergeOf(all, r)
    ensures FieldsAscend(all, r)
  {
    hide Merge.Merged;
    OrdersAscend(all, r.orders);
    RisksAscend(all, r.risks);
    TradesAscend(all, r.trades);
    DecisionsAscend(all, r.decisions);
    FillsAscend(all, r.fills);
    FundingAscend(all, r.funding);
    IssuesInOrder(all, r.issues);
  }

  method MergeAccumulators(all: seq<Accumulators>) returns (r: MergedAccumulators)
    ensures MergeOf(all, r) && FieldsAscend(all, r)
    ensures (forall s :: 0 <= s < |all| ==> Ascends(all[s].equity)) ==>
              forall u :: 0 <= u < |r.equity| ==> r.equity[u].equity == LatestSum(Each(all, Curve), |all|, r.equity[u].barTs)
    ensures r.equity != [] ==> r.equity[|r.equity| - 1].equity == FinalSum(Each(all, Curve), |all|)
  {
    hide Merge.Merged, LatestSum, FinalSum, HeldSum, Ascends, Distinct, AllTimes, FieldsAscend;
    var curves := Each(all, Curve);
    var equity := AggregateEquityCurve(curves);
    assert forall s :: 0 <= s < |all| ==> curves[s] == all[s].equity;
    var trades := Merge.MergeByKey(Each(all, Trades), TradeTs);
    var decisions := Merge.MergeByKey(Each(all, Decisions), DecisionTs);
    var fills := Merge.MergeByKey(Each(all, Fills), FillTs);
    var funding := Merge.MergeByKey(Each(all, Funding), FundingTs);
    var orders := Merge.MergeByKey(Each(all, Orders), OrderKey);
    var risks := Merge.MergeByKey(Each(all, Risks), RiskKey);
    r := MergedAccumulators(equity, trades, decisions, fills, funding, orders, risks, Concat(Each(all, Issues)));
    assert MergeOf(all, r);
    MergeAscends(all, r);
  }

  /** The lists of the symbols' own lockstep runs, each on a fresh portfolio. */
  function SoloRuns(inputs: seq<(Env, ModuleState)>, initialEquity: real): (r: seq<Accumulators>)
    ensures |r| == |inputs|
  {
    seq(|inputs|, s requires 0 <= s < |inputs| => Run(inputs[s].0, Fresh(inputs[s].1, initialEquity)).acc)
  }

  /** A bar-major backtest from its inputs to its merged artifacts. By `MergeUnique` the outcome does not
      depend on the execution shape. */
  method BarMajorBacktest(inputs: seq<(Env, ModuleState)>, initialEquity: real, batch: bool)
    returns (r: MergedAccumulators, barsProcessed: nat)
    requires forall i :: 0 <= i < |inputs| ==> TimesIncrease(inputs[i].0)
    ensures MergeOf(SoloRuns(Live(inputs), initialEquity), r) && FieldsAscend(SoloRuns(Live(inputs), initialEquity), r)
    ensures barsProcessed == TotalBars(inputs)
  {
    hide Run, MergeOf, FieldsAscend;
    var runs, n := RunBarMajor(inputs, initialEquity, batch);
    var all: seq<Accumulators> := [];
    var s := 0;
    while s < |runs|
      invariant 0 <= s <= |runs| && |all| == s
      invariant forall k :: 0 <= k < s ==> all[k] == Run(Live(inputs)[k].0, Fresh(Live(inputs)[k].1, initialEquity)).acc
    {
      assert runs[s].State().acc == runs[s].Acc();
      all := all + [runs[s].Acc()];
      s := s + 1;
    }
    r := MergeAccumulators(all);
    barsProcessed := n;
    assert all == SoloRuns(Live(inputs), initialEquity);
  }
}
