/** What one bar adds to the lists of a run: only records dated at that bar, at the end of each list. */
module BarRecords {
  import opened Basics
  import opened TradingEngine
  import opened BarLoop

  function DecisionBar(r: DecisionRecord): nat { r.barIndex }
  function OrderBar(o: Order): nat { o.decisionBar }
  function FillBar(f: Fill): nat { f.bar }
  function RiskBar(r: RiskRecord): nat { r.barIndex }
  function TradeBar(t: Trade): nat { t.exitBar }
  function EquityBar(p: EquityPoint): nat { p.barIndex }
  function FundingBar(f: FundingEntry): nat { f.barIndex }

  /** `b` is `a` with records of bar `t` appended. */
  ghost predicate AddsAt<T(!new)>(a: seq<T>, b: seq<T>, bar: T -> nat, t: nat) {
    a <= b && forall i :: |a| <= i < |b| ==> bar(b[i]) == t
  }

  /** Orders may also change their status. */
  ghost predicate AddsOrders(a: seq<Order>, b: seq<Order>, symbol: string, t: nat) {
    |a| <= |b| && (forall i :: 0 <= i < |a| ==> b[i].decisionBar == a[i].decisionBar && b[i].id == a[i].id) &&
    forall i :: |a| <= i < |b| ==> b[i].decisionBar == t && b[i].id.symbol == symbol
  }

  /** New entries carry the time of their bar. */
  ghost predicate Stamped(a: Accumulators, b: Accumulators, ts: int) {
    (forall i :: |a.decisions| <= i < |b.decisions| ==> b.decisions[i].barTs == ts) &&
    (forall i :: |a.fills| <= i < |b.fills| ==> b.fills[i].ts == ts) &&
    (forall i :: |a.trades| <= i < |b.trades| ==> b.trades[i].exitTs == ts) &&
    (forall i :: |a.equity| <= i < |b.equity| ==> b.equity[i].barTs == ts) &&
    (forall i :: |a.funding| <= i < |b.funding| ==> b.funding[i].ts == ts)
  }

  ghost predicate Adds(env: Env, a: Accumulators, b: Accumulators, t: nat)
    requires t < env.Bars()
  {
    AddsAt(a.decisions, b.decisions, DecisionBar, t) && AddsOrders(a.orders, b.orders, env.symbol, t) &&
    AddsAt(a.fills, b.fills, FillBar, t) && AddsAt(a.risks, b.risks, RiskBar, t) &&
    AddsAt(a.trades, b.trades, TradeBar, t) && AddsAt(a.equity, b.equity, EquityBar, t) &&
    AddsAt(a.funding, b.funding, FundingBar, t) && Stamped(a, b, env.view.candles[t].ts)
  }

  lemma AddsOn(env: Env, a: Accumulators, b: Accumulators, c: Accumulators, t: nat)
    requires t < env.Bars() && Adds(env, a, b, t) && Adds(env, b, c, t)
    ensures Adds(env, a, c, t)
  {
  }

  lemma MarkAdds(env: Env, a: Accumulators, b: Accumulators, id: OrderId, status: Status, t: nat)
    requires t < env.Bars() && Adds(env, a, b, t)
    ensures Adds(env, a, MarkOrder(b, id, status), t)
    ensures MarkOrder(b, id, status).equity == b.equity
  {
  }

  lemma FillAdds(env: Env, a: Accumulators, t: nat, fill: Fill)
    requires t < env.Bars() && fill.bar == t && fill.ts == env.view.candles[t].ts
    ensures Adds(env, a, a.(fills := a.fills + [fill]), t)
  {
  }

  lemma CloseAdds(env: Env, a: Accumulators, t: nat, fill: Fill, trade: Trade)
    requires t < env.Bars() && fill.bar == t && fill.ts == env.view.candles[t].ts
    requires trade.exitBar == t && trade.exitTs == env.view.candles[t].ts
    ensures Adds(env, a, a.(fills := a.fills + [fill], trades := a.trades + [trade]), t)
  {
  }

  lemma SettleAdds(env: Env, s: SymState, t: nat, base: real)
    requires t < env.Bars() && Coherent(s.pf)
    ensures Adds(env, s.acc, SettlePending(env, s, t, base).acc, t)
    ensures SettlePending(env, s, t, base).acc.equity == s.acc.equity
  {
    hide Adds, MarkOrder;
    AddsNothing(env, s.acc, t);
    if s.pf.pending.Some? {
      var p, ts := s.pf.pending.value, env.view.candles[t].ts;
      if p.intent == CloseIntent {
        var size := env.core.closedSize(s.pf.position.value, if p.closeFraction.Some? then p.closeFraction.value else 1.0);
        var quote := env.core.closeFill(p.side, base, size);
        var (pf, trade) := SettleClose(env.core, s.pf, quote, t, ts, p.closeReason, p.closeFraction);
        var fill := Fill(p.id, t, ts, quote, size, if p.closeFraction.Some? then PartialCloseFill else PlainFill);
        CloseAdds(env, s.acc, t, fill, trade);
        MarkAdds(env, s.acc, s.acc.(fills := s.acc.fills + [fill], trades := s.acc.trades + [trade]), p.id, FilledOrder, t);
      } else {
        var quote := env.core.openFill(p.side, base, p.notional);
        var fill := Fill(p.id, t, ts, quote, quote.size, if p.intent == OpenIntent then PlainFill else AddFill);
        FillAdds(env, s.acc, t, fill);
        MarkAdds(env, s.acc, s.acc.(fills := s.acc.fills + [fill]), p.id, FilledOrder, t);
      }
    }
    assert Adds(env, s.acc, SettlePending(env, s, t, base).acc, t);
  }

  lemma ProtectAdds(env: Env, s: SymState, t: nat)
    requires t < env.Bars() && s.pf.pending.None?
    ensures Adds(env, s.acc, ProtectionCheck(env, s, t).acc, t)
    ensures ProtectionCheck(env, s, t).acc.equity == s.acc.equity
  {
  }

  lemma PreBarAdds(env: Env, s: SymState, t: nat)
    requires t < env.Bars() && OnTime(s, t)
    ensures Adds(env, s.acc, PreBar(env, s, t).acc, t)
    ensures PreBar(env, s, t).acc.equity == s.acc.equity
  {
    hide SettlePending, ProtectionCheck, Adds;
    var settled := s;
    if s.pf.pending.Some? {
      settled := SettlePending(env, s, t, env.view.candles[t].open);
      SettleAdds(env, s, t, env.view.candles[t].open);
      ProtectAdds(env, settled, t);
      AddsOn(env, s.acc, settled.acc, ProtectionCheck(env, settled, t).acc, t);
    } else {
      ProtectAdds(env, s, t);
    }
    assert PreBar(env, s, t) == ProtectionCheck(env, settled, t);
  }

  lemma AddsDecision(env: Env, a: Accumulators, record: DecisionRecord, t: nat)
    requires t < env.Bars() && record.barIndex == t && record.barTs == env.view.candles[t].ts
    ensures Adds(env, a, a.(decisions := a.decisions + [record]), t)
  {
  }

  lemma AddsNothing(env: Env, a: Accumulators, t: nat)
    requires t < env.Bars()
    ensures Adds(env, a, a, t)
  {
  }

  lemma EntryRiskAdds(env: Env, s: SymState, t: nat, final: Option<Decision>)
    requires t < env.Bars() && s.pf.pending.None?
    ensures Adds(env, s.acc, EntryRisk(env, s, t, final).0.acc, t)
    ensures EntryRisk(env, s, t, final).0.acc.equity == s.acc.equity
  {
  }

  lemma EntryAdds(env: Env, s: SymState, t: nat, base: Option<Decision>, ctx: Snapshot)
    requires t < env.Bars() && s.pf.pending.None?
    ensures Adds(env, s.acc, EntryStage(env, s, t, base, ctx).acc, t)
    ensures EntryStage(env, s, t, base, ctx).acc.equity == s.acc.equity
  {
    hide Compose, EntryRisk, AddsAt, AddsOrders;
    var baseDecision := if base.Some? then base.value else Idle;
    var (mod, comp) := Compose(env, env.entryOverlays, 0, s.mod, ctx, t, baseDecision, []);
    var noted := SymState(mod, s.pf, WithIssue(env, s.acc, t, OnBarClose, comp.error));
    EntryRiskAdds(env, noted, t, comp.final);
    var (placed, risk) := EntryRisk(env, noted, t, comp.final);
    var record := DecisionRecord(t, env.view.candles[t].ts, env.symbol, OnBarClose, baseDecision, comp.effects, comp.final, risk);
    AddsDecision(env, placed.acc, record, t);
    AddsOn(env, noted.acc, placed.acc, placed.acc.(decisions := placed.acc.decisions + [record]), t);
  }

  lemma PositionRiskAdds(env: Env, s: SymState, t: nat, final: Option<Decision>)
    requires t < env.Bars() && Coherent(s.pf) && s.pf.position.Some?
    requires s.pf.pending.Some? ==> s.pf.pending.value.decisionBar == t
    ensures Adds(env, s.acc, PositionRisk(env, s, t, final).0.acc, t)
    ensures PositionRisk(env, s, t, final).0.acc.equity == s.acc.equity
  {
  }

  lemma PositionAdds(env: Env, s: SymState, t: nat)
    requires t < env.Bars() && Coherent(s.pf)
    requires s.pf.pending.Some? ==> s.pf.pending.value.decisionBar == t
    ensures Adds(env, s.acc, PositionStage(env, s, t).acc, t)
    ensures PositionStage(env, s, t).acc.equity == s.acc.equity
  {
    hide Compose, RunHook, SnapshotAt, PositionRisk, FirstDecision, AddsAt, AddsOrders;
    if s.pf.position.Some? && (env.strategy.onPositionBar.Some? || |env.postOverlays| > 0) {
      var ctx := SnapshotAt(env, s.pf, t);
      var mod, base := s.mod, Idle;
      if env.strategy.onPositionBar.Some? {
        var (m, ds) := RunHook(env, env.strategy.onPositionBar.value, s.mod, ctx, t);
        mod, base := m, FirstDecision(ds);
      }
      var (m, comp) := Compose(env, env.postOverlays, 0, mod, ctx, t, base, []);
      var noted := SymState(m, s.pf, WithIssue(env, s.acc, t, OnPositionBar, comp.error));
      PositionRiskAdds(env, noted, t, comp.final);
      var (placed, risk) := PositionRisk(env, noted, t, comp.final);
      var record := DecisionRecord(t, env.view.candles[t].ts, env.symbol, OnPositionBar, base, comp.effects, comp.final, risk);
      AddsDecision(env, placed.acc, record, t);
      AddsOn(env, noted.acc, placed.acc, placed.acc.(decisions := placed.acc.decisions + [record]), t);
    } else {
      AddsNothing(env, s.acc, t);
    }
  }

  lemma TailAdds(env: Env, s: SymState, t: nat)
    requires t < env.Bars() && Coherent(s.pf)
    requires s.pf.pending.Some? ==> s.pf.pending.value.decisionBar == t
    ensures Adds(env, s.acc, SameBarStage(env, s, t).acc, t) && SameBarStage(env, s, t).acc.equity == s.acc.equity
    ensures Adds(env, s.acc, FundingStage(env, s, t).acc, t) && FundingStage(env, s, t).acc.equity == s.acc.equity
    ensures Adds(env, s.acc, EquityStage(env, s, t).acc, t) && |EquityStage(env, s, t).acc.equity| == |s.acc.equity| + 1
  {
    hide SettlePending, FundingReading;
    SettleAdds(env, s, t, env.view.candles[t].close);
  }

  /** A bar appends records of that bar only, and exactly one equity point. */
  lemma StepAdds(env: Env, s: SymState, t: nat)
    requires t < env.Bars() && OnTime(s, t)
    ensures Adds(env, s.acc, Step(env, s, t).acc, t)
    ensures |Step(env, s, t).acc.equity| == |s.acc.equity| + 1
  {
    hide PreBar, SnapshotAt, RunHook, EntryStage, PositionStage, SameBarStage, FundingStage, EquityStage, Adds, FirstDecision;
    var pre := PreBar(env, s, t);
    var ctx := SnapshotAt(env, pre.pf, t);
    var (mod, ds) := RunHook(env, env.strategy.onBarClose, pre.mod, ctx, t);
    var asked := pre.(mod := mod);
    var entered := EntryStage(env, asked, t, Some(FirstDecision(ds)), ctx);
    var managed := PositionStage(env, entered, t);
    var settled := SameBarStage(env, managed, t);
    var funded := FundingStage(env, settled, t);
    var marked := EquityStage(env, funded, t);
    PreBarAdds(env, s, t);
    EntryAdds(env, asked, t, Some(FirstDecision(ds)), ctx);
    PositionAdds(env, entered, t);
    TailAdds(env, managed, t);
    TailAdds(env, settled, t);
    TailAdds(env, funded, t);
    AddsOn(env, s.acc, pre.acc, entered.acc, t);
    AddsOn(env, s.acc, entered.acc, managed.acc, t);
    AddsOn(env, s.acc, managed.acc, settled.acc, t);
    AddsOn(env, s.acc, settled.acc, funded.acc, t);
    AddsOn(env, s.acc, funded.acc, marked.acc, t);
    assert Step(env, s, t) == marked;
  }

  // ---------------------------------------------------------------- every list is in time order

  ghost predicate InOrder<T(!new)>(s: seq<T>, bar: T -> nat, upTo: nat) {
    (forall i :: 0 <= i < |s| ==> bar(s[i]) < upTo) &&
    (forall i, j :: 0 <= i < j < |s| ==> bar(s[i]) <= bar(s[j]))
  }

  /** Lists ordered by bar, entries stamped with their bar's time, one equity point per bar. */
  ghost predicate Dated(env: Env, a: Accumulators, upTo: nat) {
    upTo <= env.Bars() &&
    InOrder(a.decisions, DecisionBar, upTo) && InOrder(a.orders, OrderBar, upTo) && InOrder(a.fills, FillBar, upTo) &&
    InOrder(a.risks, RiskBar, upTo) && InOrder(a.trades, TradeBar, upTo) && InOrder(a.funding, FundingBar, upTo) &&
    |a.equity| == upTo && (forall i :: 0 <= i < upTo ==> a.equity[i].barIndex == i && a.equity[i].barTs == env.view.candles[i].ts)
  }

  ghost predicate TimesMatch(env: Env, a: Accumulators) {
    (forall i :: 0 <= i < |a.decisions| ==> a.decisions[i].barIndex < env.Bars() && a.decisions[i].barTs == env.view.candles[a.decisions[i].barIndex].ts) &&
    (forall i :: 0 <= i < |a.fills| ==> a.fills[i].bar < env.Bars() && a.fills[i].ts == env.view.candles[a.fills[i].bar].ts) &&
    (forall i :: 0 <= i < |a.trades| ==> a.trades[i].exitBar < env.Bars() && a.trades[i].exitTs == env.view.candles[a.trades[i].exitBar].ts) &&
    (forall i :: 0 <= i < |a.funding| ==> a.funding[i].barIndex < env.Bars() && a.funding[i].ts == env.view.candles[a.funding[i].barIndex].ts)
  }

  lemma StillInOrder<T(!new)>(a: seq<T>, b: seq<T>, bar: T -> nat, t: nat)
    requires InOrder(a, bar, t) && AddsAt(a, b, bar, t)
    ensures InOrder(b, bar, t + 1)
  {
  }

  lemma OrdersInOrder(a: seq<Order>, b: seq<Order>, symbol: string, t: nat)
    requires InOrder(a, OrderBar, t) && AddsOrders(a, b, symbol, t)
    ensures InOrder(b, OrderBar, t + 1)
  {
  }

  lemma StepDated(env: Env, s: SymState, t: nat)
    requires t < env.Bars() && OnTime(s, t) && Dated(env, s.acc, t)
    ensures Dated(env, Step(env, s, t).acc, t + 1)
  {
    StepAdds(env, s, t);
    var b := Step(env, s, t).acc;
    hide Step;
    StillInOrder(s.acc.decisions, b.decisions, DecisionBar, t);
    StillInOrder(s.acc.fills, b.fills, FillBar, t);
    StillInOrder(s.acc.risks, b.risks, RiskBar, t);
    StillInOrder(s.acc.trades, b.trades, TradeBar, t);
    StillInOrder(s.acc.funding, b.funding, FundingBar, t);
    OrdersInOrder(s.acc.orders, b.orders, env.symbol, t);
    hide InOrder, AddsOrders;
    assert forall i :: 0 <= i < t ==> b.equity[i] == s.acc.equity[i];
    assert EquityBar(b.equity[t]) == t;
  }

  lemma TimesStillMatch(env: Env, a: Accumulators, b: Accumulators, t: nat)
    requires t < env.Bars() && TimesMatch(env, a) && Adds(env, a, b, t)
    ensures TimesMatch(env, b)
  {
  }

  lemma {:induction false} StepsDated(env: Env, s: SymState, k: nat)
    requires k <= env.Bars() && OnTime(s, 0) && s.acc == NoRecords
    ensures Dated(env, Steps(env, s, 0, k).acc, k) && TimesMatch(env, Steps(env, s, 0, k).acc)
    decreases k
  {
    hide Step, Adds, Dated, TimesMatch;
    if k == 0 {
      NothingDated(env);
    } else {
      StepsDated(env, s, k - 1);
      var before := Steps(env, s, 0, k - 1);
      StepDated(env, before, k - 1);
      StepAdds(env, before, k - 1);
      TimesStillMatch(env, before.acc, Step(env, before, k - 1).acc, k - 1);
    }
    assert Dated(env, Steps(env, s, 0, k).acc, k) && TimesMatch(env, Steps(env, s, 0, k).acc);
  }

  lemma NothingDated(env: Env)
    ensures Dated(env, NoRecords, 0) && TimesMatch(env, NoRecords)
  {
  }

  /** Every list of a complete run is in bar order with its bars' times: the keys the bar-major merge
      uses are already ascending when bar times increase, and the equity curve has one point per bar. */
  lemma RunDated(env: Env, s: SymState)
    requires Quiet(s.pf) && s.acc == NoRecords && env.Bars() > 0
    ensures Dated(env, Run(env, s).acc, env.Bars()) && TimesMatch(env, Run(env, s).acc)
  {
    hide Step, RunHook, SnapshotAt, InOrder;
    var n := env.Bars();
    var begun := Init(env, s);
    StepsDated(env, begun, n);
    var end := Steps(env, begun, 0, n);
    FinalizeDated(env, end);
    assert Run(env, s) == Finalize(env, end);
  }

  lemma FinalizeDated(env: Env, s: SymState)
    requires env.Bars() > 0 && Dated(env, s.acc, env.Bars()) && TimesMatch(env, s.acc)
    ensures Dated(env, Finalize(env, s).acc, env.Bars()) && TimesMatch(env, Finalize(env, s).acc)
  {
    hide RunHook, SnapshotAt;
    var n := env.Bars();
    var r := Finalize(env, s);
    assert forall i :: 0 <= i < |s.acc.orders| ==> r.acc.orders[i].decisionBar == s.acc.orders[i].decisionBar;
    ForcedInOrder(s.acc.trades, r.acc.trades, n);
    SameOrdersInOrder(s.acc.orders, r.acc.orders, n);
    hide InOrder;
    assert Dated(env, r.acc, n);
  }

  lemma SameOrdersInOrder(a: seq<Order>, b: seq<Order>, n: nat)
    requires InOrder(a, OrderBar, n) && |a| == |b|
    requires forall i :: 0 <= i < |a| ==> b[i].decisionBar == a[i].decisionBar
    ensures InOrder(b, OrderBar, n)
  {
  }

  lemma ForcedInOrder(a: seq<Trade>, b: seq<Trade>, n: nat)
    requires n > 0 && InOrder(a, TradeBar, n)
    requires a == b || (|b| == |a| + 1 && a == b[..|a|] && b[|a|].exitBar == n - 1)
    ensures InOrder(b, TradeBar, n)
  {
  }

  // ---------------------------------------------------------------- whose orders they are

  /** Every order of `b` is an order of `a` or belongs to this symbol. */
  ghost predicate OnlyAdds(a: seq<Order>, b: seq<Order>, symbol: string) {
    |a| <= |b| && (forall i :: 0 <= i < |a| ==> b[i].id == a[i].id) &&
    forall i :: |a| <= i < |b| ==> b[i].id.symbol == symbol
  }

  lemma {:induction false} StepsOnlyAdd(env: Env, s: SymState, k: nat)
    requires k <= env.Bars() && OnTime(s, 0)
    ensures OnlyAdds(s.acc.orders, Steps(env, s, 0, k).acc.orders, env.symbol)
    decreases k
  {
    hide Step;
    if k > 0 {
      StepsOnlyAdd(env, s, k - 1);
      StepAdds(env, Steps(env, s, 0, k - 1), k - 1);
      hide AddsAt, Stamped;
    }
  }

  lemma RunOnlyAdds(env: Env, s: SymState)
    requires Quiet(s.pf)
    ensures OnlyAdds(s.acc.orders, Run(env, s).acc.orders, env.symbol)
  {
    if env.Bars() > 0 {
      hide Step, RunHook, SnapshotAt, Finalize;
      var begun := Init(env, s);
      StepsOnlyAdd(env, begun, env.Bars());
      var end := Steps(env, begun, 0, env.Bars());
      FinalizeOnlyMarks(env, end);
      assert Run(env, s) == Finalize(env, end);
      assert OnlyAdds(s.acc.orders, Finalize(env, end).acc.orders, env.symbol);
    }
  }

  lemma FinalizeOnlyMarks(env: Env, s: SymState)
    requires env.Bars() > 0
    ensures |Finalize(env, s).acc.orders| == |s.acc.orders|
    ensures forall i :: 0 <= i < |s.acc.orders| ==> Finalize(env, s).acc.orders[i].id == s.acc.orders[i].id
  {
  }
}
