/** Runs that write behind one another into the same lists: each appends exactly what it would write into
    empty lists, because it looks up no order but its own. */
module JoinedRuns {
  import opened Basics
  import opened TradingEngine
  import opened BarLoop

  // ---------------------------------------------------------------- lists behind lists

  /** The index after the second list of orders has been written behind the first, of length `n`. */
  function JoinIndex(p: map<OrderId, nat>, q: map<OrderId, nat>, n: nat): (r: map<OrderId, nat>)
    ensures forall id :: id in r <==> id in p || id in q
    ensures forall id :: id in r ==> r[id] == if id in q then n + q[id] else p[id]
  {
    map id | id in p.Keys + q.Keys :: if id in q then n + q[id] else p[id]
  }

  function Joined(base: Accumulators, a: Accumulators): Accumulators {
    Accumulators(base.decisions + a.decisions, base.orders + a.orders, JoinIndex(base.orderIndex, a.orderIndex, |base.orders|),
                 base.fills + a.fills, base.risks + a.risks, base.trades + a.trades, base.equity + a.equity,
                 base.funding + a.funding, base.issues + a.issues)
  }

  function Lift(base: Accumulators, s: SymState): SymState {
    s.(acc := Joined(base, s.acc))
  }

  /** The order a run waits for is one it has recorded. */
  ghost predicate Known(s: SymState) {
    s.pf.pending.Some? ==> s.pf.pending.value.id in s.acc.orderIndex && s.acc.orderIndex[s.pf.pending.value.id] < |s.acc.orders|
  }

  lemma JoinRecord(base: Accumulators, a: Accumulators, o: Order)
    ensures RecordOrder(Joined(base, a), o) == Joined(base, RecordOrder(a, o))
  {
    var x, y := RecordOrder(Joined(base, a), o), Joined(base, RecordOrder(a, o));
    assert x.orders == y.orders;
    assert x.orderIndex == y.orderIndex;
  }

  lemma JoinMark(base: Accumulators, a: Accumulators, id: OrderId, status: Status)
    requires id in a.orderIndex && a.orderIndex[id] < |a.orders|
    ensures MarkOrder(Joined(base, a), id, status) == Joined(base, MarkOrder(a, id, status))
  {
    var x, y := MarkOrder(Joined(base, a), id, status), Joined(base, MarkOrder(a, id, status));
    assert x.orders == y.orders;
  }

  lemma JoinNothing(base: Accumulators)
    ensures Joined(base, NoRecords) == base
  {
    assert JoinIndex(base.orderIndex, map[], |base.orders|) == base.orderIndex;
  }


  lemma JoinDecision(base: Accumulators, a: Accumulators, d: DecisionRecord)
    ensures Joined(base, a).(decisions := Joined(base, a).decisions + [d]) == Joined(base, a.(decisions := a.decisions + [d]))
  {
    assert base.decisions + (a.decisions + [d]) == (base.decisions + a.decisions) + [d];
  }

  lemma JoinRisk(base: Accumulators, a: Accumulators, r: RiskRecord)
    ensures Joined(base, a).(risks := Joined(base, a).risks + [r]) == Joined(base, a.(risks := a.risks + [r]))
  {
    assert base.risks + (a.risks + [r]) == (base.risks + a.risks) + [r];
  }

  lemma JoinFill(base: Accumulators, a: Accumulators, f: Fill)
    ensures Joined(base, a).(fills := Joined(base, a).fills + [f]) == Joined(base, a.(fills := a.fills + [f]))
  {
    assert base.fills + (a.fills + [f]) == (base.fills + a.fills) + [f];
  }

  lemma JoinTrade(base: Accumulators, a: Accumulators, t: Trade)
    ensures Joined(base, a).(trades := Joined(base, a).trades + [t]) == Joined(base, a.(trades := a.trades + [t]))
  {
    assert base.trades + (a.trades + [t]) == (base.trades + a.trades) + [t];
  }

  lemma JoinClose(base: Accumulators, a: Accumulators, f: Fill, t: Trade)
    ensures Joined(base, a).(fills := Joined(base, a).fills + [f], trades := Joined(base, a).trades + [t]) ==
            Joined(base, a.(fills := a.fills + [f], trades := a.trades + [t]))
  {
    assert base.fills + (a.fills + [f]) == (base.fills + a.fills) + [f];
    assert base.trades + (a.trades + [t]) == (base.trades + a.trades) + [t];
  }

  lemma JoinEquity(base: Accumulators, a: Accumulators, e: EquityPoint)
    ensures Joined(base, a).(equity := Joined(base, a).equity + [e]) == Joined(base, a.(equity := a.equity + [e]))
  {
    assert base.equity + (a.equity + [e]) == (base.equity + a.equity) + [e];
  }

  lemma JoinFunding(base: Accumulators, a: Accumulators, f: FundingEntry)
    ensures Joined(base, a).(funding := Joined(base, a).funding + [f]) == Joined(base, a.(funding := a.funding + [f]))
  {
    assert base.funding + (a.funding + [f]) == (base.funding + a.funding) + [f];
  }

  lemma JoinIssue(env: Env, base: Accumulators, a: Accumulators, t: nat, hook: HookName, error: Option<string>)
    ensures WithIssue(env, Joined(base, a), t, hook, error) == Joined(base, WithIssue(env, a, t, hook, error))
  {
    if error.Some? {
      var i := Issue(env.symbol, t, hook, error.value);
      assert base.issues + (a.issues + [i]) == (base.issues + a.issues) + [i];
    }
  }

  // ---------------------------------------------------------------- stage by stage

  lemma SettleLifts(env: Env, base: Accumulators, s: SymState, t: nat, price: real)
    requires t < env.Bars() && Coherent(s.pf) && Known(s)
    ensures SettlePending(env, Lift(base, s), t, price) == Lift(base, SettlePending(env, s, t, price))
  {
    if s.pf.pending.Some? {
      var p, ts := s.pf.pending.value, env.view.candles[t].ts;
      hide Joined, MarkOrder;
      if p.intent == CloseIntent {
        var size := env.core.closedSize(s.pf.position.value, if p.closeFraction.Some? then p.closeFraction.value else 1.0);
        var quote := env.core.closeFill(p.side, price, size);
        var (pf, trade) := SettleClose(env.core, s.pf, quote, t, ts, p.closeReason, p.closeFraction);
        var fill := Fill(p.id, t, ts, quote, size, if p.closeFraction.Some? then PartialCloseFill else PlainFill);
        JoinClose(base, s.acc, fill, trade);
        JoinMark(base, s.acc.(fills := s.acc.fills + [fill], trades := s.acc.trades + [trade]), p.id, FilledOrder);
      } else {
        var quote := env.core.openFill(p.side, price, p.notional);
        var fill := Fill(p.id, t, ts, quote, quote.size, if p.intent == OpenIntent then PlainFill else AddFill);
        JoinFill(base, s.acc, fill);
        JoinMark(base, s.acc.(fills := s.acc.fills + [fill]), p.id, FilledOrder);
      }
      assert SettlePending(env, Lift(base, s), t, price) == Lift(base, SettlePending(env, s, t, price));
    }
  }

  lemma ProtectLifts(env: Env, base: Accumulators, s: SymState, t: nat)
    requires t < env.Bars() && s.pf.pending.None?
    ensures ProtectionCheck(env, Lift(base, s), t) == Lift(base, ProtectionCheck(env, s, t))
  {
    var r := ProtectionCheck(env, s, t);
    if r != s {
      var pos, ts := s.pf.position.value, env.view.candles[t].ts;
      var hit := env.core.detect(pos, env.view.candles[t]).value;
      var quote := env.core.protectionFill(pos.side, hit.fillBase, pos.size);
      var order := Order(ProtectionId(env, t), t, pos.side, CloseIntent, FilledOrder, true, None, None);
      var (pf, trade) := ClosePosition(env.core, s.pf, quote, t, ts, hit.kind);
      hide Joined, RecordOrder;
      JoinRecord(base, s.acc, order);
      JoinClose(base, RecordOrder(s.acc, order), Fill(order.id, t, ts, quote, pos.size, ProtectionFill), trade);
      assert ProtectionCheck(env, Lift(base, s), t) == Lift(base, r);
    }
  }

  lemma PreBarLifts(env: Env, base: Accumulators, s: SymState, t: nat)
    requires t < env.Bars() && OnTime(s, t) && Known(s)
    ensures PreBar(env, Lift(base, s), t) == Lift(base, PreBar(env, s, t))
  {
    hide SettlePending, ProtectionCheck, Joined;
    var settled := s;
    if s.pf.pending.Some? {
      settled := SettlePending(env, s, t, env.view.candles[t].open);
      SettleLifts(env, base, s, t, env.view.candles[t].open);
    }
    ProtectLifts(env, base, settled, t);
    assert PreBar(env, s, t) == ProtectionCheck(env, settled, t);
    assert PreBar(env, Lift(base, s), t) == ProtectionCheck(env, Lift(base, settled), t);
  }

  lemma EntryRiskLifts(env: Env, base: Accumulators, s: SymState, t: nat, final: Option<Decision>)
    requires t < env.Bars() && s.pf.pending.None?
    ensures var (r, risk) := EntryRisk(env, s, t, final);
            EntryRisk(env, Lift(base, s), t, final) == (Lift(base, r), risk) && Known(r)
  {
    if final.Some? && s.pf.position.None? && (final.value.Enter? || final.value.AddToPosition? || final.value.UpdateProtection?) {
      var o := env.core.evaluate(final.value, t, RiskContextAt(env.core, s.pf, env.view.candles[t].close));
      var acc := s.acc.(risks := s.acc.risks + [RiskRecord(t, o.detail)]);
      JoinRisk(base, s.acc, RiskRecord(t, o.detail));
      if final.value.Enter? && !o.rejected {
        var pending := EntryPending(env, t, final.value.side, o);
        JoinRecord(base, acc, Order(pending.id, t, final.value.side, OpenIntent, PendingOrder, false, None, None));
      }
      hide Joined;
    }
  }

  lemma EntryLifts(env: Env, base: Accumulators, s: SymState, t: nat, answer: Option<Decision>, ctx: Snapshot)
    requires t < env.Bars() && s.pf.pending.None?
    ensures EntryStage(env, Lift(base, s), t, answer, ctx) == Lift(base, EntryStage(env, s, t, answer, ctx))
    ensures Known(EntryStage(env, s, t, answer, ctx))
  {
    hide Compose, EntryRisk, Joined, WithIssue;
    var baseDecision := if answer.Some? then answer.value else Idle;
    var (mod, comp) := Compose(env, env.entryOverlays, 0, s.mod, ctx, t, baseDecision, []);
    var noted := SymState(mod, s.pf, WithIssue(env, s.acc, t, OnBarClose, comp.error));
    JoinIssue(env, base, s.acc, t, OnBarClose, comp.error);
    EntryRiskLifts(env, base, noted, t, comp.final);
    var (placed, risk) := EntryRisk(env, noted, t, comp.final);
    var record := DecisionRecord(t, env.view.candles[t].ts, env.symbol, OnBarClose, baseDecision, comp.effects, comp.final, risk);
    JoinDecision(base, placed.acc, record);
    assert EntryStage(env, Lift(base, s), t, answer, ctx) == Lift(base, EntryStage(env, s, t, answer, ctx));
  }

  lemma PositionRiskLifts(env: Env, base: Accumulators, s: SymState, t: nat, final: Option<Decision>)
    requires t < env.Bars() && Coherent(s.pf) && s.pf.position.Some? && Known(s)
    requires s.pf.pending.Some? ==> s.pf.pending.value.decisionBar == t
    ensures var (r, risk) := PositionRisk(env, s, t, final);
            PositionRisk(env, Lift(base, s), t, final) == (Lift(base, r), risk) && Known(r)
  {
    if final.Some? && s.pf.pending.None? && (final.value.Exit? || final.value.AddToPosition? || final.value.UpdateProtection?) {
      var pos := s.pf.position.value;
      var ctx := RiskContextAt(env.core, s.pf, env.view.candles[t].close);
      var o := env.core.evaluate(final.value, t, if final.value.AddToPosition? then ctx.(position := Some(pos)) else ctx);
      var acc := s.acc.(risks := s.acc.risks + [RiskRecord(t, o.detail)]);
      JoinRisk(base, s.acc, RiskRecord(t, o.detail));
      if final.value.Exit? {
        JoinRecord(base, acc, Order(OrderId(env.symbol, t, CloseTag), t, pos.side, CloseIntent, PendingOrder, false, None, o.closeFraction));
      } else if final.value.AddToPosition? {
        JoinRecord(base, acc, Order(OrderId(env.symbol, t, AddTag), t, pos.side, AddIntent, PendingOrder, false, Some(o.mode), None));
      }
      hide Joined;
    }
  }

  lemma PositionLifts(env: Env, base: Accumulators, s: SymState, t: nat)
    requires t < env.Bars() && Coherent(s.pf) && Known(s)
    requires s.pf.pending.Some? ==> s.pf.pending.value.decisionBar == t
    ensures PositionStage(env, Lift(base, s), t) == Lift(base, PositionStage(env, s, t))
    ensures Known(PositionStage(env, s, t))
  {
    if s.pf.position.Some? && (env.strategy.onPositionBar.Some? || |env.postOverlays| > 0) {
      hide Compose, PositionRisk, Joined, WithIssue, SnapshotAt, RunHook, FirstDecision;
      var ctx := SnapshotAt(env, s.pf, t);
      var mod, first := s.mod, Idle;
      if env.strategy.onPositionBar.Some? {
        var (m, ds) := RunHook(env, env.strategy.onPositionBar.value, s.mod, ctx, t);
        mod, first := m, FirstDecision(ds);
      }
      var (m, comp) := Compose(env, env.postOverlays, 0, mod, ctx, t, first, []);
      var noted := SymState(m, s.pf, WithIssue(env, s.acc, t, OnPositionBar, comp.error));
      JoinIssue(env, base, s.acc, t, OnPositionBar, comp.error);
      IssueKeepsOrders(env, s.acc, t, OnPositionBar, comp.error);
      PositionRiskLifts(env, base, noted, t, comp.final);
      var (placed, risk) := PositionRisk(env, noted, t, comp.final);
      var record := DecisionRecord(t, env.view.candles[t].ts, env.symbol, OnPositionBar, first, comp.effects, comp.final, risk);
      JoinDecision(base, placed.acc, record);
      assert PositionStage(env, s, t) == placed.(acc := placed.acc.(decisions := placed.acc.decisions + [record]));
      assert PositionStage(env, Lift(base, s), t) == Lift(base, PositionStage(env, s, t));
    }
  }

  lemma IssueKeepsOrders(env: Env, a: Accumulators, t: nat, hook: HookName, error: Option<string>)
    ensures var b := WithIssue(env, a, t, hook, error); b.orders == a.orders && b.orderIndex == a.orderIndex
  {
  }

  lemma TailLifts(env: Env, base: Accumulators, s: SymState, t: nat)
    requires t < env.Bars() && Coherent(s.pf) && Known(s)
    requires s.pf.pending.Some? ==> s.pf.pending.value.decisionBar == t
    ensures SameBarStage(env, Lift(base, s), t) == Lift(base, SameBarStage(env, s, t)) && Known(SameBarStage(env, s, t))
    ensures FundingStage(env, Lift(base, s), t) == Lift(base, FundingStage(env, s, t)) && Known(FundingStage(env, s, t))
    ensures EquityStage(env, Lift(base, s), t) == Lift(base, EquityStage(env, s, t)) && Known(EquityStage(env, s, t))
  {
    SettleLifts(env, base, s, t, env.view.candles[t].close);
    hide SettlePending, FundingReading, Joined;
    var bar := env.view.candles[t];
    JoinEquity(base, s.acc, EquityPoint(t, bar.ts, EquityAt(env.core, s.pf, bar.close)));
    if env.fundingEnabled && s.pf.position.Some? {
      JoinFunding(base, s.acc, FundingStage(env, s, t).acc.funding[|s.acc.funding|]);
    }
  }

  lemma StepLifts(env: Env, base: Accumulators, s: SymState, t: nat)
    requires t < env.Bars() && OnTime(s, t) && Known(s)
    ensures Step(env, Lift(base, s), t) == Lift(base, Step(env, s, t)) && Known(Step(env, s, t))
  {
    hide PreBar, SnapshotAt, RunHook, EntryStage, PositionStage, SameBarStage, FundingStage, EquityStage, FirstDecision, Joined, Known;
    PreBarLifts(env, base, s, t);
    var pre := PreBar(env, s, t);
    var ctx := SnapshotAt(env, pre.pf, t);
    var (mod, ds) := RunHook(env, env.strategy.onBarClose, pre.mod, ctx, t);
    var asked := pre.(mod := mod);
    EntryLifts(env, base, asked, t, Some(FirstDecision(ds)), ctx);
    var entered := EntryStage(env, asked, t, Some(FirstDecision(ds)), ctx);
    PositionLifts(env, base, entered, t);
    var managed := PositionStage(env, entered, t);
    TailLifts(env, base, managed, t);
    var settled := SameBarStage(env, managed, t);
    TailLifts(env, base, settled, t);
    var funded := FundingStage(env, settled, t);
    TailLifts(env, base, funded, t);
    assert Step(env, s, t) == EquityStage(env, funded, t);
    assert Step(env, Lift(base, s), t) == EquityStage(env, Lift(base, funded), t);
  }

  lemma {:induction false} StepsLift(env: Env, base: Accumulators, s: SymState, k: nat)
    requires k <= env.Bars() && OnTime(s, 0) && Known(s)
    ensures Steps(env, Lift(base, s), 0, k) == Lift(base, Steps(env, s, 0, k)) && Known(Steps(env, s, 0, k))
    decreases k
  {
    hide Step, Joined, Known;
    if k > 0 {
      StepsLift(env, base, s, k - 1);
      StepLifts(env, base, Steps(env, s, 0, k - 1), k - 1);
    }
    assert Steps(env, Lift(base, s), 0, k) == Lift(base, Steps(env, s, 0, k)) && Known(Steps(env, s, 0, k));
  }

  lemma FinalizeLifts(env: Env, base: Accumulators, s: SymState)
    requires env.Bars() > 0 && Known(s)
    ensures Finalize(env, Lift(base, s)) == Lift(base, Finalize(env, s))
  {
    hide Joined, RunHook, SnapshotAt, MarkOrder;
    var n := env.Bars();
    var acc := s.acc;
    if s.pf.pending.Some? {
      JoinMark(base, s.acc, s.pf.pending.value.id, ExpiredOrder);
      acc := MarkOrder(s.acc, s.pf.pending.value.id, ExpiredOrder);
    }
    var last := env.view.candles[n - 1];
    var (pf, forced) := ForcedClose(env.core, s.pf.(pending := None), n - 1, last.ts, last.close);
    if forced.Some? {
      JoinTrade(base, acc, forced.value);
    }
    assert Finalize(env, Lift(base, s)) == Lift(base, Finalize(env, s));
  }

  /** A whole run writes behind whatever is there exactly what it writes into empty lists. */
  lemma RunAppends(env: Env, s: SymState)
    requires Quiet(s.pf)
    ensures Run(env, s) == Lift(s.acc, Run(env, s.(acc := NoRecords)))
  {
    var bare := s.(acc := NoRecords);
    JoinNothing(s.acc);
    if env.Bars() > 0 {
      hide Steps, Finalize, Joined, RunHook, SnapshotAt;
      var begun := Init(env, bare);
      assert Init(env, s) == Lift(s.acc, begun);
      StepsLift(env, s.acc, begun, env.Bars());
      FinalizeLifts(env, s.acc, Steps(env, begun, 0, env.Bars()));
    }
    assert Run(env, s) == Lift(s.acc, Run(env, bare));
  }
}
