/** The runner's own form: one object per symbol whose stages push into its lists and change its
    portfolio in place, driven either bar by bar or by batches over flat stretches. */
module SymbolRunner {
  import opened Basics
  import opened MarketView
  import opened TradingEngine
  import opened BarLoop

  // ---------------------------------------------------------------- what a flat, idle bar does

  predicate NoOverlays(env: Env) {
    |env.entryOverlays| == 0 && |env.postOverlays| == 0
  }

  /** The records a bar leaves behind when nothing is open, nothing waits and nothing was decided. */
  function IdleBar(env: Env, s: SymState, t: nat): SymState
    requires t < env.Bars()
  {
    var bar := env.view.candles[t];
    s.(acc := s.acc.(
         decisions := s.acc.decisions + [DecisionRecord(t, bar.ts, env.symbol, OnBarClose, Idle, [], Some(Idle), None)],
         equity := s.acc.equity + [EquityPoint(t, bar.ts, EquityAt(env.core, s.pf, bar.close))]))
  }

  lemma QuietPreBar(env: Env, s: SymState, t: nat)
    requires t < env.Bars() && Quiet(s.pf)
    ensures PreBar(env, s, t) == s
  {
  }

  lemma QuietProcess(env: Env, s: SymState, t: nat, base: Option<Decision>, ctx: Snapshot)
    requires t < env.Bars() && Quiet(s.pf) && NoOverlays(env)
    requires base == None || base == Some(Idle)
    ensures ProcessBar(env, s, t, base, ctx) == IdleBar(env, s, t)
  {
  }

  /** A lockstep bar on a flat stretch whose hook answers nothing only advances the module. */
  lemma QuietStep(env: Env, s: SymState, t: nat)
    requires t < env.Bars() && Quiet(s.pf) && NoOverlays(env)
    requires RunHook(env, env.strategy.onBarClose, s.mod, SnapshotAt(env, s.pf, t), t).1 == []
    ensures Step(env, s, t) ==
            IdleBar(env, s.(mod := RunHook(env, env.strategy.onBarClose, s.mod, SnapshotAt(env, s.pf, t), t).0), t)
  {
  }

  // ---------------------------------------------------------------- the batch contract

  /** Module state after asking the bar-close hook for the first `k` contexts of a window at `t`. */
  function AskedThrough(env: Env, mod: ModuleState, t: nat, ctxs: seq<Snapshot>, k: nat): ModuleState
    requires k <= |ctxs| && t + |ctxs| <= env.Bars()
  {
    if k == 0 then mod
    else RunHook(env, env.strategy.onBarClose, AskedThrough(env, mod, t, ctxs, k - 1), ctxs[k - 1], t + k - 1).0
  }

  function AnswerTo(env: Env, mod: ModuleState, t: nat, ctxs: seq<Snapshot>, k: nat): seq<Decision>
    requires k < |ctxs| && t + |ctxs| <= env.Bars()
  {
    RunHook(env, env.strategy.onBarClose, AskedThrough(env, mod, t, ctxs, k), ctxs[k], t + k).1
  }

  /** `executeStrategyHookBatch` for any executor that keeps its contract: every bar before
      `stoppedAt` was asked and answered nothing, and the answer of bar `stoppedAt` is returned.
      Where it stops beyond that is its own choice. */
  method ExecuteHookBatch(env: Env, mod: ModuleState, t: nat, ctxs: seq<Snapshot>)
    returns (stoppedAt: nat, decisions: seq<Decision>, mod': ModuleState)
    requires |ctxs| > 0 && t + |ctxs| <= env.Bars()
    ensures stoppedAt < |ctxs|
    ensures forall j :: 0 <= j < stoppedAt ==> AnswerTo(env, mod, t, ctxs, j) == []
    ensures decisions == AnswerTo(env, mod, t, ctxs, stoppedAt)
    ensures mod' == AskedThrough(env, mod, t, ctxs, stoppedAt + 1)
  {
    stoppedAt := 0;
    var (m, ds) := RunHook(env, env.strategy.onBarClose, mod, ctxs[0], t);
    mod', decisions := m, ds;
    while stoppedAt + 1 < |ctxs| && decisions == []
      invariant stoppedAt < |ctxs|
      invariant forall j :: 0 <= j < stoppedAt ==> AnswerTo(env, mod, t, ctxs, j) == []
      invariant decisions == AnswerTo(env, mod, t, ctxs, stoppedAt)
      invariant mod' == AskedThrough(env, mod, t, ctxs, stoppedAt + 1)
    {
      if * { break; }
      stoppedAt := stoppedAt + 1;
      var (m, ds) := RunHook(env, env.strategy.onBarClose, mod', ctxs[stoppedAt], t + stoppedAt);
      mod', decisions := m, ds;
    }
  }

  /** Contexts for bars `t .. upTo - 1`, all taken from the portfolio as it stands now. */
  function Window(env: Env, pf: Portfolio, t: nat, upTo: nat): (r: seq<Snapshot>)
    requires t <= upTo <= env.Bars()
    ensures |r| == upTo - t
    ensures forall j :: 0 <= j < |r| ==> r[j] == SnapshotAt(env, pf, t + j)
  {
    seq(upTo - t, j requires 0 <= j < upTo - t => SnapshotAt(env, pf, t + j))
  }

  /** On a flat stretch with empty answers, lockstep reaches the batched module state and leaves one
      idle record per bar: the portfolio every prebuilt context was taken from never changed. */
  lemma {:induction false} FlatStretch(env: Env, s: SymState, t: nat, ctxs: seq<Snapshot>, k: nat)
    requires Quiet(s.pf) && NoOverlays(env)
    requires k <= |ctxs| && t + |ctxs| <= env.Bars()
    requires ctxs == Window(env, s.pf, t, t + |ctxs|)
    requires forall j :: 0 <= j < k ==> AnswerTo(env, s.mod, t, ctxs, j) == []
    ensures var r := Steps(env, s, t, k);
            r.pf == s.pf && r.mod == AskedThrough(env, s.mod, t, ctxs, k)
  {
    hide Step, IdleBar, RunHook, SnapshotAt;
    if k > 0 {
      FlatStretch(env, s, t, ctxs, k - 1);
      var r := Steps(env, s, t, k - 1);
      assert ctxs[k - 1] == SnapshotAt(env, r.pf, t + k - 1);
      assert AnswerTo(env, s.mod, t, ctxs, k - 1) == [];
      QuietStep(env, r, t + k - 1);
      IdleKeeps(env, r.(mod := AskedThrough(env, s.mod, t, ctxs, k)), t + k - 1);
    }
  }

  lemma IdleKeeps(env: Env, s: SymState, t: nat)
    requires t < env.Bars()
    ensures IdleBar(env, s, t).pf == s.pf && IdleBar(env, s, t).mod == s.mod
  {
  }

  /** Stages one and two leave a quiet portfolio alone, so repeating them changes nothing. */
  lemma StepAfterPreBar(env: Env, s: SymState, t: nat)
    requires t < env.Bars() && OnTime(s, t) && Quiet(PreBar(env, s, t).pf)
    ensures Step(env, s, t) == Step(env, PreBar(env, s, t), t)
  {
  }

  /** The batched driver's next prefix bar equals lockstep up to the module state, which already
      stands where the whole batch left it. */
  lemma PrefixBar(env: Env, s: SymState, t: nat, ctxs: seq<Snapshot>, j: nat, m: ModuleState)
    requires Quiet(s.pf) && NoOverlays(env)
    requires j < |ctxs| && t + |ctxs| <= env.Bars() && ctxs == Window(env, s.pf, t, t + |ctxs|)
    requires forall i :: 0 <= i <= j ==> AnswerTo(env, s.mod, t, ctxs, i) == []
    ensures Steps(env, s, t, j).pf == s.pf && Steps(env, s, t, j + 1).pf == s.pf
    ensures ProcessBar(env, Steps(env, s, t, j).(mod := m), t + j, None, ctxs[j]) ==
            Steps(env, s, t, j + 1).(mod := m)
  {
    hide Step, PreBar, ProcessBar, IdleBar, RunHook, SnapshotAt, Window;
    FlatStretch(env, s, t, ctxs, j);
    FlatStretch(env, s, t, ctxs, j + 1);
    var r := Steps(env, s, t, j);
    assert ctxs[j] == SnapshotAt(env, r.pf, t + j);
    assert AnswerTo(env, s.mod, t, ctxs, j) == [];
    QuietStep(env, r, t + j);
    assert Steps(env, s, t, j + 1) == Step(env, r, t + j);
    QuietProcess(env, r.(mod := m), t + j, None, ctxs[j]);
    IdleCommutes(env, r, t + j, AskedThrough(env, s.mod, t, ctxs, j + 1), m);
    assert ProcessBar(env, r.(mod := m), t + j, None, ctxs[j]) == Steps(env, s, t, j + 1).(mod := m);
  }

  lemma IdleCommutes(env: Env, s: SymState, t: nat, m: ModuleState, m': ModuleState)
    requires t < env.Bars()
    ensures IdleBar(env, s.(mod := m), t).(mod := m') == IdleBar(env, s.(mod := m'), t)
  {
  }

  lemma StopBar(env: Env, s: SymState, t: nat, ctxs: seq<Snapshot>, j: nat, m: ModuleState, ds: seq<Decision>)
    requires Quiet(s.pf) && NoOverlays(env)
    requires j < |ctxs| && t + |ctxs| <= env.Bars() && ctxs == Window(env, s.pf, t, t + |ctxs|)
    requires forall i :: 0 <= i < j ==> AnswerTo(env, s.mod, t, ctxs, i) == []
    requires ds == AnswerTo(env, s.mod, t, ctxs, j) && m == AskedThrough(env, s.mod, t, ctxs, j + 1)
    ensures Steps(env, s, t, j).pf == s.pf
    ensures ProcessBar(env, Steps(env, s, t, j).(mod := m), t + j, Some(FirstDecision(ds)), ctxs[j]) ==
            Steps(env, s, t, j + 1)
  {
    FlatStretch(env, s, t, ctxs, j);
    var r := Steps(env, s, t, j);
    QuietPreBar(env, r, t + j);
    assert ctxs[j] == SnapshotAt(env, r.pf, t + j);
    hide PreBar, ProcessBar, RunHook, SnapshotAt, Window, FirstDecision;
  }

  // ---------------------------------------------------------------- the object

  class SymbolRun {
    const env: Env
    var mod: ModuleState
    var pf: Portfolio
    var decisions: seq<DecisionRecord>
    var orders: seq<Order>
    var orderIndex: map<OrderId, nat>
    var fills: seq<Fill>
    var risks: seq<RiskRecord>
    var trades: seq<Trade>
    var equity: seq<EquityPoint>
    var funding: seq<FundingEntry>
    var issues: seq<Issue>

    constructor (env: Env, s: SymState)
      ensures this.env == env && State() == s
    {
      this.env, mod, pf := env, s.mod, s.pf;
      decisions, orders, orderIndex, fills, risks := s.acc.decisions, s.acc.orders, s.acc.orderIndex, s.acc.fills, s.acc.risks;
      trades, equity, funding, issues := s.acc.trades, s.acc.equity, s.acc.funding, s.acc.issues;
    }

    function Acc(): Accumulators reads this {
      Accumulators(decisions, orders, orderIndex, fills, risks, trades, equity, funding, issues)
    }

    ghost function State(): SymState reads this {
      SymState(mod, pf, Acc())
    }

    method PushOrder(order: Order)
      modifies this`orders, this`orderIndex
      ensures Acc() == RecordOrder(old(Acc()), order)
    {
      orderIndex := orderIndex[order.id := |orders|];
      orders := orders + [order];
    }

    method SetStatus(id: OrderId, status: Status)
      modifies this`orders
      ensures Acc() == MarkOrder(old(Acc()), id, status)
    {
      if id in orderIndex {
        var i := orderIndex[id];
        if i < |orders| {
          orders := orders[i := orders[i].(status := status)];
        }
      }
    }

    method Settle(t: nat, base: real)
      requires t < env.Bars() && Coherent(pf)
      modifies this
      ensures State() == SettlePending(env, old(State()), t, base)
    {
      if pf.pending.None? { return; }
      var p := pf.pending.value;
      var ts := env.view.candles[t].ts;
      if p.intent.OpenIntent? {
        var quote := env.core.openFill(p.side, base, p.notional);
        pf := SettleOpen(env.core, pf, quote);
        fills := fills + [Fill(p.id, t, ts, quote, quote.size, PlainFill)];
      } else if p.intent.AddIntent? {
        var quote := env.core.openFill(p.side, base, p.notional);
        pf := SettleAdd(env.core, pf, quote);
        fills := fills + [Fill(p.id, t, ts, quote, quote.size, AddFill)];
      } else {
        var fraction := p.closeFraction;
        var size := env.core.closedSize(pf.position.value, if fraction.Some? then fraction.value else 1.0);
        var quote := env.core.closeFill(p.side, base, size);
        var (after, trade) := SettleClose(env.core, pf, quote, t, ts, p.closeReason, fraction);
        pf := after;
        fills := fills + [Fill(p.id, t, ts, quote, size, if fraction.Some? then PartialCloseFill else PlainFill)];
        trades := trades + [trade];
      }
      SetStatus(p.id, FilledOrder);
    }

    method Protect(t: nat)
      requires t < env.Bars() && pf.pending.None?
      modifies this
      ensures State() == ProtectionCheck(env, old(State()), t)
    {
      if pf.position.None? || (pf.position.value.stop.None? && pf.position.value.take.None?) { return; }
      var pos := pf.position.value;
      var hit := env.core.detect(pos, env.view.candles[t]);
      if hit.None? { return; }
      var ts := env.view.candles[t].ts;
      var quote := env.core.protectionFill(pos.side, hit.value.fillBase, pos.size);
      var id := ProtectionId(env, t);
      PushOrder(Order(id, t, pos.side, CloseIntent, FilledOrder, true, None, None));
      var (after, trade) := ClosePosition(env.core, pf, quote, t, ts, hit.value.kind);
      pf := after;
      fills := fills + [Fill(id, t, ts, quote, pos.size, ProtectionFill)];
      trades := trades + [trade];
    }

    method PreBarStages(t: nat)
      requires t < env.Bars() && OnTime(State(), t)
      modifies this
      ensures State() == PreBar(env, old(State()), t)
    {
      hide SettlePending, ProtectionCheck;
      if pf.pending.Some? && pf.pending.value.decisionBar == t - 1 {
        Settle(t, env.view.candles[t].open);
      }
      Protect(t);
    }

    method ApplyEntryDecision(t: nat, final: Option<Decision>) returns (risk: Option<RiskRecord>)
      requires t < env.Bars() && pf.pending.None?
      modifies this
      ensures (State(), risk) == EntryRisk(env, old(State()), t, final)
    {
      risk := None;
      if final.Some? && pf.position.None? && pf.pending.None? {
        if final.value.Enter? {
          var o := env.core.evaluate(final.value, t, RiskContextAt(env.core, pf, env.view.candles[t].close));
          risk := Some(RiskRecord(t, o.detail));
          risks := risks + [risk.value];
          if !o.rejected {
            var pending := EntryPending(env, t, final.value.side, o);
            PushOrder(Order(pending.id, t, final.value.side, OpenIntent, PendingOrder, false, None, None));
            pf := PlacePending(pf, pending);
          }
        } else if final.value.AddToPosition? || final.value.UpdateProtection? {
          var o := env.core.evaluate(final.value, t, RiskContextAt(env.core, pf, env.view.candles[t].close));
          risk := Some(RiskRecord(t, o.detail));
          risks := risks + [risk.value];
        }
      }
    }

    method Enter(t: nat, base: Option<Decision>, ctx: Snapshot)
      requires t < env.Bars() && pf.pending.None?
      modifies this
      ensures State() == EntryStage(env, old(State()), t, base, ctx)
    {
      hide EntryRisk, Compose;
      var baseDecision := if base.Some? then base.value else Idle;
      var (m, comp) := Compose(env, env.entryOverlays, 0, mod, ctx, t, baseDecision, []);
      mod := m;
      if comp.error.Some? {
        issues := issues + [Issue(env.symbol, t, OnBarClose, comp.error.value)];
      }
      var risk := ApplyEntryDecision(t, comp.final);
      decisions := decisions + [DecisionRecord(t, env.view.candles[t].ts, env.symbol, OnBarClose, baseDecision, comp.effects, comp.final, risk)];
      assert State() == EntryStage(env, old(State()), t, base, ctx);
    }

    method ApplyPositionDecision(t: nat, final: Option<Decision>) returns (risk: Option<RiskRecord>)
      requires t < env.Bars() && Coherent(pf) && pf.position.Some?
      requires pf.pending.Some? ==> pf.pending.value.decisionBar == t
      modifies this
      ensures (State(), risk) == PositionRisk(env, old(State()), t, final)
    {
      risk := None;
      if final.None? || pf.pending.Some? { return; }
      var pos := pf.position.value;
      var ctx := RiskContextAt(env.core, pf, env.view.candles[t].close);
      if final.value.Exit? {
        var o := env.core.evaluate(final.value, t, ctx);
        risk := Some(RiskRecord(t, o.detail));
        risks := risks + [risk.value];
        if !o.rejected {
          var id := OrderId(env.symbol, t, CloseTag);
          PushOrder(Order(id, t, pos.side, CloseIntent, PendingOrder, false, None, o.closeFraction));
          pf := PlacePending(pf, Pending(id, pos.side, CloseIntent, t, 0.0, None, None, o.closeFraction, final.value.target));
        }
      } else if final.value.AddToPosition? {
        var o := env.core.evaluate(final.value, t, ctx.(position := Some(pos)));
        risk := Some(RiskRecord(t, o.detail));
        risks := risks + [risk.value];
        if !o.rejected {
          var id := OrderId(env.symbol, t, AddTag);
          PushOrder(Order(id, t, pos.side, AddIntent, PendingOrder, false, Some(o.mode), None));
          pf := PlacePending(pf, Pending(id, pos.side, AddIntent, t, o.notional, None, None, None, ""));
        }
      } else if final.value.UpdateProtection? {
        var o := env.core.evaluate(final.value, t, ctx);
        risk := Some(RiskRecord(t, o.detail));
        risks := risks + [risk.value];
        if !o.rejected {
          pf := pf.(position := Some(env.core.reprotect(pos, o.stop, o.take)));
        }
      }
    }

    method ManagePosition(t: nat)
      requires t < env.Bars() && Coherent(pf)
      requires pf.pending.Some? ==> pf.pending.value.decisionBar == t
      modifies this
      ensures State() == PositionStage(env, old(State()), t)
    {
      if pf.position.None? || (env.strategy.onPositionBar.None? && |env.postOverlays| == 0) { return; }
      var ctx := SnapshotAt(env, pf, t);
      var base := Idle;
      if env.strategy.onPositionBar.Some? {
        var (m, ds) := RunHook(env, env.strategy.onPositionBar.value, mod, ctx, t);
        mod, base := m, FirstDecision(ds);
      }
      var (m, comp) := Compose(env, env.postOverlays, 0, mod, ctx, t, base, []);
      mod := m;
      if comp.error.Some? {
        issues := issues + [Issue(env.symbol, t, OnPositionBar, comp.error.value)];
      }
      hide PositionRisk, Compose, RunHook, SnapshotAt, FirstDecision;
      var risk := ApplyPositionDecision(t, comp.final);
      decisions := decisions + [DecisionRecord(t, env.view.candles[t].ts, env.symbol, OnPositionBar, base, comp.effects, comp.final, risk)];
    }

    method ChargeFunding(t: nat)
      requires t < env.Bars()
      modifies this
      ensures State() == FundingStage(env, old(State()), t)
    {
      if !env.fundingEnabled || pf.position.None? { return; }
      var bar := env.view.candles[t];
      var reading := FundingReading(env, t);
      var covered := !reading.Missing?;
      var rate := if covered then reading.point.rate else 0.0;
      var cost := env.core.barFunding(pf.position.value, bar.close, rate, covered);
      var (cash, position) := env.core.bookFunding(pf.cash, pf.position.value, cost);
      pf := pf.(cash := cash, position := Some(position));
      funding := funding + [FundingEntry(t, bar.ts, rate, covered, cost)];
    }

    /** Stages three to five of a bar whose hook has answered. */
    method Process(t: nat, base: Option<Decision>, ctx: Snapshot)
      requires t < env.Bars() && pf.pending.None?
      modifies this
      ensures State() == ProcessBar(env, old(State()), t, base, ctx)
    {
      hide EntryStage, PositionStage, SettlePending, FundingStage;
      Enter(t, base, ctx);
      ManagePosition(t);
      if env.sameBarClose && pf.pending.Some? && pf.pending.value.decisionBar == t {
        Settle(t, env.view.candles[t].close);
      }
      ChargeFunding(t);
      var bar := env.view.candles[t];
      equity := equity + [EquityPoint(t, bar.ts, EquityAt(env.core, pf, bar.close))];
    }

    method FinalizeSymbol()
      requires env.Bars() > 0 && Coherent(pf)
      modifies this
      ensures State() == Finalize(env, old(State()))
    {
      var n := env.Bars();
      if pf.pending.Some? {
        var id := pf.pending.value.id;
        pf := pf.(pending := None);
        SetStatus(id, ExpiredOrder);
      }
      var last := env.view.candles[n - 1];
      var (after, forced) := ForcedClose(env.core, pf, n - 1, last.ts, last.close);
      pf := after;
      if forced.Some? {
        trades := trades + [forced.value];
      }
      mod := RunHook(env, env.strategy.dispose, mod, SnapshotAt(env, pf, n - 1), n - 1).0;
    }

    /** One batched stretch from a flat bar: contexts first, one call, then the same per-bar bodies. */
    method RunBatch(t: nat, upTo: nat) returns (stoppedAt: nat)
      requires t + 1 <= upTo <= env.Bars() && Quiet(pf) && NoOverlays(env)
      modifies this
      ensures t + stoppedAt < upTo
      ensures State() == Steps(env, old(State()), t, stoppedAt + 1)
    {
      hide Step, PreBar, ProcessBar, IdleBar, RunHook, SnapshotAt, AnswerTo, AskedThrough, Window, FirstDecision;
      ghost var s := State();
      var ctxs := [];
      var j := t;
      while j < upTo
        invariant t <= j <= upTo
        invariant State() == s
        invariant ctxs == Window(env, s.pf, t, j)
      {
        ctxs := ctxs + [SnapshotAt(env, pf, j)];
        assert ctxs == Window(env, s.pf, t, j + 1);
        j := j + 1;
      }
      var ds, m;
      stoppedAt, ds, m := ExecuteHookBatch(env, mod, t, ctxs);
      mod := m;
      j := 0;
      while j < stoppedAt
        invariant 0 <= j <= stoppedAt < |ctxs| == upTo - t
        invariant Steps(env, s, t, j).pf == s.pf
        invariant State() == Steps(env, s, t, j).(mod := m)
      {
        PrefixBar(env, s, t, ctxs, j, m);
        Process(t + j, None, ctxs[j]);
        if j < stoppedAt - 1 {
          QuietPreBar(env, State(), t + j + 1);
          PreBarStages(t + j + 1);
        }
        j := j + 1;
      }
      if stoppedAt > 0 {
        QuietPreBar(env, State(), t + stoppedAt);
        PreBarStages(t + stoppedAt);
      }
      StopBar(env, s, t, ctxs, stoppedAt, m, ds);
      Process(t + stoppedAt, Some(FirstDecision(ds)), ctxs[stoppedAt]);
      assert State() == Steps(env, s, t, stoppedAt + 1);
    }

    /** One bar in lockstep: settle and protect, ask the hook, process its answer. */
    method StepBar(t: nat)
      requires t < env.Bars() && OnTime(State(), t)
      modifies this
      ensures State() == Step(env, old(State()), t)
    {
      hide PreBar, ProcessBar, RunHook, SnapshotAt, FirstDecision;
      PreBarStages(t);
      var ctx := SnapshotAt(env, pf, t);
      var (m, ds) := RunHook(env, env.strategy.onBarClose, mod, ctx, t);
      mod := m;
      Process(t, Some(FirstDecision(ds)), ctx);
    }

    /** `runSymbol`. Whatever batch size is configured, whatever window the executor prefers and
        wherever it stops, the run ends in the state of pure lockstep. */
    method RunSymbol(maxBars: Option<nat>)
      requires Quiet(pf)
      modifies this
      ensures State() == Run(env, old(State()))
    {
      hide Step, PreBar, ProcessBar, RunHook, SnapshotAt, FirstDecision, Finalize;
      var n := env.Bars();
      if n == 0 { return; }
      mod := RunHook(env, env.strategy.init, mod, SnapshotAt(env, pf, 0), 0).0;
      ghost var s := State();
      assert s == Init(env, old(State()));
      var t := 0;
      while t < n
        invariant 0 <= t <= n
        invariant State() == Steps(env, s, 0, t)
      {
        ghost var before := State();
        PreBarStages(t);
        if maxBars.Some? && maxBars.value >= 2 && Quiet(pf) && NoOverlays(env) && t + 1 < n {
          var hinted: int := *;
          var cap := if hinted >= 2 then Min(maxBars.value, hinted) else maxBars.value;
          StepAfterPreBar(env, before, t);
          ghost var pre := State();
          var stoppedAt := RunBatch(t, Min(n, t + cap));
          StepsFromPre(env, before, pre, t, stoppedAt + 1);
          StepsSplit(env, s, 0, t, stoppedAt + 1);
          t := t + stoppedAt + 1;
        } else {
          var ctx := SnapshotAt(env, pf, t);
          var (m, ds) := RunHook(env, env.strategy.onBarClose, mod, ctx, t);
          mod := m;
          Process(t, Some(FirstDecision(ds)), ctx);
          StepUnfold(env, before, t);
          t := t + 1;
        }
      }
      FinalizeSymbol();
      assert State() == Run(env, old(State()));
    }
  }

  lemma StepUnfold(env: Env, s: SymState, t: nat)
    requires t < env.Bars() && OnTime(s, t)
    ensures var pre := PreBar(env, s, t);
            var ctx := SnapshotAt(env, pre.pf, t);
            var (mod, ds) := RunHook(env, env.strategy.onBarClose, pre.mod, ctx, t);
            Step(env, s, t) == ProcessBar(env, pre.(mod := mod), t, Some(FirstDecision(ds)), ctx)
  {
  }

  lemma {:induction false} StepsFromPre(env: Env, s: SymState, pre: SymState, t: nat, k: nat)
    requires OnTime(s, t) && OnTime(pre, t) && 1 <= k && t + k <= env.Bars()
    requires Step(env, s, t) == Step(env, pre, t)
    ensures Steps(env, s, t, k) == Steps(env, pre, t, k)
    decreases k
  {
    hide Step;
    if k > 1 {
      StepsFromPre(env, s, pre, t, k - 1);
    } else {
      assert Steps(env, s, t, 0) == s && Steps(env, pre, t, 0) == pre;
    }
  }
}
