/** The seven things that happen to a symbol at a bar, each said of the state before and after it in
    terms of prices, positions and records; and the proof that every lockstep bar does these, in order. */
module BarRules {
  import opened Basics
  import opened FundingColumn
  import opened CandleData
  import opened MarketView
  import opened TradingEngine
  import opened BarLoop
  import opened Overlays

  /** Orders are never removed or altered, except in status. */
  ghost predicate OrdersKept(a: seq<Order>, b: seq<Order>) {
    |a| == |b| && forall i :: 0 <= i < |a| ==> b[i] == a[i].(status := b[i].status)
  }

  // ---------------------------------------------------------------- fills

  /** The fill that a waiting order gets at bar `t` when the market is taken to stand at `base`. */
  ghost predicate FillOf(env: Env, p: Pending, pf: Portfolio, t: nat, base: real, f: Fill)
    requires t < env.Bars()
  {
    f.orderId == p.id && f.bar == t && f.ts == env.view.candles[t].ts &&
    match p.intent
    case OpenIntent => f.kind == PlainFill && f.quote == env.core.openFill(p.side, base, p.notional) && f.size == f.quote.size
    case AddIntent => f.kind == AddFill && f.quote == env.core.openFill(p.side, base, p.notional) && f.size == f.quote.size
    case CloseIntent =>
      pf.position.Some? && f.quote == env.core.closeFill(p.side, base, f.size) &&
      if p.closeFraction.Some?
      then f.kind == PartialCloseFill && f.size == env.core.closedSize(pf.position.value, p.closeFraction.value)
      else f.kind == PlainFill && f.size == env.core.closedSize(pf.position.value, 1.0)
  }

  /** What that fill does to cash and position, and the trade it ends if it closes anything. */
  ghost predicate Booked(env: Env, p: Pending, pf: Portfolio, f: Fill, after: Portfolio, trades: seq<Trade>) {
    after.pending == None &&
    match p.intent
    case OpenIntent =>
      pf.position.None? && after.position.Some? && trades == [] &&
      (after.cash, after.position.value) == env.core.bookOpen(pf.cash, p, f.quote)
    case AddIntent =>
      pf.position.Some? && after.position.Some? && trades == [] &&
      (after.cash, after.position.value) == env.core.bookAdd(pf.cash, pf.position.value, f.quote)
    case CloseIntent =>
      pf.position.Some? &&
      var (cash, rest, pnl) := env.core.bookClose(pf.cash, pf.position.value, f.quote, p.closeFraction);
      after.cash == cash && after.position == (if p.closeFraction.Some? then Some(rest) else None) &&
      trades == [Trade(p.closeReason, f.bar, f.ts, pnl)]
  }

  /** A waiting order is filled: one fill, its bookkeeping, and nothing else. */
  ghost predicate Fills(env: Env, a: SymState, b: SymState, t: nat, base: real)
    requires t < env.Bars()
  {
    a.pf.pending.Some? && b.mod == a.mod && |b.acc.fills| == |a.acc.fills| + 1 && a.acc.trades <= b.acc.trades &&
    var f := b.acc.fills[|a.acc.fills|];
    FillOf(env, a.pf.pending.value, a.pf, t, base, f) &&
    Booked(env, a.pf.pending.value, a.pf, f, b.pf, b.acc.trades[|a.acc.trades|..]) && OrdersKept(a.acc.orders, b.acc.orders) &&
    b.acc == a.acc.(fills := a.acc.fills + [f], trades := b.acc.trades, orders := b.acc.orders)
  }

  lemma SettlementFills(env: Env, s: SymState, t: nat, base: real)
    requires t < env.Bars() && Coherent(s.pf) && s.pf.pending.Some?
    ensures Fills(env, s, SettlePending(env, s, t, base), t, base)
  {
  }

  // ---------------------------------------------------------------- the seven phases

  /** At the open: an order waiting from the bar before is filled at the opening price. */
  ghost predicate AtOpen(env: Env, a: SymState, b: SymState, t: nat)
    requires t < env.Bars()
  {
    if a.pf.pending.Some? then a.pf.pending.value.decisionBar + 1 == t && Fills(env, a, b, t, env.view.candles[t].open) else b == a
  }

  /** Protection: a position with a stop or a target that the bar reaches is closed whole, at the level reached. */
  ghost predicate Guards(env: Env, a: SymState, b: SymState, t: nat)
    requires t < env.Bars()
  {
    var bar := env.view.candles[t];
    if a.pf.position.Some? && (a.pf.position.value.stop.Some? || a.pf.position.value.take.Some?) && env.core.detect(a.pf.position.value, bar).Some?
    then Guarded(env, a, b, t, a.pf.position.value, env.core.detect(a.pf.position.value, bar).value)
    else b == a
  }

  ghost predicate Guarded(env: Env, a: SymState, b: SymState, t: nat, pos: Position, hit: ProtectionHit)
    requires t < env.Bars()
  {
    var id := OrderId(env.symbol, t, ProtectionTag);
    var quote := env.core.protectionFill(pos.side, hit.fillBase, pos.size);
    var ts := env.view.candles[t].ts;
    var (cash, _, pnl) := env.core.bookClose(a.pf.cash, pos, quote, None);
    b == SymState(a.mod, Portfolio(cash, None, None), a.acc.(
      orders := a.acc.orders + [Order(id, t, pos.side, CloseIntent, FilledOrder, true, None, None)],
      orderIndex := a.acc.orderIndex[id := |a.acc.orders|],
      fills := a.acc.fills + [Fill(id, t, ts, quote, pos.size, ProtectionFill)],
      trades := a.acc.trades + [Trade(hit.kind, t, ts, pnl)]))
  }

  /** What a hook is shown: the bar, the position as it stands, and the equity at the bar's close. */
  ghost predicate Shows(env: Env, pf: Portfolio, t: nat, ctx: Snapshot)
    requires t < env.Bars()
  {
    ctx.barIndex == t && ctx.bar == env.view.candles[t] && ctx.equity == env.core.equity(pf.cash, pf.position, env.view.candles[t].close) &&
    match pf.position
    case None => ctx.position == None && ctx.openPositions == 0
    case Some(p) => ctx.position == Some(PositionView(p.side, p.size, p.entryPrice, p.stop, p.take)) && ctx.openPositions == 1
  }

  /** The base decision of a hook run: the first it answers with, or idling; it leaves the module in state `m`. */
  ghost predicate Answers(env: Env, hook: DecisionHook, mod: ModuleState, ctx: Snapshot, t: nat, m: ModuleState, base: Decision)
    requires t < env.Bars()
  {
    var (after, ds) := Interpret(env.view, t, hook(mod, ctx));
    m == after && if |ds| == 0 then base == Idle else base == ds[0]
  }

  /** How the risk stage sees the portfolio: equity at the close, zero or one position, and for an addition the position. */
  ghost predicate RiskSees(env: Env, pf: Portfolio, t: nat, adds: bool, ctx: RiskContext)
    requires t < env.Bars()
  {
    ctx.equity == env.core.equity(pf.cash, pf.position, env.view.candles[t].close) &&
    ctx.openPositions == (if pf.position.Some? then 1 else 0) && ctx.position == if adds then pf.position else None
  }

  /** What a decision that is put to the risk stage as `o` leads to. */
  ghost predicate Leads(env: Env, pf: Portfolio, t: nat, d: Decision, o: RiskOutcome, after: Portfolio, orders: seq<Order>) {
    var entry := OrderId(env.symbol, t, OpenTag);
    var exit := OrderId(env.symbol, t, CloseTag);
    var add := OrderId(env.symbol, t, AddTag);
    if o.rejected then after == pf && orders == []
    else match (d, pf.position)
      case (Enter(side, _), None) =>
        orders == [Order(entry, t, side, OpenIntent, PendingOrder, false, None, None)] &&
        after == pf.(pending := Some(Pending(entry, side, OpenIntent, t, o.notional, o.stop, o.take, None, "")))
      case (Exit(target, _), Some(pos)) =>
        orders == [Order(exit, t, pos.side, CloseIntent, PendingOrder, false, None, o.closeFraction)] &&
        after == pf.(pending := Some(Pending(exit, pos.side, CloseIntent, t, 0.0, None, None, o.closeFraction, target)))
      case (AddToPosition(_), Some(pos)) =>
        orders == [Order(add, t, pos.side, AddIntent, PendingOrder, false, Some(o.mode), None)] &&
        after == pf.(pending := Some(Pending(add, pos.side, AddIntent, t, o.notional, None, None, None, "")))
      case (UpdateProtection(_), Some(pos)) =>
        orders == [] && after == pf.(position := Some(env.core.reprotect(pos, o.stop, o.take)))
      case _ => orders == [] && after == pf
  }

  /** The decisions the risk stage is asked about: from the bar-close hook on a flat portfolio all but exits, from the
      position hook on an open one all but entries; idling and notes never, and nothing while an order waits. */
  predicate Asked(hook: HookName, pf: Portfolio, final: Option<Decision>) {
    final.Some? && pf.pending.None? && (hook == OnBarClose <==> pf.position.None?) &&
    (final.value.AddToPosition? || final.value.UpdateProtection? || if hook == OnBarClose then final.value.Enter? else final.value.Exit?)
  }

  /** The risk stage: a verdict, its record and what the decision leads to, or nothing at all. */
  ghost predicate Risked(env: Env, a: SymState, b: SymState, t: nat, hook: HookName, final: Option<Decision>, risk: Option<RiskRecord>)
    requires t < env.Bars()
  {
    if Asked(hook, a.pf, final) then
      risk.Some? && b.mod == a.mod && a.acc.orders <= b.acc.orders &&
      var orders := b.acc.orders[|a.acc.orders|..];
      Ruled(env, a.pf, t, final.value, risk.value, b.pf, orders) &&
      b.acc == a.acc.(orders := b.acc.orders, risks := a.acc.risks + [risk.value],
                      orderIndex := if orders == [] then a.acc.orderIndex else a.acc.orderIndex[orders[0].id := |a.acc.orders|])
    else risk.None? && b == a
  }

  /** A composed decision is put to the risk stage and recorded, with the verdict if one was given. */
  ghost predicate Decides(env: Env, a: SymState, b: SymState, t: nat, hook: HookName, base: Decision, m: ModuleState, comp: Composition)
    requires t < env.Bars()
  {
    |b.acc.decisions| == |a.acc.decisions| + 1 &&
    var issues := if comp.error.None? then [] else [Issue(env.symbol, t, hook, comp.error.value)];
    var record := b.acc.decisions[|a.acc.decisions|];
    var before := SymState(m, a.pf, a.acc.(issues := a.acc.issues + issues));
    var after := b.(acc := b.acc.(decisions := a.acc.decisions));
    Risked(env, before, after, t, hook, comp.final, record.risk) && b.acc.decisions == a.acc.decisions + [record] &&
    record == DecisionRecord(t, env.view.candles[t].ts, env.symbol, hook, base, comp.effects, comp.final, record.risk)
  }

  ghost predicate Ruled(env: Env, pf: Portfolio, t: nat, d: Decision, risk: RiskRecord, after: Portfolio, orders: seq<Order>)
    requires t < env.Bars()
  {
    exists ctx :: RiskSees(env, pf, t, d.AddToPosition? && pf.position.Some?, ctx) &&
      risk == RiskRecord(t, env.core.evaluate(d, t, ctx).detail) && Leads(env, pf, t, d, env.core.evaluate(d, t, ctx), after, orders)
  }

  /** The bar-close decision, composed with the entry overlays. */
  ghost predicate Enters(env: Env, a: SymState, b: SymState, t: nat)
    requires t < env.Bars()
  {
    exists ctx, m, base :: Shows(env, a.pf, t, ctx) && Answers(env, env.strategy.onBarClose, a.mod, ctx, t, m, base) &&
      Composed(env, a, b, t, OnBarClose, env.entryOverlays, ctx, m, base)
  }

  ghost predicate Composed(env: Env, a: SymState, b: SymState, t: nat, hook: HookName, overlays: seq<OverlayHook>, ctx: Snapshot,
                           m: ModuleState, base: Decision)
    requires t < env.Bars()
  {
    exists m', comp :: Overlaid(env, overlays, ctx, t, m, base, m', comp) && Decides(env, a, b, t, hook, base, m', comp)
  }

  /** The position hook and the post overlays, asked only while a position is open and there is anyone to ask. */
  ghost predicate Manages(env: Env, a: SymState, b: SymState, t: nat)
    requires t < env.Bars()
  {
    if a.pf.position.None? || (env.strategy.onPositionBar.None? && env.postOverlays == []) then b == a
    else
      exists ctx, m, base :: Shows(env, a.pf, t, ctx) && Composed(env, a, b, t, OnPositionBar, env.postOverlays, ctx, m, base) &&
        if env.strategy.onPositionBar.None? then m == a.mod && base == Idle
        else Answers(env, env.strategy.onPositionBar.value, a.mod, ctx, t, m, base)
  }

  /** At the close: under same-bar close an order placed at this bar is filled at the closing price. */
  ghost predicate AtClose(env: Env, a: SymState, b: SymState, t: nat)
    requires t < env.Bars()
  {
    if env.sameBarClose && a.pf.pending.Some? then a.pf.pending.value.decisionBar == t && Fills(env, a, b, t, env.view.candles[t].close) else b == a
  }

  /** Funding: an open position is charged at the close with the rate read at this bar, or with none if it is missing. */
  ghost predicate Charges(env: Env, a: SymState, b: SymState, t: nat)
    requires t < env.Bars()
  {
    var bar := env.view.candles[t];
    if !env.fundingEnabled || a.pf.position.None? then b == a
    else
      var rate := RateAt(env, t);
      var cost := env.core.barFunding(a.pf.position.value, bar.close, if rate.Some? then rate.value else 0.0, rate.Some?);
      var (cash, position) := env.core.bookFunding(a.pf.cash, a.pf.position.value, cost);
      b == SymState(a.mod, a.pf.(cash := cash, position := Some(position)), a.acc.(
        funding := a.acc.funding + [FundingEntry(t, bar.ts, if rate.Some? then rate.value else 0.0, rate.Some?, cost)]))
  }

  /** The rate a bar is charged with: the tape's reading at the bar's minute, stale within one cadence of the bar before. */
  ghost function RateAt(env: Env, t: nat): Option<real>
    requires t < env.Bars()
  {
    match env.view.tape
    case None => None
    case Some(tape) =>
      match tape.funding
      case None => None
      case Some(dense) =>
        var times := seq(env.Bars(), i requires 0 <= i < env.Bars() => env.view.candles[i].ts);
        match ReadingAt(dense, Column(dense, tape.grid), times, env.view.candles[t].ts, t, Some(env.cadenceMs))
        case Missing => None
        case Stale(p) => Some(p.rate)
        case Present(p) => Some(p.rate)
  }

  /** Last, the equity at the close is recorded. */
  ghost predicate Marks(env: Env, a: SymState, b: SymState, t: nat)
    requires t < env.Bars()
  {
    var bar := env.view.candles[t];
    b == a.(acc := a.acc.(equity := a.acc.equity + [EquityPoint(t, bar.ts, env.core.equity(a.pf.cash, a.pf.position, bar.close))]))
  }

  // ---------------------------------------------------------------- a bar does these, in order

  /** The states a symbol passes through at one bar. */
  datatype Passage = Passage(filled: SymState, guarded: SymState, entered: SymState, managed: SymState, closed: SymState, charged: SymState)

  ghost predicate Passes(env: Env, a: SymState, w: Passage, b: SymState, t: nat)
    requires t < env.Bars()
  {
    AtOpen(env, a, w.filled, t) && Guards(env, w.filled, w.guarded, t) && Enters(env, w.guarded, w.entered, t) &&
    Manages(env, w.entered, w.managed, t) && AtClose(env, w.managed, w.closed, t) && Charges(env, w.closed, w.charged, t) &&
    Marks(env, w.charged, b, t)
  }

  lemma OpeningRule(env: Env, s: SymState, t: nat)
    requires t < env.Bars() && OnTime(s, t)
    ensures exists filled :: AtOpen(env, s, filled, t) && filled.pf.pending.None? && PreBar(env, s, t) == ProtectionCheck(env, filled, t)
  {
    hide SettlePending, ProtectionCheck, Fills;
    var filled := if s.pf.pending.Some? then SettlePending(env, s, t, env.view.candles[t].open) else s;
    if s.pf.pending.Some? {
      SettlementFills(env, s, t, env.view.candles[t].open);
    }
    assert AtOpen(env, s, filled, t) && PreBar(env, s, t) == ProtectionCheck(env, filled, t);
  }

  lemma GuardingRule(env: Env, s: SymState, t: nat)
    requires t < env.Bars() && s.pf.pending.None?
    ensures Guards(env, s, ProtectionCheck(env, s, t), t)
  {
  }

  lemma ShowingRule(env: Env, pf: Portfolio, t: nat)
    requires t < env.Bars()
    ensures Shows(env, pf, t, SnapshotAt(env, pf, t))
  {
  }

  lemma AnsweringRule(env: Env, hook: DecisionHook, mod: ModuleState, ctx: Snapshot, t: nat)
    requires t < env.Bars()
    ensures var (m, ds) := RunHook(env, hook, mod, ctx, t); Answers(env, hook, mod, ctx, t, m, FirstDecision(ds))
  {
  }

  /** Noting an overlay error before the risk stage and the decision after it. */
  lemma RecordRule(env: Env, a: SymState, noted: SymState, placed: SymState, t: nat, hook: HookName, base: Decision, comp: Composition,
                   risk: Option<RiskRecord>)
    requires t < env.Bars() && noted.pf == a.pf && noted.acc == WithIssue(env, a.acc, t, hook, comp.error)
    requires Risked(env, noted, placed, t, hook, comp.final, risk) && placed.acc.decisions == a.acc.decisions
    ensures var record := DecisionRecord(t, env.view.candles[t].ts, env.symbol, hook, base, comp.effects, comp.final, risk);
            Decides(env, a, placed.(acc := placed.acc.(decisions := placed.acc.decisions + [record])), t, hook, base, noted.mod, comp)
  {
    hide Risked;
    var issues := if comp.error.None? then [] else [Issue(env.symbol, t, hook, comp.error.value)];
    assert noted == SymState(noted.mod, a.pf, a.acc.(issues := a.acc.issues + issues));
  }

  lemma EntryRiskRule(env: Env, s: SymState, t: nat, final: Option<Decision>)
    requires t < env.Bars() && s.pf.pending.None?
    ensures var (b, risk) := EntryRisk(env, s, t, final);
            Risked(env, s, b, t, OnBarClose, final, risk) && b.acc.decisions == s.acc.decisions
  {
    if Asked(OnBarClose, s.pf, final) {
      assert RiskSees(env, s.pf, t, false, RiskContextAt(env.core, s.pf, env.view.candles[t].close));
    }
  }

  lemma EntryRule(env: Env, s: SymState, t: nat, ctx: Snapshot, base: Decision)
    requires t < env.Bars() && s.pf.pending.None?
    ensures Composed(env, s, EntryStage(env, s, t, Some(base), ctx), t, OnBarClose, env.entryOverlays, ctx, s.mod, base)
  {
    hide Compose, EntryRisk, Risked, Overlaid, Decides;
    var (m, comp) := Compose(env, env.entryOverlays, 0, s.mod, ctx, t, base, []);
    var noted := SymState(m, s.pf, WithIssue(env, s.acc, t, OnBarClose, comp.error));
    EntryRiskRule(env, noted, t, comp.final);
    var (placed, risk) := EntryRisk(env, noted, t, comp.final);
    RecordRule(env, s, noted, placed, t, OnBarClose, base, comp, risk);
    ComposeLaw(env, env.entryOverlays, s.mod, ctx, t, base);
  }

  lemma PositionRule(env: Env, s: SymState, t: nat)
    requires t < env.Bars() && Coherent(s.pf)
    requires s.pf.pending.Some? ==> s.pf.pending.value.decisionBar == t
    ensures Manages(env, s, PositionStage(env, s, t), t)
  {
    if s.pf.position.Some? && (env.strategy.onPositionBar.Some? || |env.postOverlays| > 0) {
      var ctx := SnapshotAt(env, s.pf, t);
      var m, base := s.mod, Idle;
      ShowingRule(env, s.pf, t);
      if env.strategy.onPositionBar.Some? {
        var (after, ds) := RunHook(env, env.strategy.onPositionBar.value, s.mod, ctx, t);
        AnsweringRule(env, env.strategy.onPositionBar.value, s.mod, ctx, t);
        m, base := after, FirstDecision(ds);
      }
      hide Shows, Answers, SnapshotAt, RunHook, FirstDecision;
      ManagedRule(env, s, t, ctx, m, base);
    }
  }

  lemma ManagedRule(env: Env, s: SymState, t: nat, ctx: Snapshot, m: ModuleState, base: Decision)
    requires t < env.Bars() && Coherent(s.pf) && s.pf.position.Some? && (env.strategy.onPositionBar.Some? || |env.postOverlays| > 0)
    requires s.pf.pending.Some? ==> s.pf.pending.value.decisionBar == t
    requires ctx == SnapshotAt(env, s.pf, t)
    requires if env.strategy.onPositionBar.None? then m == s.mod && base == Idle
             else var (after, ds) := RunHook(env, env.strategy.onPositionBar.value, s.mod, ctx, t); m == after && base == FirstDecision(ds)
    ensures Composed(env, s, PositionStage(env, s, t), t, OnPositionBar, env.postOverlays, ctx, m, base)
  {
    hide Compose, SnapshotAt, RunHook, FirstDecision, PositionRisk, Risked, Overlaid, Decides;
    var (m', comp) := Compose(env, env.postOverlays, 0, m, ctx, t, base, []);
    var noted := SymState(m', s.pf, WithIssue(env, s.acc, t, OnPositionBar, comp.error));
    PositionRiskRule(env, noted, t, comp.final);
    var (placed, risk) := PositionRisk(env, noted, t, comp.final);
    RecordRule(env, s, noted, placed, t, OnPositionBar, base, comp, risk);
    ComposeLaw(env, env.postOverlays, m, ctx, t, base);
  }

  lemma PositionRiskRule(env: Env, s: SymState, t: nat, final: Option<Decision>)
    requires t < env.Bars() && Coherent(s.pf) && s.pf.position.Some?
    requires s.pf.pending.Some? ==> s.pf.pending.value.decisionBar == t
    ensures var (b, risk) := PositionRisk(env, s, t, final);
            Risked(env, s, b, t, OnPositionBar, final, risk) && b.acc.decisions == s.acc.decisions
  {
    if Asked(OnPositionBar, s.pf, final) {
      var rc := RiskContextAt(env.core, s.pf, env.view.candles[t].close);
      var seen := if final.value.AddToPosition? then rc.(position := s.pf.position) else rc;
      assert RiskSees(env, s.pf, t, final.value.AddToPosition?, seen);
    }
  }

  lemma ClosingRule(env: Env, s: SymState, t: nat)
    requires t < env.Bars() && Coherent(s.pf)
    requires s.pf.pending.Some? ==> s.pf.pending.value.decisionBar == t
    ensures AtClose(env, s, SameBarStage(env, s, t), t)
  {
    hide SettlePending, Fills;
    if env.sameBarClose && s.pf.pending.Some? {
      SettlementFills(env, s, t, env.view.candles[t].close);
    }
  }

  lemma ChargingRule(env: Env, s: SymState, t: nat)
    requires t < env.Bars()
    ensures Charges(env, s, FundingStage(env, s, t), t)
  {
    assert BarTimes(env.view.candles) == seq(env.Bars(), i requires 0 <= i < env.Bars() => env.view.candles[i].ts);
  }

  /** Every lockstep bar passes through the seven phases. */
  lemma StepPasses(env: Env, s: SymState, t: nat) returns (w: Passage)
    requires t < env.Bars() && OnTime(s, t)
    ensures Passes(env, s, w, Step(env, s, t), t)
  {
    hide PreBar, SnapshotAt, RunHook, EntryStage, PositionStage, SameBarStage, FundingStage, FirstDecision, ProtectionCheck,
         AtOpen, Guards, Shows, Answers, Composed, Manages, AtClose, Charges;
    OpeningRule(env, s, t);
    var filled :| AtOpen(env, s, filled, t) && filled.pf.pending.None? && PreBar(env, s, t) == ProtectionCheck(env, filled, t);
    GuardingRule(env, filled, t);
    var pre := PreBar(env, s, t);
    var ctx := SnapshotAt(env, pre.pf, t);
    ShowingRule(env, pre.pf, t);
    AnsweringRule(env, env.strategy.onBarClose, pre.mod, ctx, t);
    var (m, ds) := RunHook(env, env.strategy.onBarClose, pre.mod, ctx, t);
    var asked := pre.(mod := m);
    EntryRule(env, asked, t, ctx, FirstDecision(ds));
    var entered := EntryStage(env, asked, t, Some(FirstDecision(ds)), ctx);
    EntersFrom(env, pre, entered, t, ctx, m, FirstDecision(ds));
    var managed := PositionStage(env, entered, t);
    PositionRule(env, entered, t);
    ClosingRule(env, managed, t);
    var closed := SameBarStage(env, managed, t);
    ChargingRule(env, closed, t);
    w := Passage(filled, pre, entered, managed, closed, FundingStage(env, closed, t));
    assert Marks(env, w.charged, Step(env, s, t), t);
  }

  lemma EntersFrom(env: Env, a: SymState, b: SymState, t: nat, ctx: Snapshot, m: ModuleState, base: Decision)
    requires t < env.Bars() && Shows(env, a.pf, t, ctx) && Answers(env, env.strategy.onBarClose, a.mod, ctx, t, m, base)
    requires Composed(env, a.(mod := m), b, t, OnBarClose, env.entryOverlays, ctx, m, base)
    ensures Enters(env, a, b, t)
  {
    hide Shows, Answers, Overlaid;
    var m', comp :| Overlaid(env, env.entryOverlays, ctx, t, m, base, m', comp) && Decides(env, a.(mod := m), b, t, OnBarClose, base, m', comp);
    assert Decides(env, a, b, t, OnBarClose, base, m', comp);
    assert Composed(env, a, b, t, OnBarClose, env.entryOverlays, ctx, m, base);
  }

  // ---------------------------------------------------------------- a run from start to end

  /** The strategy is initialized with the first bar's context. */
  ghost predicate Begins(env: Env, a: SymState, b: SymState)
    requires env.Bars() > 0
  {
    b.pf == a.pf && b.acc == a.acc && exists ctx :: Shows(env, a.pf, 0, ctx) && b.mod == Interpret(env.view, 0, env.strategy.init(a.mod, ctx)).0
  }

  /** At the end of the data no order waits on, an open position is closed at the last closing price, and the strategy
      is disposed of with the last bar's context. */
  ghost predicate Ends(env: Env, a: SymState, b: SymState)
    requires env.Bars() > 0
  {
    var n := env.Bars() - 1;
    var last := env.view.candles[n];
    OrdersKept(a.acc.orders, b.acc.orders) && b.pf.position.None? && b.pf.pending.None? &&
    (exists ctx :: Shows(env, b.pf, n, ctx) && b.mod == Interpret(env.view, n, env.strategy.dispose(a.mod, ctx)).0) &&
    match a.pf.position
    case None => b.pf.cash == a.pf.cash && b.acc == a.acc.(orders := b.acc.orders)
    case Some(pos) =>
      var (cash, pnl) := env.core.bookForced(a.pf.cash, pos, last.close);
      b.pf.cash == cash && b.acc == a.acc.(orders := b.acc.orders, trades := a.acc.trades + [Trade("forced_mtm", n, last.ts, pnl)])
  }

  /** The states of a run before its first bar and after each: it begins, passes through every bar and ends. */
  ghost predicate Whole(env: Env, s: SymState, states: seq<SymState>, r: SymState) {
    env.Bars() > 0 && |states| == env.Bars() + 1 && Begins(env, s, states[0]) && Ends(env, states[env.Bars()], r) &&
    forall t :: 0 <= t < env.Bars() ==> PassesBar(env, states[t], states[t + 1], t)
  }

  ghost predicate PassesBar(env: Env, a: SymState, b: SymState, t: nat)
    requires t < env.Bars()
  {
    exists w :: Passes(env, a, w, b, t)
  }

  lemma FinalizeEnds(env: Env, s: SymState)
    requires env.Bars() > 0
    ensures Ends(env, s, Finalize(env, s))
  {
    var r := Finalize(env, s);
    ShowingRule(env, r.pf, env.Bars() - 1);
    hide Shows, SnapshotAt;
  }

  lemma BarPasses(env: Env, s: SymState, t: nat)
    requires t < env.Bars() && OnTime(s, 0)
    ensures PassesBar(env, Steps(env, s, 0, t), Steps(env, s, 0, t + 1), t)
  {
    hide Step, Passes;
    var w := StepPasses(env, Steps(env, s, 0, t), t);
  }

  /** The states of a run before bar 0, 1, ... `n - 1`, and after the last. */
  ghost function StatesOf(env: Env, s: SymState, n: nat): (r: seq<SymState>)
    requires n <= env.Bars() && OnTime(s, 0)
    ensures |r| == n + 1 && forall k :: 0 <= k <= n ==> r[k] == Steps(env, s, 0, k)
  {
    seq(n + 1, k requires 0 <= k <= n => Steps(env, s, 0, k))
  }

  /** Every complete run is such a course, and without bars nothing happens. */
  lemma RunPasses(env: Env, s: SymState)
    requires Quiet(s.pf)
    ensures if env.Bars() == 0 then Run(env, s) == s else exists states :: Whole(env, s, states, Run(env, s))
  {
    hide Steps, PassesBar, Finalize, Init, Begins, Ends, StatesOf;
    if env.Bars() > 0 {
      var n := env.Bars();
      InitBegins(env, s);
      InitQuiet(env, s);
      var states := StatesOf(env, Init(env, s), n);
      forall t | 0 <= t < n ensures PassesBar(env, states[t], states[t + 1], t) {
        BarPasses(env, Init(env, s), t);
      }
      FinalizeEnds(env, states[n]);
      StartsAt(env, Init(env, s));
      assert Whole(env, s, states, Run(env, s));
    }
  }

  lemma StartsAt(env: Env, s: SymState)
    requires OnTime(s, 0)
    ensures Steps(env, s, 0, 0) == s
  {
  }

  lemma InitQuiet(env: Env, s: SymState)
    requires env.Bars() > 0
    ensures Init(env, s).pf == s.pf
  {
  }

  lemma InitBegins(env: Env, s: SymState)
    requires env.Bars() > 0
    ensures Begins(env, s, Init(env, s))
  {
    ShowingRule(env, s.pf, 0);
  }
}
