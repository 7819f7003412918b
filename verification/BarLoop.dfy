/** One symbol's pass over its bars, stage by stage, as functions of a state value. The imperative
    runner is proved against these; the whole-run properties are proved about them. */
module BarLoop {
  import opened Basics
  import opened FundingColumn
  import opened CandleData
  import opened MarketView
  import opened TradingEngine

  datatype PositionView = PositionView(side: Side, size: real, entryPrice: real, stop: Option<real>, take: Option<real>)

  /** The plain part of a hook's context; everything else is reached through queries. */
  datatype Snapshot = Snapshot(barIndex: nat, bar: Bar, position: Option<PositionView>, equity: real, openPositions: nat)

  datatype OverlayDecision =
    | Pass
    | Note(detail: string)
    | Patch(apply: Decision -> Result<Decision, string>)
    | Veto(reason: string)
  datatype OverlayEffect = OverlayEffect(overlay: nat, kind: string)
  datatype Composition = Composition(final: Option<Decision>, effects: seq<OverlayEffect>, error: Option<string>)

  type DecisionHook = (ModuleState, Snapshot) -> Hook<seq<Decision>>
  type OverlayHook = (ModuleState, Snapshot) -> Hook<Option<OverlayDecision>>

  datatype Strategy = Strategy(init: DecisionHook, onBarClose: DecisionHook, onPositionBar: Option<DecisionHook>,
                               dispose: DecisionHook)

  /** Everything that stays fixed while one symbol is processed. */
  datatype Env = Env(symbol: string, view: View, strategy: Strategy, entryOverlays: seq<OverlayHook>,
                     postOverlays: seq<OverlayHook>, core: Core, sameBarClose: bool, fundingEnabled: bool, cadenceMs: int)
  {
    function Bars(): nat { |view.candles| }
  }

  datatype HookName = OnBarClose | OnPositionBar
  datatype DecisionRecord = DecisionRecord(barIndex: nat, barTs: int, symbol: string, hook: HookName, base: Decision,
                                           effects: seq<OverlayEffect>, final: Option<Decision>, risk: Option<RiskRecord>)
  datatype EquityPoint = EquityPoint(barIndex: nat, barTs: int, equity: real)
  datatype FundingEntry = FundingEntry(barIndex: nat, ts: int, rate: real, covered: bool, cost: real)
  datatype Issue = Issue(symbol: string, barIndex: nat, hook: HookName, code: string)

  /** The artifact lists of one run, with the id index kept beside the order list. */
  datatype Accumulators = Accumulators(
    decisions: seq<DecisionRecord>, orders: seq<Order>, orderIndex: map<OrderId, nat>, fills: seq<Fill>,
    risks: seq<RiskRecord>, trades: seq<Trade>, equity: seq<EquityPoint>, funding: seq<FundingEntry>, issues: seq<Issue>)

  datatype SymState = SymState(mod: ModuleState, pf: Portfolio, acc: Accumulators)

  const NoRecords: Accumulators := Accumulators([], [], map[], [], [], [], [], [], [])

  // ---------------------------------------------------------------- order bookkeeping

  function RecordOrder(acc: Accumulators, order: Order): Accumulators {
    acc.(orders := acc.orders + [order], orderIndex := acc.orderIndex[order.id := |acc.orders|])
  }

  function FindOrder(acc: Accumulators, id: OrderId): Option<nat> {
    if id in acc.orderIndex then Some(acc.orderIndex[id]) else None
  }

  function MarkOrder(acc: Accumulators, id: OrderId, status: Status): Accumulators {
    match FindOrder(acc, id)
    case None => acc
    case Some(i) =>
      if i < |acc.orders| then acc.(orders := acc.orders[i := acc.orders[i].(status := status)]) else acc
  }

  // ---------------------------------------------------------------- stages before the hook

  function SettlePending(env: Env, s: SymState, t: nat, base: real): (r: SymState)
    requires t < env.Bars() && Coherent(s.pf)
    ensures Coherent(r.pf) && r.pf.pending.None? && r.mod == s.mod
  {
    if s.pf.pending.None? then s
    else
      var p := s.pf.pending.value;
      var ts := env.view.candles[t].ts;
      match p.intent
      case OpenIntent =>
        var quote := env.core.openFill(p.side, base, p.notional);
        var acc := s.acc.(fills := s.acc.fills + [Fill(p.id, t, ts, quote, quote.size, PlainFill)]);
        SymState(s.mod, SettleOpen(env.core, s.pf, quote), MarkOrder(acc, p.id, FilledOrder))
      case AddIntent =>
        var quote := env.core.openFill(p.side, base, p.notional);
        var acc := s.acc.(fills := s.acc.fills + [Fill(p.id, t, ts, quote, quote.size, AddFill)]);
        SymState(s.mod, SettleAdd(env.core, s.pf, quote), MarkOrder(acc, p.id, FilledOrder))
      case CloseIntent =>
        var size := env.core.closedSize(s.pf.position.value, if p.closeFraction.Some? then p.closeFraction.value else 1.0);
        var quote := env.core.closeFill(p.side, base, size);
        var (pf, trade) := SettleClose(env.core, s.pf, quote, t, ts, p.closeReason, p.closeFraction);
        var kind := if p.closeFraction.Some? then PartialCloseFill else PlainFill;
        var acc := s.acc.(fills := s.acc.fills + [Fill(p.id, t, ts, quote, size, kind)], trades := s.acc.trades + [trade]);
        SymState(s.mod, pf, MarkOrder(acc, p.id, FilledOrder))
  }

  function ProtectionId(env: Env, t: nat): OrderId { OrderId(env.symbol, t, ProtectionTag) }

  function ProtectionCheck(env: Env, s: SymState, t: nat): (r: SymState)
    requires t < env.Bars() && s.pf.pending.None?
    ensures Coherent(r.pf) && r.pf.pending.None? && r.mod == s.mod
  {
    if s.pf.position.None? then s
    else
      var pos := s.pf.position.value;
      if pos.stop.None? && pos.take.None? then s
      else
        match env.core.detect(pos, env.view.candles[t])
        case None => s
        case Some(hit) =>
          var ts := env.view.candles[t].ts;
          var quote := env.core.protectionFill(pos.side, hit.fillBase, pos.size);
          var order := Order(ProtectionId(env, t), t, pos.side, CloseIntent, FilledOrder, true, None, None);
          var (pf, trade) := ClosePosition(env.core, s.pf, quote, t, ts, hit.kind);
          var acc := RecordOrder(s.acc, order);
          SymState(s.mod, pf,
                   acc.(fills := acc.fills + [Fill(order.id, t, ts, quote, pos.size, ProtectionFill)],
                        trades := acc.trades + [trade]))
  }

  /** An order is only ever waiting for the very next bar. */
  ghost predicate OnTime(s: SymState, t: nat) {
    Coherent(s.pf) && (s.pf.pending.Some? ==> s.pf.pending.value.decisionBar == t - 1)
  }

  function PreBar(env: Env, s: SymState, t: nat): (r: SymState)
    requires t < env.Bars() && OnTime(s, t)
    ensures Coherent(r.pf) && r.pf.pending.None? && r.mod == s.mod
  {
    var settled :=
      if s.pf.pending.Some? && s.pf.pending.value.decisionBar == t - 1
      then SettlePending(env, s, t, env.view.candles[t].open) else s;
    ProtectionCheck(env, settled, t)
  }

  // ---------------------------------------------------------------- hooks and overlays

  function SnapshotAt(env: Env, pf: Portfolio, t: nat): Snapshot
    requires t < env.Bars()
  {
    var bar := env.view.candles[t];
    var view := if pf.position.None? then None
                else var p := pf.position.value; Some(PositionView(p.side, p.size, p.entryPrice, p.stop, p.take));
    Snapshot(t, bar, view, EquityAt(env.core, pf, bar.close), if pf.position.Some? then 1 else 0)
  }

  function RunHook(env: Env, hook: DecisionHook, mod: ModuleState, ctx: Snapshot, t: nat): (ModuleState, seq<Decision>)
    requires t < env.Bars()
  {
    Interpret(env.view, t, hook(mod, ctx))
  }

  function FirstDecision(ds: seq<Decision>): Decision {
    if |ds| > 0 then ds[0] else Idle
  }

  /** Overlays from number `i` on, applied in order to the decision so far; a veto or an invalid
      patch ends the composition and later overlays are not asked. */
  function Compose(env: Env, overlays: seq<OverlayHook>, i: nat, mod: ModuleState, ctx: Snapshot, t: nat,
                   sofar: Decision, effects: seq<OverlayEffect>): (ModuleState, Composition)
    requires t < env.Bars() && i <= |overlays|
    decreases |overlays| - i
  {
    if i == |overlays| then (mod, Composition(Some(sofar), effects, None))
    else
      var (m, answer) := Interpret(env.view, t, overlays[i](mod, ctx));
      match answer
      case None => Compose(env, overlays, i + 1, m, ctx, t, sofar, effects)
      case Some(Pass) => Compose(env, overlays, i + 1, m, ctx, t, sofar, effects + [OverlayEffect(i, "pass")])
      case Some(Note(_)) => Compose(env, overlays, i + 1, m, ctx, t, sofar, effects + [OverlayEffect(i, "annotate")])
      case Some(Veto(_)) => (m, Composition(None, effects + [OverlayEffect(i, "veto")], None))
      case Some(Patch(f)) =>
        match f(sofar)
        case Ok(patched) => Compose(env, overlays, i + 1, m, ctx, t, patched, effects + [OverlayEffect(i, "patch")])
        case Err(code) => (m, Composition(None, effects + [OverlayEffect(i, "patch")], Some(code)))
  }

  function WithIssue(env: Env, acc: Accumulators, t: nat, hook: HookName, error: Option<string>): Accumulators {
    if error.None? then acc else acc.(issues := acc.issues + [Issue(env.symbol, t, hook, error.value)])
  }

  // ---------------------------------------------------------------- stages after the hook

  function EntryPending(env: Env, t: nat, side: Side, o: RiskOutcome): Pending {
    Pending(OrderId(env.symbol, t, OpenTag), side, OpenIntent, t, o.notional, o.stop, o.take, None, "")
  }

  /** Entry decision on a flat, order-free portfolio: risk first, then possibly a pending open. */
  function EntryRisk(env: Env, s: SymState, t: nat, final: Option<Decision>): (r: (SymState, Option<RiskRecord>))
    requires t < env.Bars() && s.pf.pending.None?
    ensures Coherent(r.0.pf) && r.0.mod == s.mod && r.0.pf.position == s.pf.position
    ensures r.0.pf.pending.Some? ==> r.0.pf.pending.value.decisionBar == t
  {
    if final.None? || s.pf.position.Some? || !(final.value.Enter? || final.value.AddToPosition? || final.value.UpdateProtection?)
    then (s, None)
    else
      var o := env.core.evaluate(final.value, t, RiskContextAt(env.core, s.pf, env.view.candles[t].close));
      var record := RiskRecord(t, o.detail);
      var acc := s.acc.(risks := s.acc.risks + [record]);
      if final.value.Enter? && !o.rejected then
        var pending := EntryPending(env, t, final.value.side, o);
        var order := Order(pending.id, t, final.value.side, OpenIntent, PendingOrder, false, None, None);
        (SymState(s.mod, PlacePending(s.pf, pending), RecordOrder(acc, order)), Some(record))
      else (s.(acc := acc), Some(record))
  }

  function EntryStage(env: Env, s: SymState, t: nat, base: Option<Decision>, ctx: Snapshot): (r: SymState)
    requires t < env.Bars() && s.pf.pending.None?
    ensures Coherent(r.pf) && r.pf.position == s.pf.position
    ensures r.pf.pending.Some? ==> r.pf.pending.value.decisionBar == t
  {
    var baseDecision := if base.Some? then base.value else Idle;
    var (mod, comp) := Compose(env, env.entryOverlays, 0, s.mod, ctx, t, baseDecision, []);
    var noted := SymState(mod, s.pf, WithIssue(env, s.acc, t, OnBarClose, comp.error));
    var (placed, risk) := EntryRisk(env, noted, t, comp.final);
    var record := DecisionRecord(t, env.view.candles[t].ts, env.symbol, OnBarClose, baseDecision, comp.effects, comp.final, risk);
    placed.(acc := placed.acc.(decisions := placed.acc.decisions + [record]))
  }

  /** Decision on an open position without a waiting order: exit, add or move the protection. */
  function PositionRisk(env: Env, s: SymState, t: nat, final: Option<Decision>): (r: (SymState, Option<RiskRecord>))
    requires t < env.Bars() && Coherent(s.pf) && s.pf.position.Some?
    requires s.pf.pending.Some? ==> s.pf.pending.value.decisionBar == t
    ensures Coherent(r.0.pf) && r.0.mod == s.mod && r.0.pf.position.Some?
    ensures r.0.pf.pending.Some? ==> r.0.pf.pending.value.decisionBar == t
  {
    if final.None? || s.pf.pending.Some? || !(final.value.Exit? || final.value.AddToPosition? || final.value.UpdateProtection?)
    then (s, None)
    else
      var pos := s.pf.position.value;
      var ctx := RiskContextAt(env.core, s.pf, env.view.candles[t].close);
      var o := env.core.evaluate(final.value, t, if final.value.AddToPosition? then ctx.(position := Some(pos)) else ctx);
      var record := RiskRecord(t, o.detail);
      var acc := s.acc.(risks := s.acc.risks + [record]);
      if o.rejected then (s.(acc := acc), Some(record))
      else match final.value
        case Exit(target, _) =>
          var id := OrderId(env.symbol, t, CloseTag);
          var order := Order(id, t, pos.side, CloseIntent, PendingOrder, false, None, o.closeFraction);
          var pending := Pending(id, pos.side, CloseIntent, t, 0.0, None, None, o.closeFraction, target);
          (SymState(s.mod, PlacePending(s.pf, pending), RecordOrder(acc, order)), Some(record))
        case AddToPosition(_) =>
          var id := OrderId(env.symbol, t, AddTag);
          var order := Order(id, t, pos.side, AddIntent, PendingOrder, false, Some(o.mode), None);
          var pending := Pending(id, pos.side, AddIntent, t, o.notional, None, None, None, "");
          (SymState(s.mod, PlacePending(s.pf, pending), RecordOrder(acc, order)), Some(record))
        case _ =>
          (SymState(s.mod, s.pf.(position := Some(env.core.reprotect(pos, o.stop, o.take))), acc), Some(record))
  }

  function PositionStage(env: Env, s: SymState, t: nat): (r: SymState)
    requires t < env.Bars() && Coherent(s.pf)
    requires s.pf.pending.Some? ==> s.pf.pending.value.decisionBar == t
    ensures Coherent(r.pf) && r.pf.position.Some? == s.pf.position.Some?
    ensures r.pf.pending.Some? ==> r.pf.pending.value.decisionBar == t
  {
    if s.pf.position.None? || (env.strategy.onPositionBar.None? && |env.postOverlays| == 0) then s
    else
      var ctx := SnapshotAt(env, s.pf, t);
      var (mod0, base) :=
        if env.strategy.onPositionBar.None? then (s.mod, Idle)
        else
          var (m, ds) := RunHook(env, env.strategy.onPositionBar.value, s.mod, ctx, t);
          (m, FirstDecision(ds));
      var (mod, comp) := Compose(env, env.postOverlays, 0, mod0, ctx, t, base, []);
      var noted := SymState(mod, s.pf, WithIssue(env, s.acc, t, OnPositionBar, comp.error));
      var (placed, risk) := PositionRisk(env, noted, t, comp.final);
      var record := DecisionRecord(t, env.view.candles[t].ts, env.symbol, OnPositionBar, base, comp.effects, comp.final, risk);
      placed.(acc := placed.acc.(decisions := placed.acc.decisions + [record]))
  }

  function SameBarStage(env: Env, s: SymState, t: nat): (r: SymState)
    requires t < env.Bars() && Coherent(s.pf)
    requires s.pf.pending.Some? ==> s.pf.pending.value.decisionBar == t
    ensures Coherent(r.pf) && r.mod == s.mod
    ensures r.pf.pending.Some? ==> r.pf.pending.value.decisionBar == t && !env.sameBarClose
  {
    if env.sameBarClose && s.pf.pending.Some? && s.pf.pending.value.decisionBar == t
    then SettlePending(env, s, t, env.view.candles[t].close) else s
  }

  function BarTimes(candles: seq<Bar>): (r: seq<int>)
    ensures |r| == |candles| && forall i :: 0 <= i < |r| ==> r[i] == candles[i].ts
  {
    seq(|candles|, i requires 0 <= i < |candles| => candles[i].ts)
  }

  function FundingReading(env: Env, t: nat): Reading
    requires t < env.Bars()
  {
    if env.view.tape.None? || env.view.tape.value.funding.None? then Missing
    else
      var tape := env.view.tape.value;
      ReadingAt(tape.funding.value, Column(tape.funding.value, tape.grid), BarTimes(env.view.candles),
                env.view.candles[t].ts, t, Some(env.cadenceMs))
  }

  function FundingStage(env: Env, s: SymState, t: nat): (r: SymState)
    requires t < env.Bars()
    ensures r.mod == s.mod && r.pf.pending == s.pf.pending && r.pf.position.Some? == s.pf.position.Some?
  {
    if !env.fundingEnabled || s.pf.position.None? then s
    else
      var bar := env.view.candles[t];
      var reading := FundingReading(env, t);
      var covered := !reading.Missing?;
      var rate := if covered then reading.point.rate else 0.0;
      var cost := env.core.barFunding(s.pf.position.value, bar.close, rate, covered);
      var (cash, position) := env.core.bookFunding(s.pf.cash, s.pf.position.value, cost);
      SymState(s.mod, s.pf.(cash := cash, position := Some(position)),
               s.acc.(funding := s.acc.funding + [FundingEntry(t, bar.ts, rate, covered, cost)]))
  }

  function EquityStage(env: Env, s: SymState, t: nat): SymState
    requires t < env.Bars()
  {
    var bar := env.view.candles[t];
    s.(acc := s.acc.(equity := s.acc.equity + [EquityPoint(t, bar.ts, EquityAt(env.core, s.pf, bar.close))]))
  }

  function ProcessBar(env: Env, s: SymState, t: nat, base: Option<Decision>, ctx: Snapshot): (r: SymState)
    requires t < env.Bars() && s.pf.pending.None?
    ensures OnTime(r, t + 1)
    ensures env.sameBarClose ==> r.pf.pending.None?
  {
    var entered := EntryStage(env, s, t, base, ctx);
    var managed := PositionStage(env, entered, t);
    var settled := SameBarStage(env, managed, t);
    var funded := FundingStage(env, settled, t);
    EquityStage(env, funded, t)
  }

  // ---------------------------------------------------------------- the lockstep run

  /** One bar in lockstep: settle and protect, ask the hook once, process the answer. */
  function Step(env: Env, s: SymState, t: nat): (r: SymState)
    requires t < env.Bars() && OnTime(s, t)
    ensures OnTime(r, t + 1)
    ensures env.sameBarClose ==> r.pf.pending.None?
  {
    var pre := PreBar(env, s, t);
    var ctx := SnapshotAt(env, pre.pf, t);
    var (mod, ds) := RunHook(env, env.strategy.onBarClose, pre.mod, ctx, t);
    ProcessBar(env, pre.(mod := mod), t, Some(FirstDecision(ds)), ctx)
  }

  /** The state after bars `from .. from + k - 1`. */
  function Steps(env: Env, s: SymState, from: nat, k: nat): (r: SymState)
    requires from + k <= env.Bars() && OnTime(s, from)
    ensures OnTime(r, from + k)
    ensures k > 0 && env.sameBarClose ==> r.pf.pending.None?
    decreases k
  {
    if k == 0 then s else Step(env, Steps(env, s, from, k - 1), from + k - 1)
  }

  function Init(env: Env, s: SymState): SymState
    requires env.Bars() > 0
  {
    s.(mod := RunHook(env, env.strategy.init, s.mod, SnapshotAt(env, s.pf, 0), 0).0)
  }

  function Finalize(env: Env, s: SymState): (r: SymState)
    requires env.Bars() > 0
    ensures Quiet(r.pf)
  {
    var n := env.Bars();
    var acc := if s.pf.pending.None? then s.acc else MarkOrder(s.acc, s.pf.pending.value.id, ExpiredOrder);
    var last := env.view.candles[n - 1];
    var (pf, forced) := ForcedClose(env.core, s.pf.(pending := None), n - 1, last.ts, last.close);
    var closed := if forced.None? then acc else acc.(trades := acc.trades + [forced.value]);
    SymState(RunHook(env, env.strategy.dispose, s.mod, SnapshotAt(env, pf, n - 1), n - 1).0, pf, closed)
  }

  /** `runSymbol` in pure lockstep, from a portfolio that is flat with nothing waiting. */
  function Run(env: Env, s: SymState): (r: SymState)
    requires Quiet(s.pf)
    ensures Quiet(r.pf)
  {
    if env.Bars() == 0 then s else Finalize(env, Steps(env, Init(env, s), 0, env.Bars()))
  }

  lemma {:induction false} StepsSplit(env: Env, s: SymState, from: nat, j: nat, k: nat)
    requires from + j + k <= env.Bars() && OnTime(s, from)
    ensures Steps(env, s, from, j + k) == Steps(env, Steps(env, s, from, j), from + j, k)
    decreases k
  {
    hide Step;
    if k > 0 {
      StepsSplit(env, s, from, j, k - 1);
    }
  }
}
