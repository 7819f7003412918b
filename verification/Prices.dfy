/** At which price, and on whose authority, every fill of a run is made. */
module Prices {
  import opened Basics
  import opened CandleData
  import opened MarketView
  import opened TradingEngine
  import opened BarLoop
  import opened BarRules
  import opened Overlays

  /** Decision record `d` ordered `o`: its final decision, put to the risk stage at the close of its bar, was not rejected. */
  ghost predicate Ordered(env: Env, d: DecisionRecord, ctx: RiskContext, o: Order) {
    d.barIndex == o.decisionBar < env.Bars() && d.final.Some? && !o.protection &&
    ctx.openPositions == (if o.intent.OpenIntent? then 0 else 1) && (ctx.position.Some? <==> o.intent.AddIntent?) &&
    (exists cash, held :: ctx.equity == env.core.equity(cash, held, env.view.candles[o.decisionBar].close)) &&
    var verdict := env.core.evaluate(d.final.value, o.decisionBar, ctx);
    !verdict.rejected && d.risk == Some(RiskRecord(o.decisionBar, verdict.detail)) &&
    match o.intent
    case OpenIntent => d.hook == OnBarClose && d.final.value.Enter? && d.final.value.side == o.side
    case AddIntent => d.hook == OnPositionBar && d.final.value.AddToPosition? && ctx.position.value.side == o.side && o.mode == Some(verdict.mode)
    case CloseIntent => d.hook == OnPositionBar && d.final.value.Exit? && o.closeFraction == verdict.closeFraction
  }

  /** The notional that the risk stage gave the decision. */
  ghost function Notional(env: Env, d: DecisionRecord, ctx: RiskContext): real
    requires d.final.Some?
  {
    env.core.evaluate(d.final.value, d.barIndex, ctx).notional
  }

  /** A fill made for an ordinary order when the market stood at `base`. */
  ghost predicate QuotedAt(env: Env, d: DecisionRecord, ctx: RiskContext, o: Order, base: real, f: Fill)
    requires d.final.Some?
  {
    if o.intent.CloseIntent? then
      var fraction := if o.closeFraction.Some? then o.closeFraction.value else 1.0;
      f.quote == env.core.closeFill(o.side, base, f.size) && exists pos :: f.size == env.core.closedSize(pos, fraction)
    else f.quote == env.core.openFill(o.side, base, Notional(env, d, ctx)) && f.size == f.quote.size
  }

  /** The position a protection fill closes, and the level the bar reached. */
  ghost predicate Reached(env: Env, pos: Position, hit: ProtectionHit, o: Order, f: Fill)
    requires f.bar < env.Bars()
  {
    f.bar == o.decisionBar && o.side == pos.side && (pos.stop.Some? || pos.take.Some?) &&
    env.core.detect(pos, env.view.candles[f.bar]) == Some(hit) &&
    f.quote == env.core.protectionFill(pos.side, hit.fillBase, pos.size) && f.size == pos.size
  }

  /** A fill on the bar after its decision is quoted at that bar's open, one on the decision bar at its close, and a
      protection fill at the level reached. */
  ghost predicate PricedFor(env: Env, decisions: seq<DecisionRecord>, o: Order, f: Fill) {
    f.bar < env.Bars() && f.orderId == o.id &&
    if o.protection then exists pos, hit :: Reached(env, pos, hit, o, f)
    else
      exists k, ctx :: 0 <= k < |decisions| && Ordered(env, decisions[k], ctx, o) &&
        if env.sameBarClose then f.bar == o.decisionBar && QuotedAt(env, decisions[k], ctx, o, env.view.candles[f.bar].close, f)
        else f.bar == o.decisionBar + 1 && QuotedAt(env, decisions[k], ctx, o, env.view.candles[f.bar].open, f)
  }

  ghost predicate Priced(env: Env, acc: Accumulators, f: Fill) {
    exists i :: 0 <= i < |acc.orders| && PricedFor(env, acc.decisions, acc.orders[i], f)
  }

  // ---------------------------------------------------------------- what every phase keeps

  ghost predicate AllPriced(env: Env, acc: Accumulators) {
    forall j :: 0 <= j < |acc.fills| ==> Priced(env, acc, acc.fills[j])
  }

  /** A waiting order carries what was decided and authorized. */
  ghost predicate WaitsFor(env: Env, decisions: seq<DecisionRecord>, o: Order, p: Pending) {
    o.id == p.id && o.decisionBar == p.decisionBar && o.side == p.side && o.intent == p.intent && o.closeFraction == p.closeFraction &&
    exists k, ctx :: 0 <= k < |decisions| && Ordered(env, decisions[k], ctx, o) &&
                     (!o.intent.CloseIntent? ==> p.notional == Notional(env, decisions[k], ctx))
  }

  ghost predicate Authorized(env: Env, acc: Accumulators, p: Pending) {
    exists i :: 0 <= i < |acc.orders| && WaitsFor(env, acc.decisions, acc.orders[i], p)
  }

  ghost predicate Sound(env: Env, s: SymState) {
    AllPriced(env, s.acc) && (s.pf.pending.Some? ==> Authorized(env, s.acc, s.pf.pending.value))
  }

  ghost predicate Grows(a: Accumulators, b: Accumulators) {
    a.decisions <= b.decisions && |a.orders| <= |b.orders| && forall i :: 0 <= i < |a.orders| ==> b.orders[i] == a.orders[i].(status := b.orders[i].status)
  }

  lemma StillPricedFor(env: Env, ds: seq<DecisionRecord>, es: seq<DecisionRecord>, o: Order, status: Status, f: Fill)
    requires ds <= es && PricedFor(env, ds, o, f)
    ensures PricedFor(env, es, o.(status := status), f)
  {
    if o.protection {
      var pos, hit :| Reached(env, pos, hit, o, f);
      assert Reached(env, pos, hit, o.(status := status), f);
    } else {
      var k, ctx :| 0 <= k < |ds| && Ordered(env, ds[k], ctx, o) &&
        if env.sameBarClose then f.bar == o.decisionBar && QuotedAt(env, ds[k], ctx, o, env.view.candles[f.bar].close, f)
        else f.bar == o.decisionBar + 1 && QuotedAt(env, ds[k], ctx, o, env.view.candles[f.bar].open, f);
      assert es[k] == ds[k] && Ordered(env, es[k], ctx, o.(status := status));
    }
  }

  lemma StillWaitsFor(env: Env, ds: seq<DecisionRecord>, es: seq<DecisionRecord>, o: Order, status: Status, p: Pending)
    requires ds <= es && WaitsFor(env, ds, o, p)
    ensures WaitsFor(env, es, o.(status := status), p)
  {
    var k, ctx :| 0 <= k < |ds| && Ordered(env, ds[k], ctx, o) && (!o.intent.CloseIntent? ==> p.notional == Notional(env, ds[k], ctx));
    assert es[k] == ds[k] && Ordered(env, es[k], ctx, o.(status := status));
  }

  lemma StillPriced(env: Env, a: Accumulators, b: Accumulators, f: Fill)
    requires Grows(a, b) && Priced(env, a, f)
    ensures Priced(env, b, f)
  {
    hide PricedFor;
    var i :| 0 <= i < |a.orders| && PricedFor(env, a.decisions, a.orders[i], f);
    StillPricedFor(env, a.decisions, b.decisions, a.orders[i], b.orders[i].status, f);
    assert PricedFor(env, b.decisions, b.orders[i], f);
  }

  lemma StillAuthorized(env: Env, a: Accumulators, b: Accumulators, p: Pending)
    requires Grows(a, b) && Authorized(env, a, p)
    ensures Authorized(env, b, p)
  {
    hide WaitsFor;
    var i :| 0 <= i < |a.orders| && WaitsFor(env, a.decisions, a.orders[i], p);
    StillWaitsFor(env, a.decisions, b.decisions, a.orders[i], b.orders[i].status, p);
    assert WaitsFor(env, b.decisions, b.orders[i], p);
  }

  /** Later records leave earlier fills priced as they were; at most one new fill has to be accounted for. */
  lemma StaysPriced(env: Env, a: Accumulators, b: Accumulators)
    requires Grows(a, b) && AllPriced(env, a) && a.fills <= b.fills && |b.fills| <= |a.fills| + 1
    requires |b.fills| > |a.fills| ==> Priced(env, b, b.fills[|a.fills|])
    ensures AllPriced(env, b)
  {
    hide Priced, Grows;
    forall j | 0 <= j < |b.fills| ensures Priced(env, b, b.fills[j]) {
      if j < |a.fills| {
        assert b.fills[j] == a.fills[j];
        StillPriced(env, a, b, a.fills[j]);
      }
    }
  }

  lemma FillPriced(env: Env, a: SymState, b: SymState, t: nat, base: real)
    requires t < env.Bars() && Fills(env, a, b, t, base) && Authorized(env, a.acc, a.pf.pending.value)
    requires if env.sameBarClose then t == a.pf.pending.value.decisionBar && base == env.view.candles[t].close
             else t == a.pf.pending.value.decisionBar + 1 && base == env.view.candles[t].open
    ensures Priced(env, b.acc, b.acc.fills[|a.acc.fills|])
  {
    var p, f := a.pf.pending.value, b.acc.fills[|a.acc.fills|];
    StillAuthorized(env, a.acc, b.acc, p);
    var i :| 0 <= i < |b.acc.orders| && WaitsFor(env, b.acc.decisions, b.acc.orders[i], p);
    WaitingPriced(env, b.acc.decisions, b.acc.orders[i], p, a.pf, t, base, f);
  }

  lemma WaitingPriced(env: Env, ds: seq<DecisionRecord>, o: Order, p: Pending, pf: Portfolio, t: nat, base: real, f: Fill)
    requires t < env.Bars() && WaitsFor(env, ds, o, p) && FillOf(env, p, pf, t, base, f)
    requires if env.sameBarClose then t == p.decisionBar && base == env.view.candles[t].close
             else t == p.decisionBar + 1 && base == env.view.candles[t].open
    ensures PricedFor(env, ds, o, f)
  {
    var k, ctx :| 0 <= k < |ds| && Ordered(env, ds[k], ctx, o) && (!o.intent.CloseIntent? ==> p.notional == Notional(env, ds[k], ctx));
    assert QuotedAt(env, ds[k], ctx, o, base, f);
  }

  lemma FillsSound(env: Env, a: SymState, b: SymState, t: nat, base: real)
    requires t < env.Bars() && Sound(env, a) && Fills(env, a, b, t, base)
    requires if env.sameBarClose then t == a.pf.pending.value.decisionBar && base == env.view.candles[t].close
             else t == a.pf.pending.value.decisionBar + 1 && base == env.view.candles[t].open
    ensures Sound(env, b)
  {
    FillPriced(env, a, b, t, base);
    hide Priced, Authorized, FillOf, Booked;
    StaysPriced(env, a.acc, b.acc);
    assert b.pf.pending.None?;
  }

  lemma GuardSound(env: Env, a: SymState, b: SymState, t: nat)
    requires t < env.Bars() && Sound(env, a) && a.pf.pending.None? && Guards(env, a, b, t)
    ensures Sound(env, b) && b.pf.pending.None?
  {
    if b != a {
      var pos := a.pf.position.value;
      var hit := env.core.detect(pos, env.view.candles[t]).value;
      var n := |a.acc.orders|;
      assert Reached(env, pos, hit, b.acc.orders[n], b.acc.fills[|a.acc.fills|]);
      assert PricedFor(env, b.acc.decisions, b.acc.orders[n], b.acc.fills[|a.acc.fills|]);
      hide PricedFor;
      StaysPriced(env, a.acc, b.acc);
    }
  }

  /** A newly placed order is authorized by the decision recorded with it. */
  lemma PlacedAuthorized(env: Env, pf: Portfolio, t: nat, d: DecisionRecord, after: Portfolio, orders: seq<Order>)
    requires t < env.Bars() && d.barIndex == t && d.final.Some? && d.risk.Some? && Asked(d.hook, pf, d.final)
    requires Ruled(env, pf, t, d.final.value, d.risk.value, after, orders) && after.pending.Some?
    ensures |orders| == 1
    ensures exists ctx :: Ordered(env, d, ctx, orders[0]) &&
              (!orders[0].intent.CloseIntent? ==> after.pending.value.notional == Notional(env, d, ctx))
    ensures var o, p := orders[0], after.pending.value;
            o.id == p.id && o.decisionBar == p.decisionBar && o.side == p.side && o.intent == p.intent && o.closeFraction == p.closeFraction
  {
    var final := d.final.value;
    var ctx :| RiskSees(env, pf, t, final.AddToPosition? && pf.position.Some?, ctx) &&
      d.risk.value == RiskRecord(t, env.core.evaluate(final, t, ctx).detail) && Leads(env, pf, t, final, env.core.evaluate(final, t, ctx), after, orders);
    assert ctx.equity == env.core.equity(pf.cash, pf.position, env.view.candles[t].close);
    assert Ordered(env, d, ctx, orders[0]);
  }

  lemma DecisionSound(env: Env, a: SymState, b: SymState, t: nat, hook: HookName, base: Decision, m: ModuleState, comp: Composition)
    requires t < env.Bars() && Sound(env, a) && Decides(env, a, b, t, hook, base, m, comp)
    ensures Sound(env, b)
  {
    StaysPriced(env, a.acc, b.acc);
    var n := |a.acc.orders|;
    if a.pf.pending.Some? {
      StillAuthorized(env, a.acc, b.acc, a.pf.pending.value);
    } else if b.pf.pending.Some? {
      var k := |a.acc.decisions|;
      PlacedAuthorized(env, a.pf, t, b.acc.decisions[k], b.pf, b.acc.orders[n..]);
      assert WaitsFor(env, b.acc.decisions, b.acc.orders[n], b.pf.pending.value);
    }
  }

  lemma ChargeSound(env: Env, a: SymState, b: SymState, c: SymState, t: nat)
    requires t < env.Bars() && Sound(env, a) && Charges(env, a, b, t) && Marks(env, b, c, t)
    ensures Sound(env, c) && c.pf.pending == a.pf.pending
  {
    hide Authorized, RateAt;
    StaysPriced(env, a.acc, c.acc);
    assert Grows(a.acc, c.acc);
    if a.pf.pending.Some? {
      StillAuthorized(env, a.acc, c.acc, a.pf.pending.value);
    }
  }

  /** Every bar keeps the prices right. */
  lemma BarSound(env: Env, a: SymState, w: Passage, b: SymState, t: nat)
    requires t < env.Bars() && Sound(env, a) && Passes(env, a, w, b, t) && (env.sameBarClose ==> a.pf.pending.None?)
    ensures Sound(env, b)
  {
    hide Sound, Fills, Guards, Enters, Manages, Charges, Marks;
    if a.pf.pending.Some? {
      FillsSound(env, a, w.filled, t, env.view.candles[t].open);
      FilledClears(env, a, w.filled, t, env.view.candles[t].open);
    }
    GuardSound(env, w.filled, w.guarded, t);
    EntersSound(env, w.guarded, w.entered, t);
    ManagesSound(env, w.entered, w.managed, t);
    if env.sameBarClose && w.managed.pf.pending.Some? {
      FillsSound(env, w.managed, w.closed, t, env.view.candles[t].close);
    }
    ChargeSound(env, w.closed, w.charged, b, t);
  }

  lemma FilledClears(env: Env, a: SymState, b: SymState, t: nat, base: real)
    requires t < env.Bars() && Fills(env, a, b, t, base)
    ensures b.pf.pending.None?
  {
  }

  lemma EntersSound(env: Env, a: SymState, b: SymState, t: nat)
    requires t < env.Bars() && Sound(env, a) && Enters(env, a, b, t)
    ensures Sound(env, b)
  {
    hide Sound, Decides, Shows, Answers, Overlaid;
    var ctx, m, base :| Shows(env, a.pf, t, ctx) && Answers(env, env.strategy.onBarClose, a.mod, ctx, t, m, base) &&
      Composed(env, a, b, t, OnBarClose, env.entryOverlays, ctx, m, base);
    var m', comp :| Overlaid(env, env.entryOverlays, ctx, t, m, base, m', comp) && Decides(env, a, b, t, OnBarClose, base, m', comp);
    DecisionSound(env, a, b, t, OnBarClose, base, m', comp);
  }

  lemma ManagesSound(env: Env, a: SymState, b: SymState, t: nat)
    requires t < env.Bars() && Sound(env, a) && Manages(env, a, b, t)
    ensures Sound(env, b)
  {
    hide Sound, Decides, Shows, Answers, Overlaid;
    if a.pf.position.Some? && (env.strategy.onPositionBar.Some? || env.postOverlays != []) {
      var ctx, m, base :| Shows(env, a.pf, t, ctx) && Composed(env, a, b, t, OnPositionBar, env.postOverlays, ctx, m, base) &&
        if env.strategy.onPositionBar.None? then m == a.mod && base == Idle
        else Answers(env, env.strategy.onPositionBar.value, a.mod, ctx, t, m, base);
      var m', comp :| Overlaid(env, env.postOverlays, ctx, t, m, base, m', comp) && Decides(env, a, b, t, OnPositionBar, base, m', comp);
      DecisionSound(env, a, b, t, OnPositionBar, base, m', comp);
    }
  }

  // ---------------------------------------------------------------- whole runs

  lemma {:induction false} StepsSound(env: Env, s: SymState, k: nat)
    requires k <= env.Bars() && Quiet(s.pf) && s.acc == NoRecords
    ensures Sound(env, Steps(env, s, 0, k))
    decreases k
  {
    hide Step, Sound;
    if k == 0 {
      NothingFilled(env, s);
    } else {
      StepsSound(env, s, k - 1);
      StepSound(env, Steps(env, s, 0, k - 1), k - 1);
    }
  }

  lemma NothingFilled(env: Env, s: SymState)
    requires Quiet(s.pf) && s.acc == NoRecords
    ensures Sound(env, s)
  {
  }

  lemma StepSound(env: Env, s: SymState, t: nat)
    requires t < env.Bars() && OnTime(s, t) && Sound(env, s) && (env.sameBarClose ==> s.pf.pending.None?)
    ensures Sound(env, Step(env, s, t))
  {
    hide Step, Sound, Passes;
    var w := StepPasses(env, s, t);
    BarSound(env, s, w, Step(env, s, t), t);
  }

  /** Every fill of a complete run is priced: under next-bar open at the open of the bar after its decision, under
      same-bar close at the close of its decision bar, for the side decided and the notional the risk stage gave; a
      protection fill at the level its bar reached. */
  lemma RunPriced(env: Env, s: SymState)
    requires Quiet(s.pf) && s.acc == NoRecords
    ensures AllPriced(env, Run(env, s).acc)
  {
    if env.Bars() > 0 {
      hide Steps, Init, Finalize, AllPriced;
      var end := Steps(env, Init(env, s), 0, env.Bars());
      InitBegins(env, s);
      StepsSound(env, Init(env, s), env.Bars());
      FinalizeEnds(env, end);
      EndPriced(env, end, Finalize(env, end));
      assert Run(env, s) == Finalize(env, end);
    } else {
      NothingFilled(env, s);
    }
  }

  lemma EndPriced(env: Env, a: SymState, b: SymState)
    requires env.Bars() > 0 && Ends(env, a, b) && AllPriced(env, a.acc)
    ensures AllPriced(env, b.acc)
  {
    hide Priced;
    StaysPriced(env, a.acc, b.acc);
  }
}
