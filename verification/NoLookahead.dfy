/** No lookahead over whole runs: what a run decides, fills and records through bar `t` does not
    depend on any data after bar `t`. */
module NoLookahead {
  import opened Basics
  import opened FundingColumn
  import opened MarketView
  import opened TradingEngine
  import opened BarLoop
  import opened BarRecords

  // ---------------------------------------------------------------- one bar sees only its past

  lemma SameBar(v: View, w: View, t: nat, u: nat)
    requires SameThrough(v, w, t) && u <= t
    ensures v.candles[u] == w.candles[u]
  {
  }

  lemma FundingReadingLocal(env: Env, w: View, t: nat)
    requires SameThrough(env.view, w, t)
    ensures FundingReading(env, t) == FundingReading(env.(view := w), t)
  {
    var v := env.view;
    SameBar(v, w, t, t);
    if v.tape.Some? && v.tape.value.funding.Some? {
      var a, b := v.tape.value, w.tape.value;
      var ts := v.candles[t].ts;
      ColumnIsLocal(a.funding.value, b.funding.value, a.grid, b.grid, ts, ts);
      if t > 0 {
        SameBar(v, w, t, t - 1);
        assert Covered(a.funding.value, v.candles[t - 1].ts) == Covered(b.funding.value, v.candles[t - 1].ts);
      }
    }
  }

  lemma {:induction false} ComposeLocal(env: Env, w: View, overlays: seq<OverlayHook>, i: nat, mod: ModuleState,
                                        ctx: Snapshot, t: nat, sofar: Decision, effects: seq<OverlayEffect>)
    requires SameThrough(env.view, w, t) && i <= |overlays|
    ensures Compose(env, overlays, i, mod, ctx, t, sofar, effects) ==
            Compose(env.(view := w), overlays, i, mod, ctx, t, sofar, effects)
    decreases |overlays| - i
  {
    if i < |overlays| {
      HookIsLocal(env.view, w, t, overlays[i](mod, ctx));
      hide Interpret, SameThrough;
      var (m, answer) := Interpret(env.view, t, overlays[i](mod, ctx));
      match answer
      case None => ComposeLocal(env, w, overlays, i + 1, m, ctx, t, sofar, effects);
      case Some(Pass) => ComposeLocal(env, w, overlays, i + 1, m, ctx, t, sofar, effects + [OverlayEffect(i, "pass")]);
      case Some(Note(_)) => ComposeLocal(env, w, overlays, i + 1, m, ctx, t, sofar, effects + [OverlayEffect(i, "annotate")]);
      case Some(Veto(_)) =>
      case Some(Patch(f)) =>
        match f(sofar)
        case Ok(patched) => ComposeLocal(env, w, overlays, i + 1, m, ctx, t, patched, effects + [OverlayEffect(i, "patch")]);
        case Err(_) =>
    }
  }

  lemma PreBarLocal(env: Env, w: View, s: SymState, t: nat)
    requires SameThrough(env.view, w, t) && OnTime(s, t)
    ensures PreBar(env, s, t) == PreBar(env.(view := w), s, t)
  {
    SameBar(env.view, w, t, t);
  }

  lemma SnapshotLocal(env: Env, w: View, pf: Portfolio, t: nat)
    requires SameThrough(env.view, w, t)
    ensures SnapshotAt(env, pf, t) == SnapshotAt(env.(view := w), pf, t)
  {
  }

  lemma EntryLocal(env: Env, w: View, s: SymState, t: nat, base: Option<Decision>, ctx: Snapshot)
    requires SameThrough(env.view, w, t) && s.pf.pending.None?
    ensures EntryStage(env, s, t, base, ctx) == EntryStage(env.(view := w), s, t, base, ctx)
  {
    SameBar(env.view, w, t, t);
    var baseDecision := if base.Some? then base.value else Idle;
    ComposeLocal(env, w, env.entryOverlays, 0, s.mod, ctx, t, baseDecision, []);
    hide Compose, SameThrough, EntryRisk;
    var (mod, comp) := Compose(env, env.entryOverlays, 0, s.mod, ctx, t, baseDecision, []);
    EntryRiskLocal(env, w, SymState(mod, s.pf, WithIssue(env, s.acc, t, OnBarClose, comp.error)), t, comp.final);
  }

  lemma EntryRiskLocal(env: Env, w: View, s: SymState, t: nat, final: Option<Decision>)
    requires SameThrough(env.view, w, t) && s.pf.pending.None?
    ensures EntryRisk(env, s, t, final) == EntryRisk(env.(view := w), s, t, final)
  {
    SameBar(env.view, w, t, t);
  }

  lemma PositionLocal(env: Env, w: View, s: SymState, t: nat)
    requires SameThrough(env.view, w, t) && Coherent(s.pf)
    requires s.pf.pending.Some? ==> s.pf.pending.value.decisionBar == t
    ensures PositionStage(env, s, t) == PositionStage(env.(view := w), s, t)
  {
    if s.pf.position.Some? && (env.strategy.onPositionBar.Some? || |env.postOverlays| > 0) {
      SameBar(env.view, w, t, t);
      SnapshotLocal(env, w, s.pf, t);
      var ctx := SnapshotAt(env, s.pf, t);
      hide Compose, SameThrough, Interpret, SnapshotAt, PositionRisk;
      var mod, base := s.mod, Idle;
      if env.strategy.onPositionBar.Some? {
        HookIsLocal(env.view, w, t, env.strategy.onPositionBar.value(s.mod, ctx));
        var (m, ds) := RunHook(env, env.strategy.onPositionBar.value, s.mod, ctx, t);
        mod, base := m, FirstDecision(ds);
      }
      ComposeLocal(env, w, env.postOverlays, 0, mod, ctx, t, base, []);
      var (m, comp) := Compose(env, env.postOverlays, 0, mod, ctx, t, base, []);
      var noted := SymState(m, s.pf, WithIssue(env, s.acc, t, OnPositionBar, comp.error));
      PositionRiskLocal(env, w, noted, t, comp.final);
    }
  }

  lemma PositionRiskLocal(env: Env, w: View, s: SymState, t: nat, final: Option<Decision>)
    requires SameThrough(env.view, w, t) && Coherent(s.pf) && s.pf.position.Some?
    requires s.pf.pending.Some? ==> s.pf.pending.value.decisionBar == t
    ensures PositionRisk(env, s, t, final) == PositionRisk(env.(view := w), s, t, final)
  {
  }

  lemma TailLocal(env: Env, w: View, s: SymState, t: nat)
    requires SameThrough(env.view, w, t) && Coherent(s.pf)
    requires s.pf.pending.Some? ==> s.pf.pending.value.decisionBar == t
    ensures SameBarStage(env, s, t) == SameBarStage(env.(view := w), s, t)
    ensures FundingStage(env, s, t) == FundingStage(env.(view := w), s, t)
    ensures EquityStage(env, s, t) == EquityStage(env.(view := w), s, t)
  {
    SameBar(env.view, w, t, t);
    FundingReadingLocal(env, w, t);
    hide SameThrough, FundingReading;
  }

  lemma ProcessLocal(env: Env, w: View, s: SymState, t: nat, base: Option<Decision>, ctx: Snapshot)
    requires SameThrough(env.view, w, t) && s.pf.pending.None?
    ensures ProcessBar(env, s, t, base, ctx) == ProcessBar(env.(view := w), s, t, base, ctx)
  {
    hide EntryStage, PositionStage, SameBarStage, FundingStage, EquityStage;
    EntryLocal(env, w, s, t, base, ctx);
    var entered := EntryStage(env, s, t, base, ctx);
    PositionLocal(env, w, entered, t);
    var managed := PositionStage(env, entered, t);
    TailLocal(env, w, managed, t);
    var settled := SameBarStage(env, managed, t);
    TailLocal(env, w, settled, t);
    TailLocal(env, w, FundingStage(env, settled, t), t);
  }

  /** One bar of the run is a function of the state before it and of the data up to that bar. */
  lemma StepLocal(env: Env, w: View, s: SymState, t: nat)
    requires SameThrough(env.view, w, t) && OnTime(s, t)
    ensures Step(env, s, t) == Step(env.(view := w), s, t)
  {
    hide PreBar, SnapshotAt, Interpret, ProcessBar, TapesAgree;
    PreBarLocal(env, w, s, t);
    var pre := PreBar(env, s, t);
    SnapshotLocal(env, w, pre.pf, t);
    var ctx := SnapshotAt(env, pre.pf, t);
    HookIsLocal(env.view, w, t, env.strategy.onBarClose(pre.mod, ctx));
    var (mod, ds) := RunHook(env, env.strategy.onBarClose, pre.mod, ctx, t);
    ProcessLocal(env, w, pre.(mod := mod), t, Some(FirstDecision(ds)), ctx);
  }

  /** Through bar `t` the two runs are the same run: module, portfolio and every list. */
  lemma {:induction false} SameStateThrough(env: Env, w: View, s: SymState, t: nat, k: nat)
    requires SameThrough(env.view, w, t) && OnTime(s, 0) && k <= t + 1
    ensures Steps(env, s, 0, k) == Steps(env.(view := w), s, 0, k)
    decreases k
  {
    hide Step;
    if k > 0 {
      SameStateThrough(env, w, s, t, k - 1);
      EarlierAgreement(env.view, w, t, k - 1);
      StepLocal(env, w, Steps(env, s, 0, k - 1), k - 1);
    }
  }

  // ---------------------------------------------------------------- later bars only append

  /** `b` continues `a`, and everything it adds belongs to bar `t` or later. */
  ghost predicate Continues<T(!new)>(a: seq<T>, b: seq<T>, bar: T -> nat, t: nat) {
    a <= b && forall i :: |a| <= i < |b| ==> bar(b[i]) >= t
  }

  ghost predicate Grows(a: Accumulators, b: Accumulators, t: nat) {
    Continues(a.decisions, b.decisions, DecisionBar, t) && Continues(a.fills, b.fills, FillBar, t) &&
    Continues(a.risks, b.risks, RiskBar, t) && Continues(a.equity, b.equity, EquityBar, t) &&
    Continues(a.funding, b.funding, FundingBar, t)
  }

  lemma GrowsOn(a: Accumulators, b: Accumulators, c: Accumulators, t: nat, u: nat)
    requires Grows(a, b, t) && Grows(b, c, u) && t <= u
    ensures Grows(a, c, t)
  {
  }

  lemma StepGrows(env: Env, s: SymState, t: nat)
    requires t < env.Bars() && OnTime(s, t)
    ensures Grows(s.acc, Step(env, s, t).acc, t)
  {
    hide Step;
    StepAdds(env, s, t);
  }

  lemma {:induction false} StepsGrow(env: Env, s: SymState, from: nat, k: nat)
    requires from + k <= env.Bars() && OnTime(s, from)
    ensures Grows(s.acc, Steps(env, s, from, k).acc, from)
    decreases k
  {
    hide Step;
    if k > 0 {
      StepsGrow(env, s, from, k - 1);
      var before := Steps(env, s, from, k - 1);
      StepGrows(env, before, from + k - 1);
      GrowsOn(s.acc, before.acc, Steps(env, s, from, k).acc, from, from + k - 1);
    }
  }

  lemma FinalizeKeeps(env: Env, s: SymState, t: nat)
    requires env.Bars() > 0
    ensures Grows(s.acc, Finalize(env, s).acc, t)
  {
  }

  /** The records a run had made when bar `t` was done. */
  function RecordsThrough(env: Env, s: SymState, t: nat): Accumulators
    requires Quiet(s.pf) && t < env.Bars()
  {
    Steps(env, Init(env, s), 0, t + 1).acc
  }

  /** A finished run's lists begin with what bar `t` had left, and hold nothing of bars `0..t` after it. */
  lemma RunContinues(env: Env, s: SymState, t: nat)
    requires Quiet(s.pf) && t < env.Bars()
    ensures Grows(RecordsThrough(env, s, t), Run(env, s).acc, t + 1)
  {
    hide Step, RunHook, SnapshotAt, Finalize, Grows;
    var begun := Init(env, s);
    var n := env.Bars();
    StepsSplit(env, begun, 0, t + 1, n - t - 1);
    var mid := Steps(env, begun, 0, t + 1);
    StepsGrow(env, mid, t + 1, n - t - 1);
    var end := Steps(env, begun, 0, n);
    FinalizeKeeps(env, end, t + 1);
    GrowsOn(mid.acc, end.acc, Finalize(env, end).acc, t + 1, t + 1);
  }

  lemma InitLocal(env: Env, w: View, s: SymState, t: nat)
    requires SameThrough(env.view, w, t)
    ensures Init(env, s) == Init(env.(view := w), s)
  {
    EarlierAgreement(env.view, w, t, 0);
    SnapshotLocal(env, w, s.pf, 0);
    HookIsLocal(env.view, w, 0, env.strategy.init(s.mod, SnapshotAt(env, s.pf, 0)));
    hide Interpret, SnapshotAt, SameThrough;
  }

  /** Two complete runs over data that agrees through bar `t` have made the same decision records,
      fills, risk decisions, equity points and funding charges through bar `t`; whatever follows in
      either result is about later bars. */
  lemma RunsAgreeThrough(env: Env, w: View, s: SymState, t: nat)
    requires Quiet(s.pf) && SameThrough(env.view, w, t)
    ensures var common := RecordsThrough(env, s, t);
            Grows(common, Run(env, s).acc, t + 1) && Grows(common, Run(env.(view := w), s).acc, t + 1)
  {
    hide Step, Run, Init, Grows, SameThrough;
    assert t < |env.view.candles| && t < |w.candles| by { EarlierAgreement(env.view, w, t, t); SameLengths(env.view, w, t); }
    InitLocal(env, w, s, t);
    InitOnTime(env, s);
    SameStateThrough(env, w, Init(env, s), t, t + 1);
    RunContinues(env, s, t);
    RunContinues(env.(view := w), s, t);
  }

  lemma SameLengths(v: View, w: View, t: nat)
    requires SameThrough(v, w, t)
    ensures t < |v.candles| && t < |w.candles|
  {
  }

  lemma InitOnTime(env: Env, s: SymState)
    requires Quiet(s.pf) && env.Bars() > 0
    ensures OnTime(Init(env, s), 0) && Init(env, s).pf == s.pf && Init(env, s).acc == s.acc
  {
  }
}
