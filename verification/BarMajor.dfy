/** Bar-major execution: several symbols advanced together along the union of their bar times,
    either symbol by symbol or in three phases per timestamp around one batched hook call. */
module BarMajor {
  import opened Basics
  import opened MarketView
  import opened TradingEngine
  import opened BarLoop
  import opened SymbolRunner

  predicate HasBarAt(env: Env, ts: int) {
    exists c :: 0 <= c < env.Bars() && env.view.candles[c].ts == ts
  }

  ghost predicate TimesIncrease(env: Env) {
    forall i, j :: 0 <= i < j < env.Bars() ==> env.view.candles[i].ts < env.view.candles[j].ts
  }

  ghost predicate Apart(runs: seq<SymbolRun>) {
    forall i, j :: 0 <= i < j < |runs| ==> runs[i] != runs[j]
  }

  /** Symbol `s` has done exactly its first `cursor[s]` bars, from `starts[s]`, as if it were alone. */
  ghost predicate Solo(runs: seq<SymbolRun>, starts: seq<SymState>, cursor: seq<nat>, s: nat)
    requires s < |runs| == |starts| == |cursor|
    reads runs
  {
    OnTime(starts[s], 0) && cursor[s] <= runs[s].env.Bars() &&
    runs[s].State() == Steps(runs[s].env, starts[s], 0, cursor[s])
  }

  /** The cursor of `s` stands at its first bar not earlier than `ts`. */
  ghost predicate Reached(env: Env, cursor: nat, ts: int) {
    cursor <= env.Bars() &&
    (forall c :: 0 <= c < cursor ==> env.view.candles[c].ts < ts) &&
    (forall c :: cursor <= c < env.Bars() ==> env.view.candles[c].ts >= ts)
  }

  predicate Due(env: Env, cursor: nat, ts: int) {
    cursor < env.Bars() && env.view.candles[cursor].ts == ts
  }

  function Advance(cursor: nat, due: bool): nat {
    if due then cursor + 1 else cursor
  }

  /** The index after symbols `0 .. n - 1` were added. */
  ghost predicate Indexed(envs: seq<Env>, at: map<int, seq<nat>>, n: nat)
    requires n <= |envs|
  {
    (forall ts :: ts in at ==> PresentList(envs, at[ts], n, ts)) &&
    (forall ts, s :: 0 <= s < n && HasBarAt(envs[s], ts) ==> ts in at)
  }

  /** Inner loop of the index: one symbol's bars, each timestamp listed once. */
  method AddSymbol(envs: seq<Env>, s: nat, before: map<int, seq<nat>>) returns (at: map<int, seq<nat>>)
    requires s < |envs| && Indexed(envs, before, s)
    ensures Indexed(envs, at, s + 1)
  {
    at := before;
    var env := envs[s];
    ghost var seen: set<int> := {};
    var c := 0;
    while c < env.Bars()
      invariant 0 <= c <= env.Bars()
      invariant forall k :: 0 <= k < c ==> env.view.candles[k].ts in seen
      invariant forall ts :: ts in seen ==> HasBarAt(env, ts)
      invariant forall ts :: ts in at <==> ts in before || ts in seen
      invariant forall ts :: ts in before ==> at[ts] == if ts in seen then before[ts] + [s] else before[ts]
      invariant forall ts :: ts in seen && ts !in before ==> at[ts] == [s]
    {
      var ts := env.view.candles[c].ts;
      if ts !in at {
        at := at[ts := [s]];
      } else {
        assert ts in before ==> PresentList(envs, before[ts], s, ts);
        if |at[ts]| == 0 || at[ts][|at[ts]| - 1] != s {
          at := at[ts := at[ts] + [s]];
        }
      }
      seen := seen + {ts};
      c := c + 1;
    }
    forall ts | ts in at ensures PresentList(envs, at[ts], s + 1, ts) {
      assert ts in seen <==> HasBarAt(env, ts);
      AddedList(envs, s, ts, if ts in before then before[ts] else [], at[ts]);
    }
    forall ts, i | 0 <= i < s + 1 && HasBarAt(envs[i], ts) ensures ts in at {
      assert i == s ==> ts in seen;
    }
  }

  lemma AddedList(envs: seq<Env>, s: nat, ts: int, before: seq<nat>, list: seq<nat>)
    requires s < |envs|
    requires before == [] ==> (forall i :: 0 <= i < s ==> !HasBarAt(envs[i], ts)) && HasBarAt(envs[s], ts)
    requires before != [] ==> PresentList(envs, before, s, ts)
    requires list == if HasBarAt(envs[s], ts) then before + [s] else before
    ensures PresentList(envs, list, s + 1, ts)
  {
  }

  /** Indices of the symbols present at each timestamp. */
  method IndexByTime(envs: seq<Env>) returns (at: map<int, seq<nat>>)
    ensures Indexed(envs, at, |envs|)
  {
    at := map[];
    var s := 0;
    while s < |envs|
      invariant 0 <= s <= |envs|
      invariant Indexed(envs, at, s)
    {
      at := AddSymbol(envs, s, at);
      s := s + 1;
    }
  }

  /** The symbols below `n` with a bar at `ts`, in ascending order. */
  ghost predicate PresentList(envs: seq<Env>, list: seq<nat>, n: nat, ts: int)
    requires n <= |envs|
  {
    |list| > 0 &&
    (forall i, j :: 0 <= i < j < |list| ==> list[i] < list[j]) &&
    (forall i :: 0 <= i < |list| ==> list[i] < n) &&
    (forall s :: 0 <= s < n ==> (HasBarAt(envs[s], ts) <==> s in list))
  }

  /** Slice A: the symbols present at `ts` take one lockstep bar each, in index order. */
  method Interleave(runs: seq<SymbolRun>, ghost starts: seq<SymState>, cursor: seq<nat>, present: seq<nat>, ts: int)
    returns (cursor': seq<nat>)
    requires Apart(runs) && |runs| == |starts| == |cursor|
    requires forall s :: 0 <= s < |runs| ==> Solo(runs, starts, cursor, s)
    requires forall i :: 0 <= i < |present| ==> present[i] < |runs|
    requires forall i, j :: 0 <= i < j < |present| ==> present[i] < present[j]
    requires forall s :: 0 <= s < |runs| && Due(runs[s].env, cursor[s], ts) ==> s in present
    modifies runs
    ensures |cursor'| == |cursor|
    ensures forall s :: 0 <= s < |runs| ==> cursor'[s] == Advance(cursor[s], Due(runs[s].env, cursor[s], ts))
    ensures forall s :: 0 <= s < |runs| ==> Solo(runs, starts, cursor', s)
  {
    hide Step;
    cursor' := cursor;
    var i := 0;
    while i < |present|
      invariant 0 <= i <= |present| && |cursor'| == |cursor|
      invariant forall s :: 0 <= s < |runs| ==>
                  cursor'[s] == Advance(cursor[s], s in present[..i] && Due(runs[s].env, cursor[s], ts))
      invariant forall s :: 0 <= s < |runs| ==> Solo(runs, starts, cursor', s)
    {
      var s := present[i];
      var t := cursor'[s];
      assert s !in present[..i];
      assert present[..i + 1] == present[..i] + [s];
      if Due(runs[s].env, t, ts) {
        assert Solo(runs, starts, cursor', s);
        ghost var was := cursor';
        label L:
        runs[s].StepBar(t);
        cursor' := cursor'[s := t + 1];
        forall r | 0 <= r < |runs| ensures Solo(runs, starts, cursor', r) {
          if r != s {
            assert runs[r] != runs[s];
            assert old@L(Solo(runs, starts, was, r));
            assert runs[r].State() == old@L(runs[r].State());
          }
        }
      }
      i := i + 1;
    }
    assert present[..|present|] == present;
  }

  /** `slot` inverts a list of symbols without repeats. */
  ghost predicate Slots(list: seq<nat>, slot: map<nat, nat>, n: nat) {
    (forall k :: 0 <= k < |list| ==> list[k] < n && list[k] in slot && slot[list[k]] == k) &&
    (forall s :: s in slot ==> slot[s] < |list| && list[slot[s]] == s)
  }

  /** `executeStrategyHookBarMajor`: one base decision per item, aligned with the items; each module
      sees only its own context. */
  method ExecuteHookBarMajor(runs: seq<SymbolRun>, items: seq<nat>, ghost slot: map<nat, nat>, bars: seq<nat>,
                             ctxs: seq<Snapshot>) returns (bases: seq<Decision>)
    requires Apart(runs) && |items| == |bars| == |ctxs| && Slots(items, slot, |runs|)
    requires forall i :: 0 <= i < |items| ==> bars[i] < runs[items[i]].env.Bars()
    modifies runs
    ensures |bases| == |items|
    ensures forall i :: 0 <= i < |items| ==> Asked(runs[items[i]].env, old(runs[items[i]].State()), bars[i], ctxs[i], runs[items[i]].State(), bases[i])
    ensures forall s :: 0 <= s < |runs| && s !in slot ==> runs[s].State() == old(runs[s].State())
  {
    hide Asked, SymbolRun.State;
    bases := [];
    var i := 0;
    while i < |items|
      invariant 0 <= i <= |items| && |bases| == i
      invariant forall k :: 0 <= k < i ==> Asked(runs[items[k]].env, old(runs[items[k]].State()), bars[k], ctxs[k], runs[items[k]].State(), bases[k])
      invariant forall s :: 0 <= s < |runs| && (s in slot ==> slot[s] >= i) ==> runs[s].State() == old(runs[s].State())
    {
      var s := items[i];
      var run := runs[s];
      assert run.State() == old(run.State());
      label L:
      var base := AskOne(run, bars[i], ctxs[i]);
      bases := bases + [base];
      forall r | 0 <= r < |runs| && r != s ensures runs[r].State() == old@L(runs[r].State()) {
        assert runs[r] != run;
      }
      i := i + 1;
    }
  }

  method AskOne(run: SymbolRun, t: nat, ctx: Snapshot) returns (base: Decision)
    requires t < run.env.Bars()
    modifies run`mod
    ensures Asked(run.env, old(run.State()), t, ctx, run.State(), base)
  {
    hide RunHook, FirstDecision;
    var (m, ds) := RunHook(run.env, run.env.strategy.onBarClose, run.mod, ctx, t);
    run.mod := m;
    base := FirstDecision(ds);
  }

  /** What one hook call does to the state it is asked on. */
  ghost predicate Asked(env: Env, before: SymState, t: nat, ctx: Snapshot, after: SymState, base: Decision)
    requires t < env.Bars()
  {
    var (m, ds) := RunHook(env, env.strategy.onBarClose, before.mod, ctx, t);
    after == before.(mod := m) && base == FirstDecision(ds)
  }

  lemma AskedThenProcessed(env: Env, s: SymState, t: nat, after: SymState, base: Decision)
    requires t < env.Bars() && OnTime(s, t)
    requires Asked(env, PreBar(env, s, t), t, SnapshotAt(env, PreBar(env, s, t).pf, t), after, base)
    ensures after.pf.pending.None?
    ensures ProcessBar(env, after, t, Some(base), SnapshotAt(env, PreBar(env, s, t).pf, t)) == Step(env, s, t)
  {
  }

  /** What the first phase does to a symbol due at its bar `t`. */
  ghost predicate Built(env: Env, before: SymState, t: nat, after: SymState, ctx: Snapshot) {
    t < env.Bars() && OnTime(before, t) && after == PreBar(env, before, t) && ctx == SnapshotAt(env, after.pf, t)
  }

  method BuildOne(run: SymbolRun, t: nat) returns (ctx: Snapshot)
    requires t < run.env.Bars() && OnTime(run.State(), t)
    modifies run
    ensures Built(run.env, old(run.State()), t, run.State(), ctx)
  {
    hide PreBar, SnapshotAt;
    run.PreBarStages(t);
    ctx := SnapshotAt(run.env, run.pf, t);
  }

  method ProcessOf(run: SymbolRun, t: nat, base: Option<Decision>, ctx: Snapshot)
    requires t < run.env.Bars() && run.State().pf.pending.None?
    modifies run
    ensures run.State() == ProcessBar(run.env, old(run.State()), t, base, ctx)
  {
    hide ProcessBar;
    run.Process(t, base, ctx);
  }

  /** The symbols due at `ts` among those present, with their cursors moved on. */
  method CollectDue(runs: seq<SymbolRun>, cursor: seq<nat>, present: seq<nat>, ts: int)
    returns (active: seq<nat>, ghost slot: map<nat, nat>, bars: seq<nat>, cursor': seq<nat>)
    requires |runs| == |cursor|
    requires forall i :: 0 <= i < |present| ==> present[i] < |runs|
    requires forall i, j :: 0 <= i < j < |present| ==> present[i] < present[j]
    ensures |active| == |bars| && |cursor'| == |cursor| && Slots(active, slot, |runs|)
    ensures forall i :: 0 <= i < |present| && Due(runs[present[i]].env, cursor[present[i]], ts) ==> present[i] in slot
    ensures forall s :: s in slot ==> Due(runs[s].env, cursor[s], ts)
    ensures forall s :: 0 <= s < |runs| ==> cursor'[s] == Advance(cursor[s], s in slot)
    ensures forall k :: 0 <= k < |active| ==> bars[k] == cursor[active[k]]
  {
    active, slot, bars, cursor' := [], map[], [], cursor;
    var i := 0;
    while i < |present|
      invariant 0 <= i <= |present|
      invariant |active| == |bars| && |cursor'| == |cursor| && Slots(active, slot, |runs|)
      invariant forall k :: 0 <= k < i && Due(runs[present[k]].env, cursor[present[k]], ts) ==> present[k] in slot
      invariant forall s :: s in slot ==> Due(runs[s].env, cursor[s], ts) && i > 0 && s <= present[i - 1]
      invariant forall s :: 0 <= s < |runs| ==> cursor'[s] == Advance(cursor[s], s in slot)
      invariant forall k :: 0 <= k < |active| ==> bars[k] == cursor[active[k]]
    {
      var s := present[i];
      assert s !in slot;
      var t := cursor'[s];
      if Due(runs[s].env, t, ts) {
        slot := slot[s := |active|];
        active, bars := active + [s], bars + [t];
        cursor' := cursor'[s := t + 1];
      }
      i := i + 1;
    }
  }

  /** First phase of a timestamp: settle, protect and build the context of every symbol due at it. */
  method SettleAndBuild(runs: seq<SymbolRun>, active: seq<nat>, ghost slot: map<nat, nat>, bars: seq<nat>)
    returns (ctxs: seq<Snapshot>)
    requires Apart(runs) && |active| == |bars| && Slots(active, slot, |runs|)
    requires forall k :: 0 <= k < |active| ==> bars[k] < runs[active[k]].env.Bars() && OnTime(runs[active[k]].State(), bars[k])
    modifies runs
    ensures |ctxs| == |active|
    ensures forall k :: 0 <= k < |active| ==>
              Built(runs[active[k]].env, old(runs[active[k]].State()), bars[k], runs[active[k]].State(), ctxs[k])
    ensures forall s :: 0 <= s < |runs| && s !in slot ==> runs[s].State() == old(runs[s].State())
  {
    hide Built, OnTime, SymbolRun.State;
    ctxs := [];
    var i := 0;
    while i < |active|
      invariant 0 <= i <= |active| && |ctxs| == i
      invariant forall k :: 0 <= k < i ==>
                  Built(runs[active[k]].env, old(runs[active[k]].State()), bars[k], runs[active[k]].State(), ctxs[k])
      invariant forall s :: 0 <= s < |runs| && (s in slot ==> slot[s] >= i) ==> runs[s].State() == old(runs[s].State())
    {
      var s := active[i];
      var run := runs[s];
      assert run.State() == old(run.State());
      label L:
      var ctx := BuildOne(run, bars[i]);
      ctxs := ctxs + [ctx];
      forall r | 0 <= r < |runs| && r != s ensures runs[r].State() == old@L(runs[r].State()) {
        assert runs[r] != run;
      }
      i := i + 1;
    }
  }

  /** Third phase: the answered bars are processed one symbol after the other. */
  method ProcessAll(runs: seq<SymbolRun>, active: seq<nat>, ghost slot: map<nat, nat>, bars: seq<nat>,
                    bases: seq<Decision>, ctxs: seq<Snapshot>)
    requires Apart(runs) && |active| == |bars| == |bases| == |ctxs| && Slots(active, slot, |runs|)
    requires forall i :: 0 <= i < |active| ==> bars[i] < runs[active[i]].env.Bars() && runs[active[i]].State().pf.pending.None?
    modifies runs
    ensures forall k :: 0 <= k < |active| ==>
              runs[active[k]].State() == ProcessBar(runs[active[k]].env, old(runs[active[k]].State()), bars[k], Some(bases[k]), ctxs[k])
    ensures forall s :: 0 <= s < |runs| && s !in slot ==> runs[s].State() == old(runs[s].State())
  {
    hide ProcessBar, SymbolRun.State;
    var i := 0;
    while i < |active|
      invariant 0 <= i <= |active|
      invariant forall k :: 0 <= k < i ==>
                  runs[active[k]].State() == ProcessBar(runs[active[k]].env, old(runs[active[k]].State()), bars[k], Some(bases[k]), ctxs[k])
      invariant forall s :: 0 <= s < |runs| && (s in slot ==> slot[s] >= i) ==> runs[s].State() == old(runs[s].State())
    {
      var s := active[i];
      var run := runs[s];
      assert run.State() == old(run.State());
      label L:
      ProcessOf(run, bars[i], Some(bases[i]), ctxs[i]);
      forall r | 0 <= r < |runs| && r != s ensures runs[r].State() == old@L(runs[r].State()) {
        assert runs[r] != run;
      }
      i := i + 1;
    }
  }

  /** Slice B: all present symbols settle and build their contexts, one call answers them all, then
      all are processed. */
  method ThreePhase(runs: seq<SymbolRun>, ghost starts: seq<SymState>, cursor: seq<nat>, present: seq<nat>, ts: int)
    returns (cursor': seq<nat>)
    requires Apart(runs) && |runs| == |starts| == |cursor|
    requires forall s :: 0 <= s < |runs| ==> Solo(runs, starts, cursor, s)
    requires forall i :: 0 <= i < |present| ==> present[i] < |runs|
    requires forall i, j :: 0 <= i < j < |present| ==> present[i] < present[j]
    requires forall s :: 0 <= s < |runs| && Due(runs[s].env, cursor[s], ts) ==> s in present
    modifies runs
    ensures |cursor'| == |cursor|
    ensures forall s :: 0 <= s < |runs| ==> cursor'[s] == Advance(cursor[s], Due(runs[s].env, cursor[s], ts))
    ensures forall s :: 0 <= s < |runs| ==> Solo(runs, starts, cursor', s)
  {
    hide Step, Steps, PreBar, ProcessBar, SnapshotAt, RunHook, FirstDecision;
    forall s | 0 <= s < |runs| ensures OnTime(runs[s].State(), cursor[s]) {
      assert Solo(runs, starts, cursor, s);
    }
    var active, bars;
    ghost var slot;
    active, slot, bars, cursor' := CollectDue(runs, cursor, present, ts);
    var ctxs := SettleAndBuild(runs, active, slot, bars);
    label Settled:
    var bases := ExecuteHookBarMajor(runs, active, slot, bars, ctxs);
    label Answered:
    forall k | 0 <= k < |active| ensures runs[active[k]].State().pf.pending.None? {
      assert old@Settled(runs[active[k]].State().pf.pending.None?);
    }
    ProcessAll(runs, active, slot, bars, bases, ctxs);
    forall s | 0 <= s < |runs| ensures Solo(runs, starts, cursor', s) {
      assert old(Solo(runs, starts, cursor, s));
      if s in slot {
        var k := slot[s];
        assert active[k] == s;
        AskedThenProcessed(runs[s].env, old(runs[s].State()), cursor[s], old@Answered(runs[s].State()), bases[k]);
        StepsNext(runs[s].env, starts[s], cursor[s]);
      } else {
        assert runs[s].State() == old(runs[s].State());
      }
    }
  }

  lemma StepsNext(env: Env, s: SymState, k: nat)
    requires OnTime(s, 0) && k < env.Bars()
    ensures Steps(env, s, 0, k + 1) == Step(env, Steps(env, s, 0, k), k)
  {
  }

  // ---------------------------------------------------------------- the driver

  function Fresh(mod: ModuleState, initialEquity: real): SymState {
    SymState(mod, Portfolio(initialEquity, None, None), NoRecords)
  }

  /** The requested symbols that have data, in request order. */
  function Live(inputs: seq<(Env, ModuleState)>): (r: seq<(Env, ModuleState)>)
    ensures forall i :: 0 <= i < |r| ==> r[i] in inputs && r[i].0.Bars() > 0
  {
    if inputs == [] then []
    else
      var n := |inputs| - 1;
      Live(inputs[..n]) + if inputs[n].0.Bars() > 0 then [inputs[n]] else []
  }

  /** `live` is what stands at the places `at` of the request: ascending places, all of symbols with bars. */
  ghost predicate LiveAt<T(!new)>(inputs: seq<T>, bars: T -> nat, live: seq<T>, at: seq<nat>) {
    |at| == |live| && (forall i, j :: 0 <= i < j < |at| ==> at[i] < at[j]) &&
    (forall i :: 0 <= i < |at| ==> at[i] < |inputs| && live[i] == inputs[at[i]]) &&
    forall k :: 0 <= k < |inputs| ==> (k in at <==> bars(inputs[k]) > 0)
  }

  lemma LiveOn<T(!new)>(inputs: seq<T>, bars: T -> nat, live: seq<T>, at: seq<nat>, last: T)
    requires LiveAt(inputs, bars, live, at)
    ensures bars(last) > 0 ==> LiveAt(inputs + [last], bars, live + [last], at + [|inputs|])
    ensures bars(last) == 0 ==> LiveAt(inputs + [last], bars, live, at)
  {
    assert forall i :: 0 <= i < |at| ==> at[i] in at;
    assert forall k :: 0 <= k < |inputs| ==> (inputs + [last])[k] == inputs[k];
  }

  function BarsOf(input: (Env, ModuleState)): nat { |input.0.view.candles| }

  /** Exactly the symbols with bars, in request order. */
  lemma {:induction false} LiveLaw(inputs: seq<(Env, ModuleState)>)
    ensures exists at :: LiveAt(inputs, BarsOf, Live(inputs), at)
  {
    hide LiveAt, Live;
    if inputs == [] {
      NoneLive(inputs);
    } else {
      var n := |inputs| - 1;
      LiveLaw(inputs[..n]);
      var at :| LiveAt(inputs[..n], BarsOf, Live(inputs[..n]), at);
      LiveOn(inputs[..n], BarsOf, Live(inputs[..n]), at, inputs[n]);
      assert inputs[..n] + [inputs[n]] == inputs;
      LiveUnfold(inputs, n);
      if BarsOf(inputs[n]) > 0 {
        assert LiveAt(inputs, BarsOf, Live(inputs), at + [n]);
      } else {
        assert LiveAt(inputs, BarsOf, Live(inputs), at);
      }
    }
  }

  lemma LiveUnfold(inputs: seq<(Env, ModuleState)>, n: nat)
    requires |inputs| == n + 1
    ensures Live(inputs) == if BarsOf(inputs[n]) > 0 then Live(inputs[..n]) + [inputs[n]] else Live(inputs[..n])
  {
  }

  lemma NoneLive(inputs: seq<(Env, ModuleState)>)
    requires inputs == []
    ensures LiveAt(inputs, BarsOf, Live(inputs), [])
  {
  }

  function TotalBars(inputs: seq<(Env, ModuleState)>): nat {
    if inputs == [] then 0 else TotalBars(inputs[..|inputs| - 1]) + inputs[|inputs| - 1].0.Bars()
  }

  method SetUp(inputs: seq<(Env, ModuleState)>, initialEquity: real) returns (runs: seq<SymbolRun>)
    ensures fresh(runs) && Apart(runs) && |runs| == |Live(inputs)|
    ensures forall s :: 0 <= s < |runs| ==>
              runs[s].env == Live(inputs)[s].0 &&
              runs[s].State() == Init(runs[s].env, Fresh(Live(inputs)[s].1, initialEquity))
  {
    runs := [];
    var i := 0;
    while i < |inputs|
      invariant 0 <= i <= |inputs|
      invariant fresh(runs) && Apart(runs) && |runs| == |Live(inputs[..i])|
      invariant forall s :: 0 <= s < |runs| ==>
                  runs[s].env == Live(inputs[..i])[s].0 &&
                  runs[s].State() == Init(runs[s].env, Fresh(Live(inputs[..i])[s].1, initialEquity))
    {
      var (env, mod) := inputs[i];
      assert inputs[..i + 1][..i] == inputs[..i];
      if env.Bars() > 0 {
        hide RunHook, SnapshotAt, SymbolRun.State;
        var begun := Init(env, Fresh(mod, initialEquity));
        var run := new SymbolRun(env, begun);
        runs := runs + [run];
      }
      i := i + 1;
    }
    assert inputs[..|inputs|] == inputs;
  }

  /** Everything dated at most `union[u - 1]` is done, everything later is still to come. */
  ghost predicate Passed(env: Env, cursor: nat, union: seq<int>, u: nat)
    requires u <= |union|
  {
    cursor <= env.Bars() &&
    (forall c :: 0 <= c < cursor ==> u > 0 && env.view.candles[c].ts <= union[u - 1]) &&
    (forall c :: cursor <= c < env.Bars() ==> u == 0 || env.view.candles[c].ts > union[u - 1])
  }

  ghost predicate OnTimeline(env: Env, union: seq<int>) {
    forall c :: 0 <= c < env.Bars() ==> env.view.candles[c].ts in union
  }

  lemma NextInstant(env: Env, cursor: nat, union: seq<int>, u: nat)
    requires StrictlyAscending(union) && u < |union| && TimesIncrease(env) && OnTimeline(env, union)
    requires Passed(env, cursor, union, u)
    ensures Reached(env, cursor, union[u])
    ensures HasBarAt(env, union[u]) <==> Due(env, cursor, union[u])
    ensures Passed(env, Advance(cursor, Due(env, cursor, union[u])), union, u + 1)
  {
  }

  lemma TimelineDone(env: Env, cursor: nat, union: seq<int>)
    requires StrictlyAscending(union) && OnTimeline(env, union) && Passed(env, cursor, union, |union|)
    ensures cursor == env.Bars()
  {
    if cursor < env.Bars() {
      LastIsLatest(union, env.view.candles[cursor].ts);
    }
  }

  lemma LastIsLatest(union: seq<int>, ts: int)
    requires StrictlyAscending(union) && ts in union
    ensures |union| > 0 && ts <= union[|union| - 1]
  {
  }

  /** The sorted union of all bar times, with the symbols present at each. */
  method UnionTimeline(envs: seq<Env>) returns (at: map<int, seq<nat>>, union: seq<int>)
    ensures StrictlyAscending(union)
    ensures forall s :: 0 <= s < |envs| ==> OnTimeline(envs[s], union)
    ensures forall u :: 0 <= u < |union| ==> union[u] in at && PresentList(envs, at[union[u]], |envs|, union[u])
  {
    at := IndexByTime(envs);
    union := Distinct(AllTimes(envs));
    forall s | 0 <= s < |envs| ensures OnTimeline(envs[s], union) {
      forall c | 0 <= c < envs[s].Bars() ensures envs[s].view.candles[c].ts in union {
        assert HasBarAt(envs[s], envs[s].view.candles[c].ts);
      }
    }
    forall u | 0 <= u < |union| ensures union[u] in at && PresentList(envs, at[union[u]], |envs|, union[u]) {
      assert union[u] in union && union[u] in AllTimes(envs);
    }
  }

  function AllTimes(envs: seq<Env>): (r: seq<int>)
    ensures forall ts :: ts in r <==> exists s :: 0 <= s < |envs| && HasBarAt(envs[s], ts)
  {
    if envs == [] then []
    else
      var n := |envs| - 1;
      var own := BarTimes(envs[n].view.candles);
      assert forall ts :: ts in own <==> HasBarAt(envs[n], ts);
      assert forall s :: 0 <= s < n ==> envs[..n][s] == envs[s];
      AllTimes(envs[..n]) + own
  }

  /** One timestamp of the union timeline, in either form. */
  method Instant(runs: seq<SymbolRun>, ghost starts: seq<SymState>, cursor: seq<nat>, ghost envs: seq<Env>,
                 present: seq<nat>, union: seq<int>, u: nat, batch: bool) returns (cursor': seq<nat>)
    requires Apart(runs) && |runs| == |starts| == |cursor| == |envs|
    requires forall s :: 0 <= s < |runs| ==> runs[s].env == envs[s]
    requires forall s :: 0 <= s < |runs| ==> TimesIncrease(envs[s]) && OnTimeline(envs[s], union)
    requires StrictlyAscending(union) && u < |union| && PresentList(envs, present, |envs|, union[u])
    requires forall s :: 0 <= s < |runs| ==> Passed(envs[s], cursor[s], union, u)
    requires forall s :: 0 <= s < |runs| ==> Solo(runs, starts, cursor, s)
    modifies runs
    ensures |cursor'| == |runs|
    ensures forall s :: 0 <= s < |runs| ==> Passed(envs[s], cursor'[s], union, u + 1)
    ensures forall s :: 0 <= s < |runs| ==> Solo(runs, starts, cursor', s)
  {
    hide Steps, Passed, Due, SymbolRun.State, TimesIncrease, OnTimeline, HasBarAt;
    var ts := union[u];
    forall s | 0 <= s < |runs|
      ensures HasBarAt(envs[s], ts) <==> Due(envs[s], cursor[s], ts)
      ensures Passed(envs[s], Advance(cursor[s], Due(envs[s], cursor[s], ts)), union, u + 1)
    {
      NextInstant(envs[s], cursor[s], union, u);
    }
    if batch {
      cursor' := ThreePhase(runs, starts, cursor, present, ts);
    } else {
      cursor' := Interleave(runs, starts, cursor, present, ts);
    }
  }

  /** The loop over the union timeline, in either form. */
  method AdvanceAll(runs: seq<SymbolRun>, ghost starts: seq<SymState>, batch: bool)
    requires Apart(runs) && |runs| == |starts|
    requires forall s :: 0 <= s < |runs| ==> TimesIncrease(runs[s].env)
    requires forall s :: 0 <= s < |runs| ==> OnTime(starts[s], 0) && runs[s].State() == starts[s]
    modifies runs
    ensures forall s :: 0 <= s < |runs| ==> runs[s].State() == Steps(runs[s].env, starts[s], 0, runs[s].env.Bars())
  {
    hide Step, SymbolRun.State, TimesIncrease, PresentList;
    var envs := EnvsOf(runs);
    var at, union := UnionTimeline(envs);
    forall s | 0 <= s < |runs| ensures Steps(runs[s].env, starts[s], 0, 0) == starts[s] {
    }
    var cursor := AlongTimeline(runs, starts, envs, at, union, batch);
    forall s | 0 <= s < |runs|
      ensures runs[s].State() == Steps(runs[s].env, starts[s], 0, runs[s].env.Bars())
    {
      TimelineDone(envs[s], cursor[s], union);
      assert Solo(runs, starts, cursor, s);
    }
  }

  function EnvsOf(runs: seq<SymbolRun>): (r: seq<Env>)
    ensures |r| == |runs| && forall s :: 0 <= s < |runs| ==> r[s] == runs[s].env
  {
    seq(|runs|, s requires 0 <= s < |runs| => runs[s].env)
  }

  function Zeros(n: nat): (r: seq<nat>)
    ensures |r| == n && forall i :: 0 <= i < n ==> r[i] == 0
  {
    seq(n, i => 0)
  }

  method AlongTimeline(runs: seq<SymbolRun>, ghost starts: seq<SymState>, envs: seq<Env>, at: map<int, seq<nat>>,
                       union: seq<int>, batch: bool) returns (cursor: seq<nat>)
    requires Apart(runs) && |runs| == |starts| == |envs| && StrictlyAscending(union)
    requires forall s :: 0 <= s < |runs| ==> runs[s].env == envs[s]
    requires forall s :: 0 <= s < |runs| ==> TimesIncrease(envs[s]) && OnTimeline(envs[s], union)
    requires forall u :: 0 <= u < |union| ==> union[u] in at && PresentList(envs, at[union[u]], |envs|, union[u])
    requires forall s :: 0 <= s < |runs| ==> OnTime(starts[s], 0) && runs[s].State() == Steps(envs[s], starts[s], 0, 0)
    modifies runs
    ensures |cursor| == |runs|
    ensures forall s :: 0 <= s < |runs| ==> Passed(envs[s], cursor[s], union, |union|)
    ensures forall s :: 0 <= s < |runs| ==> Solo(runs, starts, cursor, s)
  {
    hide Steps, SymbolRun.State, TimesIncrease, OnTimeline, PresentList, StrictlyAscending, Apart;
    cursor := Zeros(|runs|);
    var u := 0;
    while u < |union|
      invariant 0 <= u <= |union| && |cursor| == |runs|
      invariant forall s :: 0 <= s < |runs| ==> Passed(envs[s], cursor[s], union, u)
      invariant forall s :: 0 <= s < |runs| ==> Solo(runs, starts, cursor, s)
    {
      hide Passed, Solo;
      cursor := Instant(runs, starts, cursor, envs, at[union[u]], union, u, batch);
      u := u + 1;
    }
  }

  method FinalizeAll(runs: seq<SymbolRun>, inputs: seq<(Env, ModuleState)>) returns (barsProcessed: nat)
    requires Apart(runs) && |runs| == |inputs|
    requires forall s :: 0 <= s < |runs| ==> runs[s].env == inputs[s].0 && runs[s].env.Bars() > 0 && Coherent(runs[s].State().pf)
    modifies runs
    ensures forall s :: 0 <= s < |runs| ==> runs[s].State() == Finalize(runs[s].env, old(runs[s].State()))
    ensures barsProcessed == TotalBars(inputs)
  {
    hide Finalize;
    barsProcessed := 0;
    var i := 0;
    while i < |runs|
      invariant 0 <= i <= |runs|
      invariant barsProcessed == TotalBars(inputs[..i])
      invariant forall s :: 0 <= s < i ==> runs[s].State() == Finalize(runs[s].env, old(runs[s].State()))
      invariant forall s :: i <= s < |runs| ==> runs[s].State() == old(runs[s].State())
    {
      var run := runs[i];
      assert run.State() == old(run.State());
      label L:
      run.FinalizeSymbol();
      forall s | 0 <= s < |runs| && s != i ensures runs[s].State() == old@L(runs[s].State()) {
        assert runs[s] != run;
      }
      assert inputs[..i + 1][..i] == inputs[..i];
      barsProcessed := barsProcessed + run.env.Bars();
      i := i + 1;
    }
    assert inputs[..|inputs|] == inputs;
  }

  lemma {:induction false} LiveHasAllBars(inputs: seq<(Env, ModuleState)>)
    ensures TotalBars(Live(inputs)) == TotalBars(inputs)
  {
    if inputs != [] {
      var n := |inputs| - 1;
      LiveHasAllBars(inputs[..n]);
      var live := Live(inputs[..n]);
      if inputs[n].0.Bars() > 0 {
        assert (live + [inputs[n]])[..|live|] == live;
      } else {
        assert live + [] == live;
      }
    }
  }

  /** `runBarMajor` up to the merge of the lists. Interleaved or in three phases, every symbol ends
      with the module, portfolio and lists of its own lockstep run on a fresh portfolio, and every
      bar of every symbol is consumed once. */
  method RunBarMajor(inputs: seq<(Env, ModuleState)>, initialEquity: real, batch: bool)
    returns (runs: seq<SymbolRun>, barsProcessed: nat)
    requires forall i :: 0 <= i < |inputs| ==> TimesIncrease(inputs[i].0)
    ensures fresh(runs) && |runs| == |Live(inputs)|
    ensures forall s :: 0 <= s < |runs| ==>
              runs[s].env == Live(inputs)[s].0 &&
              runs[s].State() == Run(runs[s].env, Fresh(Live(inputs)[s].1, initialEquity))
    ensures barsProcessed == TotalBars(inputs)
  {
    hide Step, Finalize, RunHook, SnapshotAt, SymbolRun.State;
    var live := Live(inputs);
    runs := SetUp(inputs, initialEquity);
    ghost var starts := seq(|runs|, s requires 0 <= s < |runs| => Init(live[s].0, Fresh(live[s].1, initialEquity)));
    forall s | 0 <= s < |runs| ensures TimesIncrease(runs[s].env) {
      assert live[s] in inputs;
    }
    AdvanceAll(runs, starts, batch);
    label Done:
    barsProcessed := FinalizeAll(runs, live);
    LiveHasAllBars(inputs);
    forall s | 0 <= s < |runs| ensures runs[s].State() == Run(runs[s].env, Fresh(live[s].1, initialEquity)) {
      assert old@Done(runs[s].State()) == Steps(runs[s].env, starts[s], 0, runs[s].env.Bars());
    }
  }
}
