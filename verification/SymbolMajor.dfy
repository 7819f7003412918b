/** Symbol after symbol over one portfolio and one set of lists. */
module SymbolMajor {
  import opened Basics
  import opened CandleData
  import opened MarketView
  import opened TradingEngine
  import opened BarLoop
  import opened BarRecords
  import opened Bookkeeping
  import opened JoinedRuns

  /** The symbol-major loop over the requested symbols, as given: a fresh module for each. */
  function RunAll(envs: seq<Env>, mods: seq<ModuleState>, s: SymState): (r: SymState)
    requires |envs| == |mods| && Quiet(s.pf)
    ensures Quiet(r.pf)
  {
    if envs == [] then s
    else
      var n := |envs| - 1;
      Run(envs[n], RunAll(envs[..n], mods[..n], s).(mod := mods[n]))
  }

  /** The run of symbol number `k` with lists of its own, on the portfolio the earlier ones left. */
  function OwnRun(envs: seq<Env>, mods: seq<ModuleState>, s: SymState, k: nat): SymState
    requires |envs| == |mods| && Quiet(s.pf) && k < |envs|
  {
    Run(envs[k], SymState(mods[k], RunAll(envs[..k], mods[..k], s).pf, NoRecords))
  }

  ghost predicate Places(r: SymState, id: OrderId) {
    exists i :: 0 <= i < |r.acc.orders| && r.acc.orders[i].id == id
  }

  /** No two of the runs place an order under the same symbol, bar and tag. */
  ghost predicate NoSharedIds(envs: seq<Env>, mods: seq<ModuleState>, s: SymState)
    requires |envs| == |mods| && Quiet(s.pf)
  {
    forall j, k, id :: 0 <= j < k < |envs| && Places(OwnRun(envs, mods, s, j), id) ==> !Places(OwnRun(envs, mods, s, k), id)
  }

  // ---------------------------------------------------------------- one book behind another

  function JoinBook(a: Book, b: Book): Book {
    Book(a.orders + b.orders, JoinIndex(a.index, b.index, |a.orders|), a.fills + b.fills, a.trades + b.trades, b.pending)
  }

  ghost predicate Has(b: Book, id: OrderId) {
    exists i :: 0 <= i < |b.orders| && b.orders[i].id == id
  }

  ghost predicate Apart(a: Book, b: Book) {
    forall id :: Has(a, id) ==> !Has(b, id)
  }

  /** What survives even when ids repeat: the index knows exactly the ids of the list and points at an order
      of each, and fills name orders of the list. */
  ghost predicate Loose(b: Book) {
    b.pending.None? && (forall i :: 0 <= i < |b.orders| ==> b.orders[i].id in b.index) &&
    (forall id :: id in b.index ==> b.index[id] < |b.orders| && b.orders[b.index[id]].id == id) &&
    forall j :: 0 <= j < |b.fills| ==> b.fills[j].orderId in b.index
  }

  lemma SettledIsLoose(b: Book, sameBarClose: bool)
    requires Settled(b, sameBarClose)
    ensures Loose(b)
  {
  }

  lemma JoinLoose(a: Book, b: Book)
    requires Loose(a) && Loose(b)
    ensures Loose(JoinBook(a, b))
  {
  }

  lemma HasIsIndexed(b: Book, id: OrderId)
    requires Loose(b)
    ensures Has(b, id) <==> id in b.index
  {
  }

  lemma JoinHas(a: Book, b: Book, id: OrderId)
    ensures Has(JoinBook(a, b), id) <==> Has(a, id) || Has(b, id)
  {
    var c := JoinBook(a, b);
    if Has(a, id) {
      var i :| 0 <= i < |a.orders| && a.orders[i].id == id;
      assert c.orders[i].id == id;
    }
    if Has(b, id) {
      var i :| 0 <= i < |b.orders| && b.orders[i].id == id;
      assert c.orders[|a.orders| + i].id == id;
    }
    if Has(c, id) {
      var i :| 0 <= i < |c.orders| && c.orders[i].id == id;
      assert c.orders[i] == if i < |a.orders| then a.orders[i] else b.orders[i - |a.orders|];
    }
  }

  /** Behind one another, settled books are settled when they share no id. */
  lemma JoinSettled(a: Book, b: Book, sameBarClose: bool)
    requires Settled(a, sameBarClose) && Settled(b, sameBarClose) && Apart(a, b)
    ensures Settled(JoinBook(a, b), sameBarClose)
  {
    hide FillsMatch, Indexed, HasFill, Has, Apart, JoinIndex;
    var c, n := JoinBook(a, b), |a.orders|;
    SettledIsLoose(a, sameBarClose);
    SettledIsLoose(b, sameBarClose);
    forall id ensures !(id in a.index && id in b.index) {
      ApartIndex(a, b, id);
    }
    JoinIndexed(a, b);
    JoinFills(a, b, sameBarClose);
    forall i | 0 <= i < |c.orders|
      ensures c.orders[i].status.FilledOrder? || c.orders[i].status.ExpiredOrder?
      ensures c.orders[i].status.ExpiredOrder? ==> !HasFill(c, c.orders[i].id)
    {
      FillsOfPart(a, b, c.orders[i].id);
      assert c.orders[i] == if i < n then a.orders[i] else b.orders[i - n];
    }
    assert Settled(c, sameBarClose);
  }

  lemma ApartIndex(a: Book, b: Book, id: OrderId)
    requires Loose(a) && Loose(b) && Apart(a, b)
    ensures !(id in a.index && id in b.index)
  {
    HasIsIndexed(a, id);
    HasIsIndexed(b, id);
  }

  lemma JoinIndexed(a: Book, b: Book)
    requires Indexed(a) && Indexed(b) && forall id :: !(id in a.index && id in b.index)
    ensures Indexed(JoinBook(a, b))
  {
    var c, n := JoinBook(a, b), |a.orders|;
    forall i | 0 <= i < |c.orders| ensures c.orders[i].id in c.index && c.index[c.orders[i].id] == i {
      if i < n {
        assert c.orders[i] == a.orders[i];
      } else {
        assert c.orders[i] == b.orders[i - n];
      }
    }
    forall id | id in c.index ensures c.index[id] < |c.orders| && c.orders[c.index[id]].id == id {
      if id in b.index {
        assert c.orders[n + b.index[id]] == b.orders[b.index[id]];
      } else {
        assert c.orders[a.index[id]] == a.orders[a.index[id]];
      }
    }
    hide JoinIndex;
  }

  /** A fill of either part is about an order of that part. */
  lemma FillsOfPart(a: Book, b: Book, id: OrderId)
    requires Loose(a) && Loose(b)
    ensures HasFill(JoinBook(a, b), id) <==> HasFill(a, id) || HasFill(b, id)
    ensures HasFill(a, id) ==> id in a.index
    ensures HasFill(b, id) ==> id in b.index
  {
    var c, m := JoinBook(a, b), |a.fills|;
    if HasFill(a, id) {
      var j :| 0 <= j < m && a.fills[j].orderId == id;
      assert c.fills[j].orderId == id;
    }
    if HasFill(b, id) {
      var j :| 0 <= j < |b.fills| && b.fills[j].orderId == id;
      assert c.fills[m + j].orderId == id;
    }
    if HasFill(c, id) {
      var j :| 0 <= j < |c.fills| && c.fills[j].orderId == id;
      assert c.fills[j] == if j < m then a.fills[j] else b.fills[j - m];
    }
  }

  lemma JoinFills(a: Book, b: Book, sameBarClose: bool)
    requires Loose(a) && Loose(b) && FillsMatch(a, sameBarClose) && FillsMatch(b, sameBarClose)
    requires forall id :: !(id in a.index && id in b.index)
    ensures FillsMatch(JoinBook(a, b), sameBarClose)
  {
    var c, n, m := JoinBook(a, b), |a.orders|, |a.fills|;
    forall j | 0 <= j < |c.fills|
      ensures c.fills[j] == if j < m then a.fills[j] else b.fills[j - m]
      ensures c.fills[j].orderId in c.index
      ensures var i := c.index[c.fills[j].orderId];
              i < |c.orders| && c.orders[i].status.FilledOrder? && LandsOnTime(c.orders[i], c.fills[j], sameBarClose)
    {
    }
    forall i | 0 <= i < |c.orders| && c.orders[i].status.FilledOrder? ensures HasFill(c, c.orders[i].id) {
      assert c.orders[i] == if i < n then a.orders[i] else b.orders[i - n];
      FillsOfPart(a, b, c.orders[i].id);
    }
  }

  /** And only then: a shared id spoils the index, and anything unsettled in the front part stays so. */
  lemma JoinUnsettled(a: Book, b: Book, sameBarClose: bool)
    requires Loose(a) && Settled(b, sameBarClose) && Settled(JoinBook(a, b), sameBarClose)
    ensures Apart(a, b) && Settled(a, sameBarClose)
  {
    var c, n, m := JoinBook(a, b), |a.orders|, |a.fills|;
    SettledIsLoose(b, sameBarClose);
    forall i | 0 <= i < n ensures a.orders[i].id !in b.index && a.index[a.orders[i].id] == i {
      assert c.orders[i] == a.orders[i];
    }
    forall id | Has(a, id) ensures !Has(b, id) {
      var i :| 0 <= i < n && a.orders[i].id == id;
      HasIsIndexed(b, id);
    }
    forall id | id in a.index ensures id !in b.index {
      assert a.orders[a.index[id]].id == id;
    }
    assert Indexed(a);
    FrontFills(a, b, sameBarClose);
    forall i | 0 <= i < n
      ensures a.orders[i].status.FilledOrder? || a.orders[i].status.ExpiredOrder?
      ensures a.orders[i].status.ExpiredOrder? ==> !HasFill(a, a.orders[i].id)
    {
      assert c.orders[i] == a.orders[i];
      FillsOfPart(a, b, a.orders[i].id);
    }
  }

  lemma FrontFills(a: Book, b: Book, sameBarClose: bool)
    requires Loose(a) && Loose(b) && FillsMatch(JoinBook(a, b), sameBarClose)
    requires forall id :: id in a.index ==> id !in b.index
    ensures FillsMatch(a, sameBarClose)
  {
    var c, n, m := JoinBook(a, b), |a.orders|, |a.fills|;
    forall j | 0 <= j < m
      ensures c.fills[j] == a.fills[j] && a.fills[j].orderId in a.index
      ensures var i := a.index[a.fills[j].orderId];
              a.orders[i].status.FilledOrder? && LandsOnTime(a.orders[i], a.fills[j], sameBarClose)
    {
      assert c.fills[j] == a.fills[j];
      assert c.orders[a.index[a.fills[j].orderId]] == a.orders[a.index[a.fills[j].orderId]];
    }
    forall i | 0 <= i < n && a.orders[i].status.FilledOrder? ensures HasFill(a, a.orders[i].id) {
      assert c.orders[i] == a.orders[i];
      FillsOfPart(a, b, a.orders[i].id);
    }
  }

  /** Loose books without a common id. */
  ghost predicate Disjoint(a: Book, b: Book) {
    Loose(a) && Loose(b) && forall id :: !(id in a.index && id in b.index)
  }

  lemma FrontCloses(a: Book, b: Book, j: nat)
    requires Disjoint(a, b) && j < |a.fills|
    ensures var c := JoinBook(a, b); j < |c.fills| && a.fills[j] == c.fills[j] && Closes(a, a.fills[j]) == Closes(c, c.fills[j])
  {
    var c, i := JoinBook(a, b), a.index[a.fills[j].orderId];
    assert c.orders[i] == a.orders[i];
  }

  lemma BackCloses(a: Book, b: Book, j: nat)
    requires Disjoint(a, b) && j < |b.fills|
    ensures var c := JoinBook(a, b);
            |a.fills| + j < |c.fills| && b.fills[j] == c.fills[|a.fills| + j] && Closes(b, b.fills[j]) == Closes(c, b.fills[j])
  {
    var c, i := JoinBook(a, b), b.index[b.fills[j].orderId];
    assert c.orders[|a.orders| + i] == b.orders[i];
  }

  lemma {:induction false} JoinCloseFills(a: Book, b: Book, k: nat)
    requires Disjoint(a, b) && k <= |b.fills|
    ensures |JoinBook(a, b).fills| == |a.fills| + |b.fills|
    ensures CloseFills(JoinBook(a, b), |a.fills| + k) == CloseFills(a, |a.fills|) + CloseFills(b, k)
  {
    hide Disjoint, Closes, JoinIndex;
    var c, m := JoinBook(a, b), |a.fills|;
    if k == 0 {
      forall j | 0 <= j < m ensures a.fills[j] == c.fills[j] && Closes(a, a.fills[j]) == Closes(c, c.fills[j]) {
        FrontCloses(a, b, j);
      }
      CloseFillsStable(a, c, m);
    } else {
      JoinCloseFills(a, b, k - 1);
      BackCloses(a, b, k - 1);
    }
    assert CloseFills(c, m + k) == CloseFills(a, m) + CloseFills(b, k);
  }

  // ---------------------------------------------------------------- all symbols

  lemma OwnRunOfPrefix(envs: seq<Env>, mods: seq<ModuleState>, s: SymState, n: nat, k: nat)
    requires |envs| == |mods| && Quiet(s.pf) && k < n <= |envs|
    ensures OwnRun(envs[..n], mods[..n], s, k) == OwnRun(envs, mods, s, k)
  {
    assert envs[..n][..k] == envs[..k] && mods[..n][..k] == mods[..k];
  }

  /** The book after the last symbol is its own book behind the book before it. */
  lemma LastJoins(envs: seq<Env>, mods: seq<ModuleState>, s: SymState)
    requires |envs| == |mods| && |envs| > 0 && Quiet(s.pf)
    ensures var n := |envs| - 1;
            BookOf(RunAll(envs, mods, s)) == JoinBook(BookOf(RunAll(envs[..n], mods[..n], s)), BookOf(OwnRun(envs, mods, s, n)))
  {
    hide Run;
    var n := |envs| - 1;
    var before := RunAll(envs[..n], mods[..n], s).(mod := mods[n]);
    RunAppends(envs[n], before);
    assert before.(acc := NoRecords) == SymState(mods[n], before.pf, NoRecords);
  }

  lemma OwnBook(envs: seq<Env>, mods: seq<ModuleState>, s: SymState, k: nat)
    requires |envs| == |mods| && Quiet(s.pf) && k < |envs|
    ensures var b := BookOf(OwnRun(envs, mods, s, k));
            Settled(b, envs[k].sameBarClose) && (TradesCounted(b, 0) || TradesCounted(b, 1))
    ensures forall id :: Places(OwnRun(envs, mods, s, k), id) <==> Has(BookOf(OwnRun(envs, mods, s, k)), id)
    ensures forall id :: Places(OwnRun(envs, mods, s, k), id) ==> id.symbol == envs[k].symbol
  {
    hide Run, Settled, TradesCounted;
    var start := SymState(mods[k], RunAll(envs[..k], mods[..k], s).pf, NoRecords);
    RunBooks(envs[k], start);
    RunOnlyAdds(envs[k], start);
  }

  ghost predicate PlacedByOne(envs: seq<Env>, mods: seq<ModuleState>, s: SymState, id: OrderId)
    requires |envs| == |mods| && Quiet(s.pf)
  {
    exists k :: 0 <= k < |envs| && Places(OwnRun(envs, mods, s, k), id)
  }

  /** Adding the last symbol: what was shared before stays shared, and the last may share more. */
  lemma SharedStep(envs: seq<Env>, mods: seq<ModuleState>, s: SymState, a: Book, b: Book)
    requires |envs| == |mods| && |envs| > 0 && Quiet(s.pf)
    requires var n := |envs| - 1;
             (forall id :: Has(a, id) <==> PlacedByOne(envs[..n], mods[..n], s, id)) &&
             (forall id :: Has(b, id) <==> Places(OwnRun(envs, mods, s, n), id))
    ensures var n := |envs| - 1; NoSharedIds(envs, mods, s) <==> NoSharedIds(envs[..n], mods[..n], s) && Apart(a, b)
    ensures forall id :: Has(a, id) || Has(b, id) <==> PlacedByOne(envs, mods, s, id)
  {
    hide OwnRun, RunAll, Has, Places;
    var n := |envs| - 1;
    forall k | 0 <= k < n ensures OwnRun(envs[..n], mods[..n], s, k) == OwnRun(envs, mods, s, k) {
      OwnRunOfPrefix(envs, mods, s, n, k);
    }
    forall id ensures Has(a, id) || Has(b, id) <==> PlacedByOne(envs, mods, s, id) {
      if Has(a, id) {
        var k :| 0 <= k < n && Places(OwnRun(envs[..n], mods[..n], s, k), id);
        assert Places(OwnRun(envs, mods, s, k), id);
      }
      if PlacedByOne(envs, mods, s, id) {
        var k :| 0 <= k < |envs| && Places(OwnRun(envs, mods, s, k), id);
        assert k < n ==> Places(OwnRun(envs[..n], mods[..n], s, k), id);
      }
    }
    if NoSharedIds(envs, mods, s) {
      forall j, k, id | 0 <= j < k < n && Places(OwnRun(envs[..n], mods[..n], s, j), id) ensures !Places(OwnRun(envs[..n], mods[..n], s, k), id) {
        assert Places(OwnRun(envs, mods, s, j), id);
      }
      forall id | Has(a, id) ensures !Has(b, id) {
        var j :| 0 <= j < n && Places(OwnRun(envs[..n], mods[..n], s, j), id);
        assert Places(OwnRun(envs, mods, s, j), id);
      }
    }
    if NoSharedIds(envs[..n], mods[..n], s) && Apart(a, b) {
      forall j, k, id | 0 <= j < k < |envs| && Places(OwnRun(envs, mods, s, j), id) ensures !Places(OwnRun(envs, mods, s, k), id) {
        assert Places(OwnRun(envs[..n], mods[..n], s, j), id);
        assert Has(a, id);
        assert k < n ==> OwnRun(envs[..n], mods[..n], s, k) == OwnRun(envs, mods, s, k);
      }
    }
  }

  /** Over all requested symbols, repeated or not: every order is filled once and on time or expired, under
      unique and indexed ids, if and only if no two of the runs place an order under the same id. Trades are
      then the close and protection fills plus at most one forced close per symbol. */
  lemma {:induction false} AllSymbolsBook(envs: seq<Env>, mods: seq<ModuleState>, s: SymState, sameBarClose: bool) returns (forced: nat)
    requires |envs| == |mods| && Quiet(s.pf) && s.acc == NoRecords
    requires forall i :: 0 <= i < |envs| ==> envs[i].sameBarClose == sameBarClose
    ensures var b := BookOf(RunAll(envs, mods, s));
            Loose(b) && (Settled(b, sameBarClose) <==> NoSharedIds(envs, mods, s)) &&
            (Settled(b, sameBarClose) ==> TradesCounted(b, forced)) && forced <= |envs| &&
            forall id :: Has(b, id) <==> PlacedByOne(envs, mods, s, id)
  {
    hide Run, Settled, Loose, JoinBook, Apart, Has, Places, OwnRun;
    forced := 0;
    if envs == [] {
      EmptyBook(s, sameBarClose);
      SettledIsLoose(BookOf(s), sameBarClose);
      NothingHeld(s);
    } else {
      var n := |envs| - 1;
      forced := AllSymbolsBook(envs[..n], mods[..n], s, sameBarClose);
      var a, b := BookOf(RunAll(envs[..n], mods[..n], s)), BookOf(OwnRun(envs, mods, s, n));
      LastJoins(envs, mods, s);
      OwnBook(envs, mods, s, n);
      SharedStep(envs, mods, s, a, b);
      SettledIsLoose(b, sameBarClose);
      JoinLoose(a, b);
      forall id ensures Has(JoinBook(a, b), id) <==> PlacedByOne(envs, mods, s, id) { JoinHas(a, b, id); }
      if Settled(JoinBook(a, b), sameBarClose) {
        JoinUnsettled(a, b, sameBarClose);
        forced := CountTrades(a, b, forced);
      } else if Settled(a, sameBarClose) && Apart(a, b) {
        JoinSettled(a, b, sameBarClose);
      }
    }
  }

  lemma NothingHeld(s: SymState)
    requires s.acc == NoRecords
    ensures forall id :: !Has(BookOf(s), id)
  {
  }

  lemma CountTrades(a: Book, b: Book, forced: nat) returns (r: nat)
    requires Loose(a) && Loose(b) && Apart(a, b) && TradesCounted(a, forced) && (TradesCounted(b, 0) || TradesCounted(b, 1))
    ensures forced <= r <= forced + 1 && TradesCounted(JoinBook(a, b), r)
  {
    hide Loose, Apart, JoinIndex, CloseFills;
    forall id ensures !(id in a.index && id in b.index) { ApartIndex(a, b, id); }
    JoinCloseFills(a, b, |b.fills|);
    r := if TradesCounted(b, 0) then forced else forced + 1;
    assert TradesCounted(JoinBook(a, b), r);
  }

  /** Distinct symbols are enough, and a caller can check them. */
  lemma DistinctSymbolsShareNothing(envs: seq<Env>, mods: seq<ModuleState>, s: SymState)
    requires |envs| == |mods| && Quiet(s.pf) && forall i, j :: 0 <= i < j < |envs| ==> envs[i].symbol != envs[j].symbol
    ensures NoSharedIds(envs, mods, s)
  {
    hide OwnRun;
    forall j, k, id | 0 <= j < k < |envs| && Places(OwnRun(envs, mods, s, j), id) ensures !Places(OwnRun(envs, mods, s, k), id) {
      OwnBook(envs, mods, s, j);
      OwnBook(envs, mods, s, k);
    }
  }

  // ---------------------------------------------------------------- a repeated symbol

  /** A strategy that asks for a long position at every bar close. */
  const EAGER: Strategy := Strategy(
    (m, _) => Return(m, []), (m, _) => Return(m, [Enter(Long, "")]), None, (m, _) => Return(m, []))

  const QUOTE: FillCalc := FillCalc(1.0, 0.0, 1.0, 1.0, 0.0)
  const HELD: Position := Position(Long, 1.0, 1.0, None, None, 0, 0.0)

  /** An execution core that accepts everything. */
  const WILLING: Core := Core(
    (_, _, _) => RiskOutcome(false, "", 1.0, None, None, None, ""), (_, _, _) => QUOTE, (_, _, _) => QUOTE, (_, _, _) => QUOTE,
    (_, _) => None, (_, _) => 1.0, (cash, _, _) => (cash, HELD), (cash, p, _) => (cash, p), (cash, p, _, _) => (cash, p, 0.0),
    (cash, _, _) => (cash, 0.0), (p, _, _) => p, (cash, p, _) => (cash, p), (_, _, _, _) => 0.0, (cash, _, _) => cash)

  /** One candle of the symbol "A". */
  function OneBar(ind: I.Indicators): Env {
    Env("A", View([Bar(0, 1.0, 1.0, 1.0, 1.0, 0.0)], None, ind), EAGER, [], [], WILLING, false, false, 0)
  }

  lemma EagerPlaces(ind: I.Indicators, s: SymState)
    requires Quiet(s.pf) && s.acc == NoRecords
    ensures Places(Run(OneBar(ind), s), OrderId("A", 0, OpenTag))
  {
    var env := OneBar(ind);
    var begun := Init(env, s);
    assert begun.pf == s.pf && begun.acc == NoRecords;
    assert PreBar(env, begun, 0) == begun;
    var ctx := SnapshotAt(env, begun.pf, 0);
    var (mod, ds) := RunHook(env, env.strategy.onBarClose, begun.mod, ctx, 0);
    assert ds == [Enter(Long, "")];
    var entered := EntryStage(env, begun.(mod := mod), 0, Some(FirstDecision(ds)), ctx);
    assert |entered.acc.orders| == 1 && entered.acc.orders[0].id == OrderId("A", 0, OpenTag);
    assert Steps(env, begun, 0, 0) == begun;
    var end := Steps(env, begun, 0, 1);
    assert end == ProcessBar(env, begun.(mod := mod), 0, Some(FirstDecision(ds)), ctx);
    assert end.acc.orders == entered.acc.orders;
    FinalizeOnlyMarks(env, end);
    assert Run(env, s).acc.orders[0].id == OrderId("A", 0, OpenTag);
  }

  /** With the symbol requested twice, both runs place the order of bar 0 and the book is not settled. */
  lemma RepeatedSymbolFails(ind: I.Indicators, mod: ModuleState, cash: real)
    ensures var s := SymState(mod, Portfolio(cash, None, None), NoRecords);
            !Settled(BookOf(RunAll([OneBar(ind), OneBar(ind)], [mod, mod], s)), false)
  {
    var s := SymState(mod, Portfolio(cash, None, None), NoRecords);
    var envs, mods := [OneBar(ind), OneBar(ind)], [mod, mod];
    var forced := AllSymbolsBook(envs, mods, s, false);
    hide OneBar, Run, RunAll, Settled;
    var id := OrderId("A", 0, OpenTag);
    assert Places(OwnRun(envs, mods, s, 0), id) by {
      EagerPlaces(ind, SymState(mod, RunAll(envs[..0], mods[..0], s).pf, NoRecords));
    }
    assert Places(OwnRun(envs, mods, s, 1), id) by {
      EagerPlaces(ind, SymState(mod, RunAll(envs[..1], mods[..1], s).pf, NoRecords));
    }
    assert !NoSharedIds(envs, mods, s);
  }
}
