/** Orders, fills and trades over every run: what each is matched with, when a fill lands, and what
    is left when the data ends. */
module Bookkeeping {
  import opened Basics
  import opened MarketView
  import opened TradingEngine
  import opened BarLoop

  /** The part of a state the order ledger is about. */
  datatype Book = Book(orders: seq<Order>, index: map<OrderId, nat>, fills: seq<Fill>, trades: nat,
                       pending: Option<Pending>)

  function BookOf(s: SymState): Book {
    Book(s.acc.orders, s.acc.orderIndex, s.acc.fills, |s.acc.trades|, s.pf.pending)
  }

  /** The id index is exactly the position of each id in the order list; so ids are unique. */
  ghost predicate Indexed(b: Book) {
    (forall i :: 0 <= i < |b.orders| ==> b.orders[i].id in b.index && b.index[b.orders[i].id] == i) &&
    (forall id :: id in b.index ==> b.index[id] < |b.orders| && b.orders[b.index[id]].id == id)
  }

  /** Exactly the order the portfolio is waiting for is pending, and it agrees with what waits. */
  ghost predicate Waiting(b: Book) {
    (forall i :: 0 <= i < |b.orders| ==>
       (b.orders[i].status.PendingOrder? <==> b.pending.Some? && b.pending.value.id == b.orders[i].id)) &&
    (b.pending.Some? ==>
       b.pending.value.id in b.index &&
       var i := b.index[b.pending.value.id];
       i < |b.orders| && b.orders[i].intent == b.pending.value.intent &&
       b.orders[i].decisionBar == b.pending.value.decisionBar && !b.orders[i].protection)
  }

  /** This symbol's ids name their decision bar, and all of those bars are before `upTo`. */
  ghost predicate Owned(b: Book, symbol: string, upTo: nat) {
    forall i :: 0 <= i < |b.orders| && b.orders[i].id.symbol == symbol ==>
      b.orders[i].id.bar == b.orders[i].decisionBar && b.orders[i].decisionBar < upTo
  }

  /** One bar after the decision; on the same bar for protection and under same-bar close. */
  predicate LandsOnTime(o: Order, f: Fill, sameBarClose: bool) {
    f.bar == if o.protection || sameBarClose then o.decisionBar else o.decisionBar + 1
  }

  ghost predicate FillsMatch(b: Book, sameBarClose: bool) {
    (forall j :: 0 <= j < |b.fills| ==>
       b.fills[j].orderId in b.index &&
       var i := b.index[b.fills[j].orderId];
       i < |b.orders| && b.orders[i].status.FilledOrder? && LandsOnTime(b.orders[i], b.fills[j], sameBarClose)) &&
    (forall j, k :: 0 <= j < k < |b.fills| ==> b.fills[j].orderId != b.fills[k].orderId) &&
    (forall i :: 0 <= i < |b.orders| && b.orders[i].status.FilledOrder? ==> HasFill(b, b.orders[i].id))
  }

  ghost predicate HasFill(b: Book, id: OrderId) {
    exists j :: 0 <= j < |b.fills| && b.fills[j].orderId == id
  }

  predicate Closes(b: Book, f: Fill) {
    f.orderId in b.index && b.index[f.orderId] < |b.orders| && b.orders[b.index[f.orderId]].intent.CloseIntent?
  }

  /** Fills of close orders, protection included, among the first `n`. */
  function CloseFills(b: Book, n: nat): nat
    requires n <= |b.fills|
  {
    if n == 0 then 0 else CloseFills(b, n - 1) + if Closes(b, b.fills[n - 1]) then 1 else 0
  }

  ghost predicate TradesCounted(b: Book, forced: nat) {
    b.trades == CloseFills(b, |b.fills|) + forced
  }

  ghost predicate Ledger(b: Book, symbol: string, sameBarClose: bool, upTo: nat, forced: nat) {
    Indexed(b) && Waiting(b) && Owned(b, symbol, upTo) && FillsMatch(b, sameBarClose) && TradesCounted(b, forced)
  }

  lemma {:induction false} CloseFillsStable(b: Book, c: Book, n: nat)
    requires n <= |b.fills| && n <= |c.fills|
    requires forall j :: 0 <= j < n ==> b.fills[j] == c.fills[j] && Closes(b, b.fills[j]) == Closes(c, c.fills[j])
    ensures CloseFills(b, n) == CloseFills(c, n)
  {
    if n > 0 {
      CloseFillsStable(b, c, n - 1);
    }
  }

  // ---------------------------------------------------------------- the three ways the ledger moves

  /** The first order among the first `n` with this id, looking through the list. */
  function Scan(orders: seq<Order>, id: OrderId, n: nat): (r: Option<nat>)
    requires n <= |orders|
    ensures r.Some? ==> r.value < n && orders[r.value].id == id && forall i :: 0 <= i < r.value ==> orders[i].id != id
    ensures r.None? ==> forall i :: 0 <= i < n ==> orders[i].id != id
  {
    if n == 0 then None
    else
      var earlier := Scan(orders, id, n - 1);
      if earlier.Some? then earlier else if orders[n - 1].id == id then Some(n - 1) else None
  }

  /** Appending an order under a new id. */
  function Appended(b: Book, order: Order): Book {
    b.(orders := b.orders + [order], index := b.index[order.id := |b.orders|])
  }

  /** Setting the status of the waiting order, which then waits no more. */
  function Resolved(b: Book, status: Status): Book
    requires b.pending.Some? && b.pending.value.id in b.index && b.index[b.pending.value.id] < |b.orders|
  {
    var i := b.index[b.pending.value.id];
    b.(orders := b.orders[i := b.orders[i].(status := status)], pending := None)
  }

  function WithFill(b: Book, f: Fill): Book {
    b.(fills := b.fills + [f])
  }

  lemma AppendedIndexed(b: Book, order: Order)
    requires Indexed(b) && order.id !in b.index
    ensures Indexed(Appended(b, order))
    ensures forall j :: 0 <= j < |b.fills| && b.fills[j].orderId in b.index ==>
              Closes(b, b.fills[j]) == Closes(Appended(b, order), b.fills[j])
  {
  }

  lemma AppendedFills(b: Book, order: Order, sameBarClose: bool)
    requires Indexed(b) && FillsMatch(b, sameBarClose) && order.id !in b.index && !order.status.FilledOrder?
    ensures FillsMatch(Appended(b, order), sameBarClose)
  {
  }

  lemma PlaceKeeps(b: Book, order: Order, pending: Pending, symbol: string, sameBarClose: bool, upTo: nat, forced: nat)
    requires Ledger(b, symbol, sameBarClose, upTo, forced) && b.pending.None?
    requires order.id !in b.index && order.id == pending.id && order.status.PendingOrder? && !order.protection
    requires order.intent == pending.intent && order.decisionBar == pending.decisionBar
    requires order.id.symbol == symbol && order.id.bar == order.decisionBar < upTo
    ensures Ledger(Appended(b, order).(pending := Some(pending)), symbol, sameBarClose, upTo, forced)
  {
    hide Indexed, Waiting, Owned, FillsMatch, Closes;
    var c := Appended(b, order);
    var d := c.(pending := Some(pending));
    FillsIndexed(b, sameBarClose);
    AppendedIndexed(b, order);
    AppendedFills(b, order, sameBarClose);
    AppendedOwned(b, order, symbol, upTo);
    PlacedWaiting(b, order, pending);
    SameFills(c, d, sameBarClose);
    SameOwned(c, d, symbol, upTo);
    ClosesIgnoresFills(c, d);
    CloseFillsStable(b, d, |b.fills|);
    assert TradesCounted(d, forced);
  }

  lemma FillsIndexed(b: Book, sameBarClose: bool)
    requires FillsMatch(b, sameBarClose)
    ensures forall j :: 0 <= j < |b.fills| ==> b.fills[j].orderId in b.index
  {
  }

  lemma AppendedOwned(b: Book, order: Order, symbol: string, upTo: nat)
    requires Owned(b, symbol, upTo) && order.id.bar == order.decisionBar < upTo
    ensures Owned(Appended(b, order), symbol, upTo)
  {
  }

  lemma SameOwned(b: Book, c: Book, symbol: string, upTo: nat)
    requires b.orders == c.orders
    ensures Owned(b, symbol, upTo) == Owned(c, symbol, upTo)
  {
  }

  /** What waits is an indexed order with the same intent. */
  lemma WaitingIndexed(b: Book)
    requires Waiting(b) && b.pending.Some?
    ensures b.pending.value.id in b.index && b.index[b.pending.value.id] < |b.orders|
    ensures b.orders[b.index[b.pending.value.id]].intent == b.pending.value.intent
  {
  }

  lemma PlacedWaiting(b: Book, order: Order, pending: Pending)
    requires Indexed(b) && Waiting(b) && b.pending.None? && order.id !in b.index
    requires order.id == pending.id && order.status.PendingOrder? && !order.protection
    requires order.intent == pending.intent && order.decisionBar == pending.decisionBar
    ensures Waiting(Appended(b, order).(pending := Some(pending)))
  {
  }

  /** Fill matching and indexing do not look at what waits or at the trade count. */
  lemma SameFills(b: Book, c: Book, sameBarClose: bool)
    requires b.orders == c.orders && b.index == c.index && b.fills == c.fills
    ensures FillsMatch(b, sameBarClose) == FillsMatch(c, sameBarClose)
    ensures Indexed(b) == Indexed(c)
    ensures forall id :: HasFill(b, id) == HasFill(c, id)
  {
    assert forall id :: HasFill(b, id) == HasFill(c, id);
  }

  lemma ResolvedIndexed(b: Book, status: Status)
    requires Indexed(b) && Waiting(b) && b.pending.Some? && !status.PendingOrder?
    ensures var c := Resolved(b, status); Indexed(c) && Waiting(c) && c.pending.None?
    ensures forall f :: Closes(b, f) == Closes(Resolved(b, status), f)
  {
  }

  lemma FilledFills(b: Book, f: Fill, sameBarClose: bool)
    requires Indexed(b) && Waiting(b) && FillsMatch(b, sameBarClose) && b.pending.Some? && f.orderId == b.pending.value.id
    requires f.bar == if sameBarClose then b.pending.value.decisionBar else b.pending.value.decisionBar + 1
    ensures FillsMatch(WithFill(Resolved(b, FilledOrder), f), sameBarClose)
  {
    var i := b.index[b.pending.value.id];
    var c := WithFill(Resolved(b, FilledOrder), f);
    assert c.fills[|b.fills|] == f;
    forall k | 0 <= k < |c.orders| && c.orders[k].status.FilledOrder? ensures HasFill(c, c.orders[k].id) {
      if k != i {
        assert HasFill(b, b.orders[k].id);
        var j :| 0 <= j < |b.fills| && b.fills[j].orderId == b.orders[k].id;
        assert c.fills[j].orderId == c.orders[k].id;
      }
    }
  }

  lemma FillKeeps(b: Book, f: Fill, trades: nat, symbol: string, sameBarClose: bool, upTo: nat, forced: nat)
    requires Ledger(b, symbol, sameBarClose, upTo, forced) && b.pending.Some? && f.orderId == b.pending.value.id
    requires f.bar == if sameBarClose then b.pending.value.decisionBar else b.pending.value.decisionBar + 1
    requires trades == b.trades + if b.pending.value.intent.CloseIntent? then 1 else 0
    ensures b.pending.value.id in b.index && b.index[b.pending.value.id] < |b.orders|
    ensures Ledger(WithFill(Resolved(b, FilledOrder), f).(trades := trades), symbol, sameBarClose, upTo, forced)
  {
    hide Indexed, Waiting, Owned, FillsMatch, Closes;
    WaitingIndexed(b);
    var r := Resolved(b, FilledOrder);
    var c := WithFill(r, f);
    var d := c.(trades := trades);
    ResolvedIndexed(b, FilledOrder);
    ResolvedOwned(b, FilledOrder, symbol, upTo);
    SameOwned(r, d, symbol, upTo);
    SameWaiting(r, d);
    FilledFills(b, f, sameBarClose);
    SameFills(c, d, sameBarClose);
    ClosesIgnoresFills(r, d);
    ClosesWaiting(b, f);
    CloseFillsStable(b, d, |b.fills|);
    assert TradesCounted(d, forced);
  }

  lemma ClosesWaiting(b: Book, f: Fill)
    requires Waiting(b) && b.pending.Some? && f.orderId == b.pending.value.id
    ensures Closes(b, f) == b.pending.value.intent.CloseIntent?
  {
  }

  lemma ResolvedOwned(b: Book, status: Status, symbol: string, upTo: nat)
    requires Owned(b, symbol, upTo) && b.pending.Some? && b.pending.value.id in b.index && b.index[b.pending.value.id] < |b.orders|
    ensures Owned(Resolved(b, status), symbol, upTo)
  {
  }

  lemma SameWaiting(b: Book, c: Book)
    requires b.orders == c.orders && b.index == c.index && b.pending == c.pending
    ensures Waiting(b) == Waiting(c) && Indexed(b) == Indexed(c)
  {
  }

  lemma ClosesIgnoresFills(b: Book, c: Book)
    requires b.orders == c.orders && b.index == c.index
    ensures forall f :: Closes(b, f) == Closes(c, f)
  {
  }

  lemma ProtectedFills(b: Book, order: Order, f: Fill, sameBarClose: bool)
    requires Indexed(b) && FillsMatch(b, sameBarClose) && order.id !in b.index
    requires order.status.FilledOrder? && order.protection && f.orderId == order.id && f.bar == order.decisionBar
    ensures FillsMatch(WithFill(Appended(b, order), f), sameBarClose)
  {
    var c := WithFill(Appended(b, order), f);
    assert c.fills[|b.fills|] == f;
    forall k | 0 <= k < |c.orders| && c.orders[k].status.FilledOrder? ensures HasFill(c, c.orders[k].id) {
      if k < |b.orders| {
        assert HasFill(b, b.orders[k].id);
        var j :| 0 <= j < |b.fills| && b.fills[j].orderId == b.orders[k].id;
        assert c.fills[j].orderId == c.orders[k].id;
      }
    }
  }

  lemma ProtectionKeeps(b: Book, order: Order, f: Fill, symbol: string, sameBarClose: bool, upTo: nat, forced: nat)
    requires Ledger(b, symbol, sameBarClose, upTo, forced) && b.pending.None?
    requires order.id !in b.index && order.status.FilledOrder? && order.protection && order.intent.CloseIntent?
    requires order.id.symbol == symbol && order.id.bar == order.decisionBar < upTo
    requires f.orderId == order.id && f.bar == order.decisionBar
    ensures Ledger(WithFill(Appended(b, order), f).(trades := b.trades + 1), symbol, sameBarClose, upTo, forced)
  {
    hide Indexed, Waiting, Owned, FillsMatch, Closes;
    var a := Appended(b, order);
    var c := WithFill(a, f);
    var d := c.(trades := b.trades + 1);
    FillsIndexed(b, sameBarClose);
    AppendedIndexed(b, order);
    AppendedOwned(b, order, symbol, upTo);
    AppendedWaiting(b, order);
    SameOwned(a, d, symbol, upTo);
    SameWaiting(a, d);
    ProtectedFills(b, order, f, sameBarClose);
    SameFills(c, d, sameBarClose);
    ClosesIgnoresFills(a, d);
    ClosesAppended(b, order, f);
    CloseFillsStable(b, d, |b.fills|);
    assert TradesCounted(d, forced);
  }

  lemma AppendedWaiting(b: Book, order: Order)
    requires Waiting(b) && b.pending.None? && !order.status.PendingOrder?
    ensures Waiting(Appended(b, order))
  {
  }

  lemma ClosesAppended(b: Book, order: Order, f: Fill)
    requires f.orderId == order.id
    ensures Closes(Appended(b, order), f) == order.intent.CloseIntent?
  {
  }

  // ---------------------------------------------------------------- stage by stage

  ghost predicate Kept(env: Env, s: SymState, upTo: nat, forced: nat) {
    Ledger(BookOf(s), env.symbol, env.sameBarClose, upTo, forced)
  }

  predicate Unused(env: Env, s: SymState, t: nat, tag: Tag) {
    OrderId(env.symbol, t, tag) !in s.acc.orderIndex
  }

  lemma UnusedAhead(env: Env, s: SymState, t: nat, tag: Tag, forced: nat)
    requires Kept(env, s, t, forced)
    ensures Unused(env, s, t, tag)
  {
  }

  /** A waiting order is due now: on its own bar under same-bar close, on the next one otherwise. */
  predicate DueNow(env: Env, s: SymState, t: nat) {
    s.pf.pending.Some? && t == s.pf.pending.value.decisionBar + if env.sameBarClose then 0 else 1
  }

  lemma SettleKept(env: Env, s: SymState, t: nat, base: real, upTo: nat, forced: nat)
    requires t < env.Bars() && Coherent(s.pf) && Kept(env, s, upTo, forced) && DueNow(env, s, t)
    ensures Kept(env, SettlePending(env, s, t, base), upTo, forced)
    ensures SettlePending(env, s, t, base).acc.orderIndex == s.acc.orderIndex
  {
    var r := SettlePending(env, s, t, base);
    var f := r.acc.fills[|s.acc.fills|];
    assert BookOf(r) == WithFill(Resolved(BookOf(s), FilledOrder), f).(trades := |r.acc.trades|);
    hide Indexed, Waiting, Owned, FillsMatch, TradesCounted, SettlePending;
    FillKeeps(BookOf(s), f, |r.acc.trades|, env.symbol, env.sameBarClose, upTo, forced);
  }

  lemma ProtectKept(env: Env, s: SymState, t: nat, forced: nat)
    requires t < env.Bars() && s.pf.pending.None? && Kept(env, s, t + 1, forced) && Unused(env, s, t, ProtectionTag)
    ensures Kept(env, ProtectionCheck(env, s, t), t + 1, forced)
    ensures forall tag :: tag != ProtectionTag && Unused(env, s, t, tag) ==> Unused(env, ProtectionCheck(env, s, t), t, tag)
  {
    var r := ProtectionCheck(env, s, t);
    if r != s {
      var order := r.acc.orders[|s.acc.orders|];
      var f := r.acc.fills[|s.acc.fills|];
      assert BookOf(r) == WithFill(Appended(BookOf(s), order), f).(trades := |s.acc.trades| + 1);
      hide Indexed, Owned, FillsMatch, TradesCounted, Waiting;
      ProtectionKeeps(BookOf(s), order, f, env.symbol, env.sameBarClose, t + 1, forced);
    }
  }

  lemma Loosen(env: Env, s: SymState, t: nat, forced: nat)
    requires Kept(env, s, t, forced)
    ensures Kept(env, s, t + 1, forced)
  {
  }

  lemma PreBarKept(env: Env, s: SymState, t: nat, forced: nat)
    requires t < env.Bars() && OnTime(s, t) && Kept(env, s, t, forced)
    requires env.sameBarClose ==> s.pf.pending.None?
    ensures Kept(env, PreBar(env, s, t), t + 1, forced)
    ensures forall tag :: tag != ProtectionTag ==> Unused(env, PreBar(env, s, t), t, tag)
  {
    hide Ledger, SettlePending, ProtectionCheck;
    Loosen(env, s, t, forced);
    forall tag ensures Unused(env, s, t, tag) { UnusedAhead(env, s, t, tag, forced); }
    var settled := s;
    if s.pf.pending.Some? {
      settled := SettlePending(env, s, t, env.view.candles[t].open);
      SettleKept(env, s, t, env.view.candles[t].open, t + 1, forced);
    }
    forall tag ensures Unused(env, settled, t, tag) { assert Unused(env, s, t, tag); }
    ProtectKept(env, settled, t, forced);
    assert PreBar(env, s, t) == ProtectionCheck(env, settled, t);
  }

  lemma EntryKept(env: Env, s: SymState, t: nat, base: Option<Decision>, ctx: Snapshot, forced: nat)
    requires t < env.Bars() && s.pf.pending.None? && Kept(env, s, t + 1, forced) && Unused(env, s, t, OpenTag)
    ensures Kept(env, EntryStage(env, s, t, base, ctx), t + 1, forced)
    ensures s.pf.position.Some? ==> EntryStage(env, s, t, base, ctx).acc.orderIndex == s.acc.orderIndex
  {
    hide Compose, Indexed, Owned, FillsMatch, TradesCounted, Waiting;
    var r := EntryStage(env, s, t, base, ctx);
    if r.pf.pending.Some? {
      var order := r.acc.orders[|s.acc.orders|];
      PlaceKeeps(BookOf(s), order, r.pf.pending.value, env.symbol, env.sameBarClose, t + 1, forced);
    }
  }

  lemma PositionKept(env: Env, s: SymState, t: nat, forced: nat)
    requires t < env.Bars() && Coherent(s.pf) && Kept(env, s, t + 1, forced)
    requires s.pf.pending.Some? ==> s.pf.pending.value.decisionBar == t
    requires s.pf.position.Some? ==> Unused(env, s, t, CloseTag) && Unused(env, s, t, AddTag)
    ensures Kept(env, PositionStage(env, s, t), t + 1, forced)
  {
    hide Compose, RunHook, SnapshotAt, Indexed, Owned, FillsMatch, TradesCounted, Waiting;
    var r := PositionStage(env, s, t);
    if s.pf.pending.None? && r.pf.pending.Some? {
      var order := r.acc.orders[|s.acc.orders|];
      PlaceKeeps(BookOf(s), order, r.pf.pending.value, env.symbol, env.sameBarClose, t + 1, forced);
    }
  }

  lemma TailKept(env: Env, s: SymState, t: nat, forced: nat)
    requires t < env.Bars() && Coherent(s.pf) && Kept(env, s, t + 1, forced)
    requires s.pf.pending.Some? ==> s.pf.pending.value.decisionBar == t
    ensures Kept(env, EquityStage(env, FundingStage(env, SameBarStage(env, s, t), t), t), t + 1, forced)
  {
    var settled := SameBarStage(env, s, t);
    if env.sameBarClose && s.pf.pending.Some? {
      SettleKept(env, s, t, env.view.candles[t].close, t + 1, forced);
    }
    hide SettlePending, Ledger, FundingReading;
    assert BookOf(EquityStage(env, FundingStage(env, settled, t), t)) == BookOf(settled);
  }

  /** Every bar keeps the ledger. */
  lemma StepKept(env: Env, s: SymState, t: nat, forced: nat)
    requires t < env.Bars() && OnTime(s, t) && Kept(env, s, t, forced)
    requires env.sameBarClose ==> s.pf.pending.None?
    ensures Kept(env, Step(env, s, t), t + 1, forced)
  {
    hide PreBar, SnapshotAt, RunHook, EntryStage, PositionStage, SameBarStage, FundingStage, EquityStage, Kept, FirstDecision;
    PreBarKept(env, s, t, forced);
    var pre := PreBar(env, s, t);
    var ctx := SnapshotAt(env, pre.pf, t);
    var (mod, ds) := RunHook(env, env.strategy.onBarClose, pre.mod, ctx, t);
    var asked := pre.(mod := mod);
    KeptIgnoresModule(env, pre, mod, t + 1, forced);
    assert Unused(env, pre, t, OpenTag) && Unused(env, pre, t, CloseTag) && Unused(env, pre, t, AddTag);
    EntryKept(env, asked, t, Some(FirstDecision(ds)), ctx, forced);
    var entered := EntryStage(env, asked, t, Some(FirstDecision(ds)), ctx);
    PositionKept(env, entered, t, forced);
    var managed := PositionStage(env, entered, t);
    TailKept(env, managed, t, forced);
    assert Step(env, s, t) == EquityStage(env, FundingStage(env, SameBarStage(env, managed, t), t), t);
  }

  lemma KeptIgnoresModule(env: Env, s: SymState, mod: ModuleState, upTo: nat, forced: nat)
    requires Kept(env, s, upTo, forced)
    ensures Kept(env, s.(mod := mod), upTo, forced)
  {
  }

  lemma {:induction false} StepsKept(env: Env, s: SymState, k: nat, forced: nat)
    requires k <= env.Bars() && Quiet(s.pf) && Kept(env, s, 0, forced)
    ensures Kept(env, Steps(env, s, 0, k), k, forced)
    decreases k
  {
    hide Step, Kept;
    if k > 0 {
      StepsKept(env, s, k - 1, forced);
      StepKept(env, Steps(env, s, 0, k - 1), k - 1, forced);
    }
  }

  // ---------------------------------------------------------------- the end of the data

  /** Nothing is left open: every order is filled by exactly one fill, or expired and has none. */
  ghost predicate Settled(b: Book, sameBarClose: bool) {
    Indexed(b) && b.pending.None? && FillsMatch(b, sameBarClose) &&
    (forall i :: 0 <= i < |b.orders| ==> b.orders[i].status.FilledOrder? || b.orders[i].status.ExpiredOrder?) &&
    (forall i :: 0 <= i < |b.orders| && b.orders[i].status.ExpiredOrder? ==> !HasFill(b, b.orders[i].id))
  }

  lemma ExpiredFills(b: Book, sameBarClose: bool)
    requires Indexed(b) && Waiting(b) && FillsMatch(b, sameBarClose) && b.pending.Some?
    ensures FillsMatch(Resolved(b, ExpiredOrder), sameBarClose)
  {
  }

  lemma ExpireKeeps(b: Book, symbol: string, sameBarClose: bool, upTo: nat, forced: nat)
    requires Ledger(b, symbol, sameBarClose, upTo, forced) && b.pending.Some?
    ensures b.pending.value.id in b.index && b.index[b.pending.value.id] < |b.orders|
    ensures Ledger(Resolved(b, ExpiredOrder), symbol, sameBarClose, upTo, forced)
  {
    hide Indexed, Waiting, Owned, FillsMatch, Closes;
    WaitingIndexed(b);
    ResolvedIndexed(b, ExpiredOrder);
    ResolvedOwned(b, ExpiredOrder, symbol, upTo);
    ExpiredFills(b, sameBarClose);
    CloseFillsStable(b, Resolved(b, ExpiredOrder), |b.fills|);
  }

  lemma LedgerSettled(b: Book, symbol: string, sameBarClose: bool, upTo: nat, forced: nat)
    requires Ledger(b, symbol, sameBarClose, upTo, forced) && b.pending.None?
    ensures Settled(b, sameBarClose)
  {
  }

  /** Trades are the close and protection fills, plus the forced close when a position was still open. */
  lemma FinalizeSettles(env: Env, s: SymState, forced: nat)
    requires env.Bars() > 0 && Kept(env, s, env.Bars(), forced)
    ensures var b := BookOf(Finalize(env, s));
            Settled(b, env.sameBarClose) && Owned(b, env.symbol, env.Bars()) &&
            TradesCounted(b, forced + if s.pf.position.Some? then 1 else 0)
  {
    hide Indexed, Owned, FillsMatch, RunHook, SnapshotAt;
    var b := BookOf(s);
    var r := BookOf(Finalize(env, s));
    var c := b;
    if b.pending.Some? {
      c := Resolved(b, ExpiredOrder);
      ExpireKeeps(b, env.symbol, env.sameBarClose, env.Bars(), forced);
    }
    assert r == c.(trades := r.trades) && r.trades == c.trades + if s.pf.position.Some? then 1 else 0;
    hide Finalize, Waiting;
    SameOwned(c, r, env.symbol, env.Bars());
    LedgerSettled(c, env.symbol, env.sameBarClose, env.Bars(), forced);
    SettledIgnoresTrades(c, r, env.sameBarClose);
    CloseFillsStable(c, r, |c.fills|);
  }

  lemma SettledIgnoresTrades(b: Book, c: Book, sameBarClose: bool)
    requires Settled(b, sameBarClose) && c == b.(trades := c.trades)
    ensures Settled(c, sameBarClose)
  {
  }

  /** A settled book without orders of this symbol is where the symbol's own ledger starts. */
  lemma StartKept(env: Env, s: SymState, forced: nat)
    requires Settled(BookOf(s), env.sameBarClose) && TradesCounted(BookOf(s), forced) && s.pf.pending.None?
    requires forall i :: 0 <= i < |s.acc.orders| ==> s.acc.orders[i].id.symbol != env.symbol
    ensures Kept(env, s, 0, forced)
  {
  }

  /** What one symbol's complete run does to a settled book. */
  lemma RunSettles(env: Env, s: SymState, forced: nat)
    requires Quiet(s.pf) && Settled(BookOf(s), env.sameBarClose) && TradesCounted(BookOf(s), forced)
    requires forall i :: 0 <= i < |s.acc.orders| ==> s.acc.orders[i].id.symbol != env.symbol
    ensures var b := BookOf(Run(env, s));
            Settled(b, env.sameBarClose) && Owned(b, env.symbol, env.Bars()) &&
            (TradesCounted(b, forced) || TradesCounted(b, forced + 1))
  {
    if env.Bars() > 0 {
      hide Step, Finalize, RunHook, SnapshotAt, Kept, Settled, Owned, TradesCounted;
      StartKept(env, s, forced);
      var begun := Init(env, s);
      KeptIgnoresModule(env, s, begun.mod, 0, forced);
      StepsKept(env, begun, env.Bars(), forced);
      FinalizeSettles(env, Steps(env, begun, 0, env.Bars()), forced);
    }
  }

  /** The order book of every complete run from an empty start: ids unique and indexed, each order
      filled once and on time or expired unfilled, and trades accounted for. */
  lemma RunBooks(env: Env, s: SymState)
    requires Quiet(s.pf) && s.acc == NoRecords
    ensures var b := BookOf(Run(env, s));
            Settled(b, env.sameBarClose) && Owned(b, env.symbol, env.Bars()) &&
            (TradesCounted(b, 0) || TradesCounted(b, 1))
  {
    hide *;
    EmptyBook(s, env.sameBarClose);
    RunSettles(env, s, 0);
  }

  lemma EmptyBook(s: SymState, sameBarClose: bool)
    requires Quiet(s.pf) && s.acc == NoRecords
    ensures s.acc.orders == [] && Settled(BookOf(s), sameBarClose) && TradesCounted(BookOf(s), 0)
  {
  }

  // ---------------------------------------------------------------- looking an order up

  /** In every state of every run, finding an order through the index finds what a scan of the list finds. */
  lemma FindIsScan(env: Env, s: SymState, k: nat, id: OrderId)
    requires Quiet(s.pf) && s.acc == NoRecords && k <= env.Bars()
    ensures var acc := Steps(env, s, 0, k).acc; FindOrder(acc, id) == Scan(acc.orders, id, |acc.orders|)
  {
    hide Step, FillsMatch, Waiting, TradesCounted, Settled;
    EmptyBook(s, env.sameBarClose);
    StartKept(env, s, 0);
    StepsKept(env, s, k, 0);
    IndexIsScan(BookOf(Steps(env, s, 0, k)), id);
  }

  lemma IndexIsScan(b: Book, id: OrderId)
    requires Indexed(b)
    ensures Scan(b.orders, id, |b.orders|) == if id in b.index then Some(b.index[id]) else None
  {
    var found := Scan(b.orders, id, |b.orders|);
    assert found.Some? ==> b.index[b.orders[found.value].id] == found.value;
  }
}
