/** The Postgres job store: `transition` and the claim as single statements, and the reaper as six filtered
    updates over the whole table in a fixed order. */
module PgJobStores {
  import opened Basics
  import opened JobTable
  import opened JobStores

  // ---------------------------------------------------------------- the transition statement

  /** `WHERE run_id = $2 AND status = $3 AND ($15 IS NULL OR leased_by = $15)`. */
  predicate WhereTransition(row: Row, runId: RunId, from: Status, holder: Option<Name>) {
    row.runId == runId && row.status == from && (holder.None? || row.leasedBy == holder)
  }

  function Coalesce<T>(value: Option<T>, column: T): T {
    if value.Some? then value.value else column
  }

  function CoalesceNull<T>(value: Option<T>, column: Option<T>): Option<T> {
    if value.None? then column else value
  }

  /** The `SET` clause: the status, each column coalesced with its parameter, the timeline extended. */
  function SetTransition(row: Row, from: Status, to: Status, p: Patch): Row {
    var n := row.notes;
    row.(status := to, queuedAt := CoalesceNull(p.queuedAt, row.queuedAt), runDeadline := CoalesceNull(p.runDeadline, row.runDeadline),
         waits := Coalesce(p.waits, row.waits), computeIdentity := CoalesceNull(p.computeIdentity, row.computeIdentity),
         charged := CoalesceNull(p.charged, row.charged), attempts := Coalesce(p.attempts, row.attempts),
         notes := Notes(CoalesceNull(p.notes.startedAt, n.startedAt), CoalesceNull(p.notes.terminalAt, n.terminalAt),
                        CoalesceNull(p.notes.lastActivity, n.lastActivity), CoalesceNull(p.notes.result, n.result),
                        CoalesceNull(p.notes.datasetFingerprint, n.datasetFingerprint), CoalesceNull(p.notes.terminalCode, n.terminalCode),
                        CoalesceNull(p.notes.terminalIssues, n.terminalIssues), CoalesceNull(p.notes.dedupedFrom, n.dedupedFrom),
                        CoalesceNull(p.notes.wakeReason, n.wakeReason)),
         timeline := row.timeline + if from == to then [] else [Entry(if to == Waiting then Running else to, p.at)])
  }

  /** On a row in the expected status the statement writes what the in-memory assignments write. */
  lemma StatementApplies(row: Row, to: Status, p: Patch)
    ensures SetTransition(row, row.status, to, p) == Apply(row, to, p)
  {
    assert row.timeline + [] == row.timeline;
    assert SetTransition(row, row.status, to, p).notes == Apply(row, to, p).notes;
  }

  /** The rows an `UPDATE` of one transition hits, as it leaves them. */
  function Hits(table: Table, runId: RunId, from: Status, to: Status, p: Patch, holder: Option<Name>): (r: Table)
    ensures forall id :: id in r <==> id in table && WhereTransition(table[id], runId, from, holder)
    ensures forall id :: id in r ==> r[id] == SetTransition(table[id], from, to, p)
  {
    map id | id in table && WhereTransition(table[id], runId, from, holder) :: SetTransition(table[id], from, to, p)
  }

  lemma OneHit(table: Table, runId: RunId, from: Status, to: Status, p: Patch, holder: Option<Name>)
    requires (forall id :: id in table ==> table[id].runId == id) && CanTransition(from, to)
    ensures var hits := Hits(table, runId, from, to, p, holder);
            (|hits| == 1 <==> Admits(table, runId, from, to, holder)) && table + hits == Transition(table, runId, from, to, p, holder)
  {
    hide SetTransition, Apply, CanTransition, Hits;
    var hits := Hits(table, runId, from, to, p, holder);
    if Admits(table, runId, from, to, holder) {
      StatementApplies(table[runId], to, p);
      assert hits.Keys == {runId};
      assert table + hits == table[runId := Apply(table[runId], to, p)];
    } else {
      assert hits.Keys == {};
      assert table + hits == table;
    }
  }

  // ---------------------------------------------------------------- the claim statement

  /** The `SET` clause of the claim. */
  function SetClaim(row: Row, now: int, lease: Option<Lease>, coalesce: bool): Row {
    row.(status := Running, runDeadline := Some(now + row.runTimeout),
         leasedBy := if lease.None? then None else Some(lease.value.worker),
         leaseExpiresAt := if lease.None? then None else Some(now + lease.value.ttl),
         attempts := if lease.None? || coalesce then row.attempts else row.attempts + 1,
         notes := row.notes.(startedAt := Some(now), lastActivity := Some(now)),
         timeline := row.timeline + [Entry(Running, now)])
  }

  /** The statement leaves the row of a claim that clears the lease columns. */
  lemma StatementClaims(row: Row, now: int, lease: Option<Lease>, coalesce: bool)
    requires row.status == Queued
    ensures SetClaim(row, now, lease, coalesce) == ClaimRow(row, now, lease, coalesce, true)
  {
  }

  /** It is the row the in-memory store leaves exactly when a lease is taken or there was none to clear. */
  lemma ClaimsAgree(row: Row, now: int, lease: Option<Lease>, coalesce: bool)
    requires row.status == Queued
    ensures SetClaim(row, now, lease, coalesce) == ClaimRow(row, now, lease, coalesce, false) <==>
            lease.Some? || (row.leasedBy.None? && row.leaseExpiresAt.None?)
  {
    StatementClaims(row, now, lease, coalesce);
    if lease.None? {
      var kept := ClaimRow(row, now, lease, coalesce, false);
      assert kept.leasedBy == row.leasedBy && kept.leaseExpiresAt == row.leaseExpiresAt;
      assert ClaimRow(row, now, lease, coalesce, true) == kept.(leasedBy := None, leaseExpiresAt := None);
    }
  }

  /** The text order of the database: any strict total order. */
  ghost predicate Collation(less: (string, string) -> bool) {
    (forall a, b, c :: less(a, b) && less(b, c) ==> less(a, c)) && (forall a :: !less(a, a)) && forall a, b :: a == b || less(a, b) || less(b, a)
  }

  predicate SortsBefore(less: (string, string) -> bool, a: Row, b: Row) {
    QueueTime(a) < QueueTime(b) || (QueueTime(a) == QueueTime(b) && less(a.runId.text, b.runId.text))
  }

  /** `ORDER BY COALESCE(queued_at_ms, accepted_at_ms), run_id FOR UPDATE SKIP LOCKED LIMIT 1`. */
  ghost predicate Selected(table: Table, locked: set<RunId>, less: (string, string) -> bool, id: RunId) {
    id in table && table[id].status == Queued && id !in locked &&
    forall other :: other in table && table[other].status == Queued && other !in locked ==> !SortsBefore(less, table[other], table[id])
  }

  /** Queued (or, never queued again, accepted) no later, and not sorted behind a row of the same time. */
  predicate QueuedNoLater(less: (string, string) -> bool, a: Row, b: Row) {
    var behind := less(b.runId.text, a.runId.text);
    match (a.queuedAt, b.queuedAt)
    case (Some(x), Some(y)) => x < y || (x == y && !behind)
    case (Some(x), None) => x < b.acceptedAt || (x == b.acceptedAt && !behind)
    case (None, Some(y)) => a.acceptedAt < y || (a.acceptedAt == y && !behind)
    case (None, None) => a.acceptedAt < b.acceptedAt || (a.acceptedAt == b.acceptedAt && !behind)
  }

  /** The statement selects an unlocked queued row exactly when, by its columns, no unlocked queued row comes before it. */
  lemma SelectedByColumns(table: Table, locked: set<RunId>, less: (string, string) -> bool, id: RunId)
    ensures Selected(table, locked, less, id) <==>
            id in table && table[id].status == Queued && id !in locked &&
            forall other :: other in table && table[other].status == Queued && other !in locked ==> QueuedNoLater(less, table[id], table[other])
  {
  }

  /** Without locks the statement selects the in-memory head, provided the database orders the run ids of
      equally old jobs as code units do. */
  lemma SameHead(table: Table, less: (string, string) -> bool, a: RunId, b: RunId)
    requires Collation(less) && forall id :: id in table ==> table[id].runId == id
    requires Selected(table, {}, less, a) && HeadOf(table, b)
    requires QueueTime(table[a]) == QueueTime(table[b]) ==> (less(a.text, b.text) <==> TextLess(a.text, b.text))
    ensures a == b
  {
    TextTotal(a.text, b.text);
    TextOrder(a.text, b.text, a.text);
  }

  // ---------------------------------------------------------------- the reaper

  datatype Statement = ExpireStale | PoisonWaiting | RequeueWaiting | PoisonLapsed | RequeueLapsed | TimeOutStale

  predicate LeaseLapsed(row: Row, now: int) {
    row.status == Running && Past(row.leaseExpiresAt, now)
  }

  /** The `WHERE` clause of each statement; the two compute-wait statements run only under coalescing. */
  predicate Where(st: Statement, row: Row, now: int, o: ReapOpts) {
    match st
    case ExpireStale => row.status in {Queued, Accepted} && Past(row.queueDeadline, now)
    case PoisonWaiting => o.coalesce && LeaseLapsed(row, now) && row.charged == Some(false) && row.waits >= o.waitCap
    case RequeueWaiting => o.coalesce && LeaseLapsed(row, now) && row.charged == Some(false) && row.waits < o.waitCap
    case PoisonLapsed => LeaseLapsed(row, now) && row.attempts >= o.maxAttempts && (o.coalesce ==> row.charged != Some(false))
    case RequeueLapsed => LeaseLapsed(row, now) && row.attempts < o.maxAttempts && (o.coalesce ==> row.charged != Some(false))
    case TimeOutStale => row.status in {Running, Waiting} && Past(row.runDeadline, now)
  }

  /** The `SET` clause of each statement. */
  function Set(st: Statement, row: Row, now: int, o: ReapOpts): Row {
    match st
    case ExpireStale => Closed(row, Expired, now, QueueDeadlineExceeded)
    case PoisonWaiting => Closed(row, Failed, now, ComputeWaitExhausted)
    case RequeueWaiting => Requeued(row, now).(waits := row.waits + 1)
    case PoisonLapsed => Closed(row, Failed, now, LeaseExpired)
    case RequeueLapsed => if o.coalesce then Requeued(row, now).(charged := Some(false)) else Requeued(row, now)
    case TimeOutStale => Closed(row, TimedOut, now, RunDeadlineExceeded)
  }

  /** A row after one statement has passed over it. */
  function Pass(st: Statement, row: Row, now: int, o: ReapOpts): Row {
    if Where(st, row, now, o) then Set(st, row, now, o) else row
  }

  function Update(table: Table, st: Statement, now: int, o: ReapOpts): (r: Table)
    ensures r.Keys == table.Keys
    ensures forall id :: id in table ==> r[id] == Pass(st, table[id], now, o)
  {
    map id | id in table :: Pass(st, table[id], now, o)
  }

  /** The rows `UPDATE ... RETURNING *` answers with. */
  function Returning(table: Table, st: Statement, now: int, o: ReapOpts): (r: Table)
    ensures forall id :: id in r <==> id in table && Where(st, table[id], now, o)
    ensures forall id :: id in r ==> r[id] == Set(st, table[id], now, o)
  {
    map id | id in table && Where(st, table[id], now, o) :: Set(st, table[id], now, o)
  }

  function After1(row: Row, now: int, o: ReapOpts): Row { Pass(ExpireStale, row, now, o) }
  function After3(row: Row, now: int, o: ReapOpts): Row {
    Pass(RequeueWaiting, Pass(PoisonWaiting, After1(row, now, o), now, o), now, o)
  }
  function After5(row: Row, now: int, o: ReapOpts): Row {
    Pass(RequeueLapsed, Pass(PoisonLapsed, After3(row, now, o), now, o), now, o)
  }

  /** The six passes add up to the single verdict on the row. */
  lemma PassesAddUp(row: Row, now: int, o: ReapOpts)
    ensures Pass(TimeOutStale, After5(row, now, o), now, o) == ReapRow(row, now, o)
  {
  }

  /** Exactly one of the four returning statements answers with an ended row, in its final form. */
  lemma ReturnedOnce(row: Row, now: int, o: ReapOpts)
    ensures var r1, r3, r5 := After1(row, now, o), After3(row, now, o), After5(row, now, o);
            var byExpire, byWait, byLapse, byTime :=
              Where(ExpireStale, row, now, o), Where(PoisonWaiting, r1, now, o), Where(PoisonLapsed, r3, now, o), Where(TimeOutStale, r5, now, o);
            (Reaps(row, now, o) <==> byExpire || byWait || byLapse || byTime) &&
            !(byExpire && byWait) && !(byExpire && byLapse) && !(byExpire && byTime) && !(byWait && byLapse) && !(byWait && byTime) && !(byLapse && byTime) &&
            (byExpire ==> Set(ExpireStale, row, now, o) == ReapRow(row, now, o)) &&
            (byWait ==> Set(PoisonWaiting, r1, now, o) == ReapRow(row, now, o)) &&
            (byLapse ==> Set(PoisonLapsed, r3, now, o) == ReapRow(row, now, o)) &&
            (byTime ==> Set(TimeOutStale, r5, now, o) == ReapRow(row, now, o))
  {
  }

  /** The two compute-wait statements, which are issued only under coalescing. */
  function WaitingPasses(table: Table, now: int, o: ReapOpts): (r: Table)
    ensures r.Keys == table.Keys
  {
    if o.coalesce then Update(Update(table, PoisonWaiting, now, o), RequeueWaiting, now, o) else table
  }

  function WaitingReturned(table: Table, now: int, o: ReapOpts): (r: Table)
  {
    if o.coalesce then Returning(table, PoisonWaiting, now, o) else map[]
  }

  /** Skipping the two statements is the same as issuing them: their guard mentions the flag. */
  lemma WaitingRow(table: Table, now: int, o: ReapOpts, id: RunId)
    requires id in table
    ensures WaitingPasses(table, now, o)[id] == Pass(RequeueWaiting, Pass(PoisonWaiting, table[id], now, o), now, o)
    ensures id in WaitingReturned(table, now, o) <==> Where(PoisonWaiting, table[id], now, o)
    ensures id in WaitingReturned(table, now, o) ==> WaitingReturned(table, now, o)[id] == Set(PoisonWaiting, table[id], now, o)
  {
  }

  lemma WaitingReturnedWithin(table: Table, now: int, o: ReapOpts)
    ensures WaitingReturned(table, now, o).Keys <= table.Keys
  {
  }

  function LapsedPasses(table: Table, now: int, o: ReapOpts): (r: Table)
    ensures r.Keys == table.Keys
  {
    Update(Update(table, PoisonLapsed, now, o), RequeueLapsed, now, o)
  }

  lemma StageRows(t0: Table, now: int, o: ReapOpts, id: RunId)
    requires id in t0
    ensures var t1 := Update(t0, ExpireStale, now, o);
            var t3 := WaitingPasses(t1, now, o);
            var t5 := LapsedPasses(t3, now, o);
            t1[id] == After1(t0[id], now, o) && t3[id] == After3(t0[id], now, o) && t5[id] == After5(t0[id], now, o)
  {
  }

  /** What the statements leave of one row, and which of them answers with it. */
  lemma OneRow(t0: Table, now: int, o: ReapOpts, id: RunId)
    requires id in t0
    ensures var t1 := Update(t0, ExpireStale, now, o);
            var t3 := WaitingPasses(t1, now, o);
            var t5 := LapsedPasses(t3, now, o);
            var last := Update(t5, TimeOutStale, now, o);
            var returned := Returning(t0, ExpireStale, now, o) + WaitingReturned(t1, now, o) +
                            Returning(t3, PoisonLapsed, now, o) + Returning(t5, TimeOutStale, now, o);
            last[id] == ReapRow(t0[id], now, o) && (id in returned <==> Reaps(t0[id], now, o)) &&
            (id in returned ==> returned[id] == last[id])
  {
    hide Where, Set, ReapRow, Reaps, After1, After3, After5, WaitingPasses, WaitingReturned, LapsedPasses, Update, Returning;
    var t1 := Update(t0, ExpireStale, now, o);
    var t3 := WaitingPasses(t1, now, o);
    var t5 := LapsedPasses(t3, now, o);
    StageRows(t0, now, o, id);
    WaitingRow(t1, now, o, id);
    PassesAddUp(t0[id], now, o);
    ReturnedOnce(t0[id], now, o);
    var a, b := Returning(t0, ExpireStale, now, o), WaitingReturned(t1, now, o);
    var c, d := Returning(t3, PoisonLapsed, now, o), Returning(t5, TimeOutStale, now, o);
    var returned := a + b + c + d;
    assert id in returned <==> id in a || id in b || id in c || id in d;
    assert Update(t5, TimeOutStale, now, o)[id] == ReapRow(t0[id], now, o);
    assert id in returned <==> Reaps(t0[id], now, o);
    assert id in returned ==> returned[id] == ReapRow(t0[id], now, o);
  }

  class PgJobStore {
    var table: Table

    constructor (table: Table)
      ensures this.table == table
    {
      this.table := table;
    }

    /** `transition`: one row or none, changed as the in-memory store changes it. */
    method TransitionTo(runId: RunId, from: Status, to: Status, p: Patch, holder: Option<Name>) returns (ok: bool)
      requires forall id :: id in table ==> table[id].runId == id
      modifies this
      ensures ok == Admits(old(table), runId, from, to, holder)
      ensures table == Transition(old(table), runId, from, to, p, holder)
    {
      hide SetTransition, Apply, Hits;
      if !CanTransition(from, to) { return false; }
      OneHit(table, runId, from, to, p, holder);
      var hits := Hits(table, runId, from, to, p, holder);
      table := table + hits;
      ok := |hits| == 1;
    }

    /** `claimNextQueued`, given the row its sub-select picked among those not locked by others. */
    method ClaimNextQueued(next: Option<RunId>, ghost locked: set<RunId>, ghost less: (string, string) -> bool, now: int, lease: Option<Lease>,
                           coalesce: bool) returns (claimed: Option<Row>)
      requires next.Some? ==> Selected(table, locked, less, next.value)
      modifies this
      ensures claimed.Some? <==> next.Some?
      ensures next.None? ==> table == old(table)
      ensures next.Some? ==>
                claimed == Some(ClaimRow(old(table)[next.value], now, lease, coalesce, true)) && table == old(table)[next.value := claimed.value]
    {
      if next.None? { return None; }
      StatementClaims(table[next.value], now, lease, coalesce);
      hide SetClaim, ClaimRow, Selected;
      claimed := Some(SetClaim(table[next.value], now, lease, coalesce));
      table := table[next.value := claimed.value];
    }

    /** `reapDeadlines`: the table ends up as the row-by-row reap leaves it, and the rows returned are
        exactly the rows ended, each by one statement only and in its final form. */
    method ReapDeadlines(now: int, o: ReapOpts) returns (returned: Table)
      modifies this
      ensures table == Reap(old(table), now, o)
      ensures returned.Keys == EndedIds(old(table), now, o)
      ensures forall id :: id in returned ==> returned[id] == table[id]
    {
      hide Where, Set, ReapRow, Reaps, Update, Returning, Pass;
      ghost var t0 := table;
      var expired := Returning(table, ExpireStale, now, o);
      table := Update(table, ExpireStale, now, o);
      ghost var t1 := table;
      var waitPoisoned: Table := map[];
      if o.coalesce {
        waitPoisoned := Returning(table, PoisonWaiting, now, o);
        table := Update(table, PoisonWaiting, now, o);
        table := Update(table, RequeueWaiting, now, o);
      }
      ghost var t3 := table;
      assert t3 == WaitingPasses(t1, now, o) && waitPoisoned == WaitingReturned(t1, now, o);
      var poisoned := Returning(table, PoisonLapsed, now, o);
      table := Update(table, PoisonLapsed, now, o);
      table := Update(table, RequeueLapsed, now, o);
      ghost var t5 := table;
      assert t5 == LapsedPasses(t3, now, o);
      var timedOut := Returning(table, TimeOutStale, now, o);
      table := Update(table, TimeOutStale, now, o);
      returned := expired + waitPoisoned + poisoned + timedOut;
      Summed(t0, returned, table, now, o);
    }
  }

  /** The same over the whole table. */
  lemma Summed(t0: Table, returned: Table, last: Table, now: int, o: ReapOpts)
    requires var t1 := Update(t0, ExpireStale, now, o);
             var t3 := WaitingPasses(t1, now, o);
             var t5 := LapsedPasses(t3, now, o);
             last == Update(t5, TimeOutStale, now, o) &&
             returned == Returning(t0, ExpireStale, now, o) + WaitingReturned(t1, now, o) +
                         Returning(t3, PoisonLapsed, now, o) + Returning(t5, TimeOutStale, now, o)
    ensures last == Reap(t0, now, o)
    ensures returned.Keys == EndedIds(t0, now, o)
    ensures forall id :: id in returned ==> id in last && returned[id] == last[id]
  {
    hide Where, Set, ReapRow, Reaps, WaitingPasses, WaitingReturned, LapsedPasses, Update, Returning, Pass, Reap;
    var t1 := Update(t0, ExpireStale, now, o);
    WaitingReturnedWithin(t1, now, o);
    assert returned.Keys <= t0.Keys;
    assert last.Keys == t0.Keys;
    forall id | id in t0
      ensures last[id] == ReapRow(t0[id], now, o) && (id in returned <==> Reaps(t0[id], now, o))
      ensures id in returned ==> returned[id] == last[id]
    {
      OneRow(t0, now, o, id);
    }
    assert last == Reap(t0, now, o);
    assert returned.Keys == EndedIds(t0, now, o);
  }

  /** Started on the same jobs, the two stores end with the same jobs and report the same rows. */
  method ReapBoth(mem: InMemoryJobStore, pg: PgJobStore, now: int, o: ReapOpts) returns (fromMem: seq<Row>, fromPg: Table)
    requires mem.Valid() && mem.Jobs() == pg.table
    modifies mem, pg
    ensures mem.Valid() && mem.Jobs() == pg.table
    ensures forall i :: 0 <= i < |fromMem| ==> fromMem[i].runId in fromPg && fromPg[fromMem[i].runId] == fromMem[i]
    ensures forall id :: id in fromPg ==> Listed(fromMem, id)
    ensures forall i, j :: 0 <= i < j < |fromMem| ==> fromMem[i].runId != fromMem[j].runId
  {
    hide Reap, Reaps, ReapRow, Indexed;
    fromMem := mem.ReapDeadlines(now, o);
    fromPg := pg.ReapDeadlines(now, o);
  }
}
