/** The in-memory job store in its own form: rows updated one by one, in insertion order. */
module JobStores {
  import opened Basics
  import opened JobTable
  import opened JobLaws

  /** The rows of the table that a reap ends. */
  ghost function EndedIds(table: Table, now: int, o: ReapOpts): set<RunId> {
    set id | id in table && Reaps(table[id], now, o)
  }

  /** A job is keyed by its resume token, or by its run id when it has none; the two share one space. */
  datatype Key = Key(text: string)

  function KeyOf(job: NewJob): Key {
    Key(if job.resumeToken.Some? then job.resumeToken.value else job.runId.text)
  }

  // ---------------------------------------------------------------- an insertion-ordered map of rows

  /** `slot` gives each run id its place in `rows`, and every row is under its own id. */
  ghost predicate Indexed(rows: seq<Row>, slot: map<RunId, nat>) {
    (forall k :: 0 <= k < |rows| ==> rows[k].runId in slot && slot[rows[k].runId] == k) &&
    (forall id :: id in slot ==> slot[id] < |rows| && rows[slot[id]].runId == id)
  }

  ghost function TableOf(rows: seq<Row>, slot: map<RunId, nat>): (r: Table)
    requires Indexed(rows, slot)
    ensures r.Keys == slot.Keys && forall id :: id in slot ==> r[id] == rows[slot[id]]
  {
    map id | id in slot :: rows[slot[id]]
  }

  lemma SetRow(rows: seq<Row>, slot: map<RunId, nat>, k: nat, row: Row)
    requires Indexed(rows, slot) && k < |rows| && row.runId == rows[k].runId
    ensures Indexed(rows[k := row], slot)
    ensures TableOf(rows[k := row], slot) == TableOf(rows, slot)[row.runId := row]
  {
  }

  lemma AddRow(rows: seq<Row>, slot: map<RunId, nat>, row: Row)
    requires Indexed(rows, slot) && row.runId !in slot
    ensures Indexed(rows + [row], slot[row.runId := |rows|])
    ensures TableOf(rows + [row], slot[row.runId := |rows|]) == TableOf(rows, slot)[row.runId := row]
  {
  }

  /** Rows changed place by place give the table changed row by row. */
  lemma EveryRow(rows: seq<Row>, slot: map<RunId, nat>, rows': seq<Row>, f: Row -> Row)
    requires Indexed(rows, slot) && |rows'| == |rows|
    requires forall k :: 0 <= k < |rows| ==> rows'[k] == f(rows[k]) && rows'[k].runId == rows[k].runId
    ensures Indexed(rows', slot)
    ensures forall id :: id in slot ==> TableOf(rows', slot)[id] == f(TableOf(rows, slot)[id])
  {
  }

  predicate RowAdmits(row: Row, from: Status, to: Status, expectLeasedBy: Option<Name>) {
    row.status == from && CanTransition(from, to) && (expectLeasedBy.None? || row.leasedBy == expectLeasedBy)
  }

  lemma AdmitsAtSlot(rows: seq<Row>, slot: map<RunId, nat>, runId: RunId, from: Status, to: Status, expectLeasedBy: Option<Name>)
    requires Indexed(rows, slot)
    ensures runId in slot ==> slot[runId] < |rows| && rows[slot[runId]].runId == runId && TableOf(rows, slot)[runId] == rows[slot[runId]]
    ensures Admits(TableOf(rows, slot), runId, from, to, expectLeasedBy) <==>
            runId in slot && RowAdmits(rows[slot[runId]], from, to, expectLeasedBy)
  {
  }

  class InMemoryJobStore {
    var rows: seq<Row>
    var slot: map<RunId, nat>
    var byKey: map<Key, RunId>

    ghost predicate Valid() reads this {
      Indexed(rows, slot) && forall key :: key in byKey ==> byKey[key] in slot
    }

    ghost function Jobs(): Table
      requires Valid()
      reads this
    {
      TableOf(rows, slot)
    }

    constructor ()
      ensures Valid() && Jobs() == map[] && byKey == map[]
    {
      rows, slot, byKey := [], map[], map[];
    }

    /** A known key re-attaches to its job and changes nothing; otherwise a row starts accepted. */
    method InsertOrGet(job: NewJob) returns (row: Row, created: bool)
      requires Valid()
      modifies this
      ensures Valid()
      ensures created == !(KeyOf(job) in old(byKey) && old(byKey)[KeyOf(job)] != RunId(""))
      ensures !created ==> Jobs() == old(Jobs()) && byKey == old(byKey) && row == Jobs()[byKey[KeyOf(job)]]
      ensures created ==> row == FreshRow(job) && Jobs() == old(Jobs())[job.runId := row] &&
                          byKey == old(byKey)[KeyOf(job) := job.runId]
    {
      var key := KeyOf(job);
      if key in byKey && byKey[key] != RunId("") && byKey[key] in slot {
        return rows[slot[byKey[key]]], false;
      }
      row, created := FreshRow(job), true;
      if job.runId in slot {
        SetRow(rows, slot, slot[job.runId], row);
        rows := rows[slot[job.runId] := row];
      } else {
        AddRow(rows, slot, row);
        rows, slot := rows + [row], slot[job.runId := |rows|];
      }
      hide Indexed;
      byKey := byKey[key := job.runId];
    }

    method TransitionTo(runId: RunId, from: Status, to: Status, p: Patch, expectLeasedBy: Option<Name>) returns (ok: bool)
      requires Valid()
      modifies this`rows
      ensures Valid()
      ensures ok == Admits(old(Jobs()), runId, from, to, expectLeasedBy)
      ensures Jobs() == Transition(old(Jobs()), runId, from, to, p, expectLeasedBy)
    {
      hide CanTransition, Apply, Indexed;
      AdmitsAtSlot(rows, slot, runId, from, to, expectLeasedBy);
      ok := false;
      if runId in slot && RowAdmits(rows[slot[runId]], from, to, expectLeasedBy) {
        ApplyKeepsId(rows[slot[runId]], to, p);
        PutRow(slot[runId], Apply(rows[slot[runId]], to, p));
        ok := true;
      }
      assert Jobs() == Transition(old(Jobs()), runId, from, to, p, expectLeasedBy);
    }

    method PutRow(k: nat, row: Row)
      requires Valid() && k < |rows| && row.runId == rows[k].runId
      modifies this`rows
      ensures Valid() && rows == old(rows)[k := row] && Jobs() == old(Jobs())[row.runId := row]
    {
      SetRow(rows, slot, k, row);
      rows := rows[k := row];
    }

    /** First in the queue: the earliest queue time, ties broken by run id. */
    method FindHead() returns (best: Option<nat>)
      requires Valid()
      ensures best.None? ==> forall id :: id in Jobs() ==> Jobs()[id].status != Queued
      ensures best.Some? ==> best.value < |rows| && HeadOf(Jobs(), rows[best.value].runId)
    {
      hide Before;
      best := None;
      var i := 0;
      while i < |rows|
        invariant 0 <= i <= |rows|
        invariant best.Some? ==> best.value < |rows| && rows[best.value].status == Queued
        invariant best.None? ==> forall k :: 0 <= k < i ==> rows[k].status != Queued
        invariant best.Some? ==> forall k :: 0 <= k < i && rows[k].status == Queued ==> !Before(rows[k], rows[best.value])
      {
        if rows[i].status == Queued && (best.None? || Before(rows[i], rows[best.value])) {
          forall k | 0 <= k <= i && rows[k].status == Queued ensures !Before(rows[k], rows[i]) {
            BeforeOrder(rows[k], rows[i], if best.Some? then rows[best.value] else rows[i]);
          }
          best := Some(i);
        }
        i := i + 1;
      }
      if best.Some? {
        assert Jobs()[rows[best.value].runId] == rows[best.value];
      }
    }

    method ClaimNextQueued(now: int, lease: Option<Lease>, coalesce: bool) returns (claimed: Option<Row>)
      requires Valid()
      modifies this`rows
      ensures Valid()
      ensures claimed.None? ==> Jobs() == old(Jobs()) && forall id :: id in Jobs() ==> Jobs()[id].status != Queued
      ensures claimed.Some? ==>
                var id := claimed.value.runId;
                HeadOf(old(Jobs()), id) && claimed.value == ClaimRow(old(Jobs())[id], now, lease, coalesce, false) &&
                Jobs() == old(Jobs())[id := claimed.value]
      ensures claimed.Some? ==>
                var id := claimed.value.runId;
                forall other :: other in old(Jobs()) && old(Jobs())[other].status == Queued ==> NoLater(old(Jobs())[id], old(Jobs())[other])
    {
      var best := FindHead();
      if best.None? { return None; }
      var k := best.value;
      forall other | other in Jobs() && Jobs()[other].status == Queued ensures NoLater(Jobs()[rows[k].runId], Jobs()[other]) {
        HeadByColumns(Jobs(), rows[k].runId, other);
      }
      var before := rows[k];
      assert Jobs()[before.runId] == before;
      var row := Apply(before, Running, StartPatch(before, now));
      if lease.Some? {
        row := row.(leasedBy := Some(lease.value.worker), leaseExpiresAt := Some(now + lease.value.ttl));
        if !coalesce {
          row := row.(attempts := row.attempts + 1);
        }
      }
      assert row == ClaimRow(before, now, lease, coalesce, false) && row.runId == before.runId;
      hide Indexed, ClaimRow, HeadOf, NoLater;
      PutRow(k, row);
      claimed := Some(row);
    }

    method RenewLease(worker: Name, until: int)
      requires Valid()
      modifies this`rows
      ensures Valid() && Jobs() == Renew(old(Jobs()), worker, until)
    {
      var i := 0;
      while i < |rows|
        invariant 0 <= i <= |rows| == |old(rows)|
        invariant forall k :: 0 <= k < |rows| ==> rows[k] == if k < i then RenewRow(old(rows)[k], worker, until) else old(rows)[k]
      {
        if rows[i].status == Running && rows[i].leasedBy == Some(worker) {
          rows := rows[i := rows[i].(leaseExpiresAt := Some(until))];
        }
        i := i + 1;
      }
      forall k | 0 <= k < |rows| ensures rows[k].runId == old(rows)[k].runId { RenewKeepsId(old(rows)[k], worker, until); }
      hide RenewRow;
      EveryRow(old(rows), slot, rows, r => RenewRow(r, worker, until));
    }

    /** A live row past its deadline becomes terminal under the given code. */
    method CloseRow(k: nat, to: Status, now: int, code: Code) returns (ok: bool)
      requires Valid() && k < |rows| && CanTransition(rows[k].status, to) && IsTerminal(to)
      modifies this`rows
      ensures Valid() && ok && rows == old(rows)[k := Closed(old(rows)[k], to, now, code)]
    {
      ClosedByTransition(rows[k], to, now, code);
      PutRow(k, Apply(rows[k], to, ClosePatch(now, code)));
      ok := true;
    }

    /** A running row whose lease lapsed goes back to the queue without it. */
    method RequeueRow(k: nat, now: int, waits: Option<int>, resetCharge: bool)
      requires Valid() && k < |rows| && rows[k].status == Running
      modifies this`rows
      ensures Valid()
      ensures var row := Requeued(old(rows)[k], now);
              var counted := if waits.Some? then row.(waits := waits.value) else row;
              rows == old(rows)[k := if resetCharge then counted.(charged := Some(false)) else counted]
    {
      var row := Apply(rows[k], Queued, NoChange(now).(queuedAt := Some(now), waits := waits));
      row := row.(leasedBy := None, leaseExpiresAt := None);
      if resetCharge {
        row := row.(charged := Some(false));
      }
      PutRow(k, row);
    }

    /** The decision tree for one row. */
    method ReapOne(k: nat, now: int, o: ReapOpts) returns (ended: bool)
      requires Valid() && k < |rows|
      modifies this`rows
      ensures Valid()
      ensures rows == old(rows)[k := ReapRow(old(rows)[k], now, o)]
      ensures ended == Reaps(old(rows)[k], now, o)
    {
      hide Closed, Requeued, Indexed;
      ended := false;
      var job := rows[k];
      assert rows == rows[k := job];
      if IsTerminal(job.status) { return; }
      if (job.status == Queued || job.status == Accepted) && Past(job.queueDeadline, now) {
        ended := CloseRow(k, Expired, now, QueueDeadlineExceeded);
      } else if job.status == Running {
        var leaseStale := Past(job.leaseExpiresAt, now);
        var runStale := Past(job.runDeadline, now);
        if o.coalesce && leaseStale && job.charged == Some(false) {
          if job.waits >= o.waitCap {
            ended := CloseRow(k, Failed, now, ComputeWaitExhausted);
          } else {
            RequeueRow(k, now, Some(job.waits + 1), false);
          }
        } else if leaseStale && job.attempts >= o.maxAttempts {
          ended := CloseRow(k, Failed, now, LeaseExpired);
        } else if leaseStale {
          RequeueRow(k, now, None, o.coalesce);
        } else if runStale {
          ended := CloseRow(k, TimedOut, now, RunDeadlineExceeded);
        }
      } else if job.status == Waiting && Past(job.runDeadline, now) {
        ended := CloseRow(k, TimedOut, now, RunDeadlineExceeded);
      }
    }

    /** The whole reap: every row as its verdict says; the ended rows are returned, once each and in
        their final form. */
    method ReapDeadlines(now: int, o: ReapOpts) returns (reaped: seq<Row>)
      requires Valid()
      modifies this`rows
      ensures Valid() && Jobs() == Reap(old(Jobs()), now, o)
      ensures forall i, j :: 0 <= i < j < |reaped| ==> reaped[i].runId != reaped[j].runId
      ensures forall i :: 0 <= i < |reaped| ==> reaped[i].runId in EndedIds(old(Jobs()), now, o) && reaped[i] == Jobs()[reaped[i].runId]
      ensures forall id :: id in EndedIds(old(Jobs()), now, o) ==> Listed(reaped, id)
    {
      hide ReapRow, Reaps, Indexed;
      reaped := [];
      var i := 0;
      while i < |rows|
        invariant 0 <= i <= |rows| == |old(rows)| && Valid()
        invariant forall k :: 0 <= k < |rows| ==> rows[k] == if k < i then ReapRow(old(rows)[k], now, o) else old(rows)[k]
        invariant reaped == EndedAmong(old(rows), i, now, o)
      {
        var ended := ReapOne(i, now, o);
        if ended {
          reaped := reaped + [rows[i]];
        }
        i := i + 1;
      }
      Collected(old(rows), slot, rows, now, o);
    }

    method WakeRow(k: nat, identity: Name, reason: Name, now: int)
      requires Valid() && k < |rows| && Waits(rows[k], identity)
      modifies this`rows
      ensures Valid() && rows == old(rows)[k := Woken(old(rows)[k], reason, now)]
      ensures Jobs() == old(Jobs())[old(rows)[k].runId := Woken(old(rows)[k], reason, now)]
      ensures rows[k].runId == old(rows)[k].runId
    {
      PutRow(k, Apply(rows[k], Queued, WakePatch(reason, now)));
    }

    method ReleaseOne(k: nat, identity: Name, reason: Name, now: int) returns (woken: bool)
      requires Valid() && k < |rows|
      modifies this`rows
      ensures Valid() && rows == old(rows)[k := ReleaseRow(old(rows)[k], identity, reason, now)]
      ensures woken == Waits(old(rows)[k], identity) && rows[k].runId == old(rows)[k].runId
    {
      woken := Waits(rows[k], identity);
      if woken {
        WakeRow(k, identity, reason, now);
      }
    }

    method ReleaseAllComputeWaiters(identity: Name, reason: Name, now: int) returns (released: nat)
      requires Valid()
      modifies this`rows
      ensures Valid() && Jobs() == Release(old(Jobs()), identity, reason, now)
      ensures released == WaitersAmong(old(rows), |old(rows)|, identity)
    {
      hide ReleaseRow, Indexed, Waits, Release, TableOf;
      released := 0;
      var i := 0;
      while i < |rows|
        invariant 0 <= i <= |rows| == |old(rows)| && Valid()
        invariant forall k :: 0 <= k < |rows| ==> rows[k].runId == old(rows)[k].runId
        invariant forall k :: 0 <= k < |rows| ==> rows[k] == if k < i then ReleaseRow(old(rows)[k], identity, reason, now) else old(rows)[k]
        invariant released == WaitersAmong(old(rows), i, identity)
      {
        var woken := ReleaseOne(i, identity, reason, now);
        if woken {
          released := released + 1;
        }
        i := i + 1;
      }
      AllReleased(old(rows), slot, rows, identity, reason, now);
    }

    /** The waiter of this identity with the earliest queue time, if there is any, becomes queued. */
    method ElectOneComputeWaiter(identity: Name, reason: Name, now: int) returns (elected: Option<Row>)
      requires Valid()
      modifies this`rows
      ensures Valid()
      ensures elected.None? ==> Jobs() == old(Jobs()) && forall id :: id in Jobs() ==> !Waits(Jobs()[id], identity)
      ensures elected.Some? ==>
                var id := elected.value.runId;
                FirstWaiter(old(Jobs()), identity, id) &&
                elected.value == Woken(old(Jobs())[id], reason, now) && Jobs() == old(Jobs())[id := elected.value]
      ensures elected.Some? ==>
                var id := elected.value.runId;
                forall other :: other in old(Jobs()) && Waits(old(Jobs())[other], identity) ==> NoLater(old(Jobs())[id], old(Jobs())[other])
    {
      hide Before, Waits;
      var best: Option<nat> := None;
      var i := 0;
      while i < |rows|
        invariant 0 <= i <= |rows|
        invariant best.Some? ==> best.value < |rows| && Waits(rows[best.value], identity)
        invariant best.None? ==> forall k :: 0 <= k < i ==> !Waits(rows[k], identity)
        invariant best.Some? ==> forall k :: 0 <= k < i && Waits(rows[k], identity) ==> !Before(rows[k], rows[best.value])
      {
        if Waits(rows[i], identity) && (best.None? || Before(rows[i], rows[best.value])) {
          forall k | 0 <= k <= i && Waits(rows[k], identity) ensures !Before(rows[k], rows[i]) {
            BeforeOrder(rows[k], rows[i], if best.Some? then rows[best.value] else rows[i]);
          }
          best := Some(i);
        }
        i := i + 1;
      }
      if best.None? { return None; }
      var row := rows[best.value];
      assert Jobs()[row.runId] == row;
      forall k | 0 <= k < |rows| && Waits(rows[k], identity) ensures QueueTime(row) <= QueueTime(rows[k]) {
        NotBefore(rows[k], row);
      }
      assert FirstWaiter(Jobs(), identity, row.runId);
      forall other | other in Jobs() && Waits(Jobs()[other], identity) ensures NoLater(Jobs()[row.runId], Jobs()[other]) {
        NotBeforeByColumns(Jobs()[other], row);
      }
      WakeRow(best.value, identity, reason, now);
      hide Woken, FirstWaiter, Indexed, NoLater;
      elected := Some(rows[best.value]);
    }

    method PoisonComputeWaiter(runId: RunId, now: int) returns (row: Option<Row>)
      requires Valid()
      modifies this`rows
      ensures Valid()
      ensures row.Some? <==> Admits(old(Jobs()), runId, Waiting, Failed, None)
      ensures row.Some? ==> row.value == Closed(old(Jobs())[runId], Failed, now, ComputeWaitExhausted) && Jobs() == old(Jobs())[runId := row.value]
      ensures row.None? ==> Jobs() == old(Jobs())
    {
      if runId in slot && rows[slot[runId]].status == Waiting {
        ClosedByTransition(rows[slot[runId]], Failed, now, ComputeWaitExhausted);
      }
      var ok := TransitionTo(runId, Waiting, Failed, ClosePatch(now, ComputeWaitExhausted), None);
      hide Indexed, Apply;
      row := if ok then Some(rows[slot[runId]]) else None;
    }
  }

  lemma AllReleased(before: seq<Row>, slot: map<RunId, nat>, after: seq<Row>, identity: Name, reason: Name, now: int)
    requires Indexed(before, slot) && Indexed(after, slot) && |after| == |before|
    requires forall k :: 0 <= k < |before| ==> after[k] == ReleaseRow(before[k], identity, reason, now)
    ensures TableOf(after, slot) == Release(TableOf(before, slot), identity, reason, now)
  {
    hide ReleaseRow;
  }

  /** How many of the first `n` rows wait for this identity. */
  function WaitersAmong(rows: seq<Row>, n: nat, identity: Name): nat
    requires n <= |rows|
  {
    if n == 0 then 0 else WaitersAmong(rows, n - 1, identity) + if Waits(rows[n - 1], identity) then 1 else 0
  }

  ghost predicate FirstWaiter(table: Table, identity: Name, id: RunId) {
    id in table && Waits(table[id], identity) &&
    forall other :: other in table && Waits(table[other], identity) ==> QueueTime(table[id]) <= QueueTime(table[other])
  }

  lemma NotBefore(a: Row, b: Row)
    requires !Before(a, b)
    ensures QueueTime(b) <= QueueTime(a)
  {
  }

  lemma RenewKeepsId(row: Row, worker: Name, until: int)
    ensures RenewRow(row, worker, until).runId == row.runId
  {
  }

  lemma ReapKeepsId(row: Row, now: int, o: ReapOpts)
    ensures ReapRow(row, now, o).runId == row.runId
  {
  }

  /** The ended rows among the first `n`, in list order and final form. */
  function EndedAmong(rows: seq<Row>, n: nat, now: int, o: ReapOpts): seq<Row>
    requires n <= |rows|
  {
    if n == 0 then []
    else EndedAmong(rows, n - 1, now, o) + if Reaps(rows[n - 1], now, o) then [ReapRow(rows[n - 1], now, o)] else []
  }

  ghost predicate EndedAt(rows: seq<Row>, slot: map<RunId, nat>, n: nat, now: int, o: ReapOpts, e: Row)
    requires n <= |rows|
  {
    e.runId in slot && slot[e.runId] < n && Reaps(rows[slot[e.runId]], now, o) && e == ReapRow(rows[slot[e.runId]], now, o)
  }

  lemma {:induction false} EndedPlaces(rows: seq<Row>, slot: map<RunId, nat>, n: nat, now: int, o: ReapOpts, e: seq<Row>)
    requires Indexed(rows, slot) && n <= |rows| && e == EndedAmong(rows, n, now, o)
    ensures forall i :: 0 <= i < |e| ==> EndedAt(rows, slot, n, now, o, e[i])
    ensures forall i, j :: 0 <= i < j < |e| ==> e[i].runId != e[j].runId
  {
    hide ReapRow, Reaps, Indexed;
    if n > 0 {
      var d, last := EndedAmong(rows, n - 1, now, o), rows[n - 1];
      EndedPlaces(rows, slot, n - 1, now, o, d);
      ReapKeepsId(last, now, o);
      AtOwnPlace(rows, slot, n - 1);
      assert |d| <= |e| <= |d| + 1;
      forall i | 0 <= i < |d| ensures e[i] == d[i] && EndedAt(rows, slot, n, now, o, e[i]) && e[i].runId != last.runId {
        assert EndedAt(rows, slot, n - 1, now, o, d[i]);
      }
      if |e| > |d| {
        assert e[|d|] == ReapRow(last, now, o) && e[|d|].runId == last.runId;
        assert EndedAt(rows, slot, n, now, o, e[|d|]);
      }
    }
  }

  lemma {:induction false} EndedComplete(rows: seq<Row>, n: nat, now: int, o: ReapOpts, k: nat)
    requires k < n <= |rows| && Reaps(rows[k], now, o)
    ensures Listed(EndedAmong(rows, n, now, o), rows[k].runId)
    decreases n
  {
    hide ReapRow, Reaps;
    var d, e := EndedAmong(rows, n - 1, now, o), EndedAmong(rows, n, now, o);
    if k == n - 1 {
      ReapKeepsId(rows[k], now, o);
      assert e[|d|].runId == rows[k].runId;
    } else {
      EndedComplete(rows, n - 1, now, o, k);
      var i :| 0 <= i < |d| && d[i].runId == rows[k].runId;
      assert e[i] == d[i];
    }
  }

  ghost predicate Listed(rows: seq<Row>, id: RunId) {
    exists i :: 0 <= i < |rows| && rows[i].runId == id
  }

  lemma AtOwnPlace(rows: seq<Row>, slot: map<RunId, nat>, k: nat)
    requires Indexed(rows, slot) && k < |rows|
    ensures rows[k].runId in slot && slot[rows[k].runId] == k
  {
  }

  /** What the reap collected, said about the table instead of about the list. */
  lemma Collected(before: seq<Row>, slot: map<RunId, nat>, after: seq<Row>, now: int, o: ReapOpts)
    requires Indexed(before, slot) && |after| == |before|
    requires forall k :: 0 <= k < |before| ==> after[k] == ReapRow(before[k], now, o)
    ensures Indexed(after, slot) && TableOf(after, slot) == Reap(TableOf(before, slot), now, o)
    ensures var reaped, table := EndedAmong(before, |before|, now, o), TableOf(before, slot);
            (forall i, j :: 0 <= i < j < |reaped| ==> reaped[i].runId != reaped[j].runId) &&
            (forall i :: 0 <= i < |reaped| ==>
               reaped[i].runId in EndedIds(table, now, o) && reaped[i] == TableOf(after, slot)[reaped[i].runId]) &&
            (forall id :: id in EndedIds(table, now, o) ==> Listed(reaped, id))
  {
    hide ReapRow, Reaps;
    forall k | 0 <= k < |before| ensures after[k].runId == before[k].runId { ReapKeepsId(before[k], now, o); }
    EveryRow(before, slot, after, r => ReapRow(r, now, o));
    var reaped := EndedAmong(before, |before|, now, o);
    EndedPlaces(before, slot, |before|, now, o, reaped);
    forall i | 0 <= i < |reaped| ensures reaped[i].runId in slot && reaped[i] == TableOf(after, slot)[reaped[i].runId] && reaped[i].runId in EndedIds(TableOf(before, slot), now, o) {
      assert EndedAt(before, slot, |before|, now, o, reaped[i]);
    }
    forall id | id in EndedIds(TableOf(before, slot), now, o) ensures Listed(reaped, id) {
      EndedComplete(before, |before|, now, o, slot[id]);
    }
  }

  lemma ApplyKeepsId(row: Row, to: Status, p: Patch)
    ensures Apply(row, to, p).runId == row.runId
  {
  }

  lemma BeforeOrder(a: Row, b: Row, c: Row)
    ensures !Before(a, a)
    ensures Before(b, c) && !Before(a, c) ==> !Before(a, b)
    ensures b == c ==> a == b ==> !Before(a, b)
  {
    TextOrder(a.runId.text, b.runId.text, c.runId.text);
    TextOrder(a.runId.text, a.runId.text, a.runId.text);
  }
}
