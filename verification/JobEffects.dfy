/** What the steps of the protocol do to a job's columns, and which completion events they lead to. */
module JobEffects {
  import opened Basics
  import opened JobTable
  import opened JobStores
  import opened JobProtocol

  // ---------------------------------------------------------------- rows

  /** A worker may still write: the job runs, and under its lease if it has one. */
  predicate Holding(s: Sys, k: nat) {
    k in s.tasks && s.tasks[k].Working? && s.tasks[k].runId in s.table && s.table[s.tasks[k].runId].status == Running &&
    (s.tasks[k].worker.Some? ==> s.table[s.tasks[k].runId].leasedBy == s.tasks[k].worker)
  }

  /** Only the row of this job may differ between the tables. */
  ghost predicate OthersKept(a: Table, b: Table, id: RunId) {
    a.Keys == b.Keys && forall other :: other in a && other != id ==> b[other] == a[other]
  }

  /** Charging counts one attempt more than the worker saw when it claimed, and marks the attempt charged. */
  lemma ChargeLaw(s: Sys, k: nat, at: int)
    requires Enabled(s, Charge(k, at))
    ensures var w, t := s.tasks[k], Next(s, Charge(k, at)).table;
            if Holding(s, k)
            then OthersKept(s.table, t, w.runId) && t[w.runId] == s.table[w.runId].(attempts := w.attempts + 1, charged := Some(true))
            else t == s.table
  {
  }

  /** Parking a follower: it waits for the identity, one compute wait more than the worker saw, uncharged; to the
      outside it still runs, and it keeps its run deadline. The worker is done with it. */
  lemma DeferLaw(s: Sys, k: nat, identity: Name, at: int)
    requires Enabled(s, Defer(k, identity, at))
    ensures var w, next := s.tasks[k], Next(s, Defer(k, identity, at));
            k !in next.tasks && next.events == s.events &&
            if Holding(s, k)
            then OthersKept(s.table, next.table, w.runId) && Waits(next.table[w.runId], identity) &&
                 next.table[w.runId] == s.table[w.runId].(status := Waiting, computeIdentity := Some(identity), waits := w.waits + 1,
                                                          charged := Some(false), timeline := s.table[w.runId].timeline + [Entry(Running, at)])
            else next.table == s.table
  {
  }

  /** An accepted job enters the queue with its queue time; a job in any other status is left alone. */
  lemma EnqueueLaw(s: Sys, r: RunId, at: int)
    ensures var t := Next(s, Enqueue(r, at)).table;
            if r in s.table && s.table[r].status == Accepted
            then OthersKept(s.table, t, r) &&
                 t[r] == s.table[r].(status := Queued, queuedAt := Some(at), timeline := s.table[r].timeline + [Entry(Queued, at)])
            else t == s.table
  {
  }

  /** Closed at `at` under the code. */
  ghost predicate ClosedAs(row: Row, r: Row, to: Status, code: Code, at: int) {
    r.status == to && r.notes.terminalCode == Some(code) && r.notes.terminalAt == Some(at) && r.timeline == row.timeline + [Entry(to, at)]
  }

  /** A cancel closes a live job that is still in the status the caller thinks it is in. */
  lemma CancelLaw(s: Sys, r: RunId, from: Status, at: int)
    ensures var t := Next(s, Cancel(r, from, at)).table;
            if r in s.table && s.table[r].status == from && from in {Accepted, Queued, Running, Waiting}
            then OthersKept(s.table, t, r) && ClosedAs(s.table[r], t[r], Canceled, CanceledByCaller, at)
            else t == s.table
  {
  }

  /** Poisoning fails a parked follower and owes its notice. */
  lemma PoisonLaw(s: Sys, k: nat, r: RunId, at: int)
    requires k !in s.tasks
    ensures var next := Next(s, Poison(k, r, at));
            if r in s.table && s.table[r].status == Waiting
            then OthersKept(s.table, next.table, r) && ClosedAs(s.table[r], next.table[r], Failed, ComputeWaitExhausted, at) &&
                 next.tasks == s.tasks[k := Publishing([Notice(r, Failed)])]
            else next == s
  {
  }

  /** Submissions with the same resume token are one job, those with different tokens are not; without tokens the run
      ids decide. */
  lemma ResumeLaw(a: NewJob, b: NewJob)
    ensures a.resumeToken.Some? && b.resumeToken.Some? ==> (KeyOf(a) == KeyOf(b) <==> a.resumeToken == b.resumeToken)
    ensures a.resumeToken.None? && b.resumeToken.None? ==> (KeyOf(a) == KeyOf(b) <==> a.runId == b.runId)
    ensures a.resumeToken.Some? && b.resumeToken.None? ==> (KeyOf(a) == KeyOf(b) <==> a.resumeToken.value == b.runId.text)
  {
  }

  // ---------------------------------------------------------------- events

  /** A worker whose terminal write goes through, rereads its row and publishes adds exactly the event of its run with
      the status it wrote; one whose write is refused drops the job, and the two later steps do nothing. */
  lemma CommitPublishes(s: Sys, k: nat, to: Status, at: int, notes: Notes)
    requires Enabled(s, Commit(k, to, at, notes))
    ensures var r := After(s, [Commit(k, to, at, notes), Reread(k), Publish(k)]);
            if Holding(s, k)
            then r.events == s.events + [Notice(s.tasks[k].runId, to)] && s.tasks[k].runId in r.table && r.table[s.tasks[k].runId].status == to
            else r.events == s.events && r.table == s.table && k !in r.tasks
  {
    Unfold3(s, Commit(k, to, at, notes), Reread(k), Publish(k));
  }

  lemma Unfold3(s: Sys, a: Label, b: Label, c: Label)
    ensures After(s, [a, b, c]) == Next(Next(Next(s, a), b), c)
  {
    hide Next;
    assert [a, b, c][..2] == [a, b] && [a, b][..1] == [a] && [a][..0] == [];
    assert After(s, []) == s;
    assert After(s, [a]) == Next(s, a);
    assert After(s, [a, b]) == Next(Next(s, a), b);
  }

  ghost function PublishTimes(s: Sys, k: nat, n: nat): Sys {
    if n == 0 then s else Next(PublishTimes(s, k, n - 1), Publish(k))
  }

  /** A publisher that goes through its notices adds each of them that tells a terminal status. */
  lemma {:induction false} PublishLaw(s: Sys, k: nat, todo: seq<Notice>, n: nat)
    requires k in s.tasks && s.tasks[k] == Publishing(todo) && n <= |todo| && forall i :: 0 <= i < |todo| ==> IsTerminal(todo[i].status)
    ensures var r := PublishTimes(s, k, n);
            r.table == s.table && r.events == s.events + todo[..n] && k in r.tasks && r.tasks[k] == Publishing(todo[n..])
  {
    if n > 0 {
      PublishLaw(s, k, todo, n - 1);
      assert todo[n - 1..][0] == todo[n - 1] && todo[n - 1..][1..] == todo[n..] && todo[..n - 1] + [todo[n - 1]] == todo[..n];
    }
  }

  /** A reap that publishes all it returned adds one event for every job it ended, with the status it gave it. */
  lemma ReapPublishes(s: Sys, k: nat, at: int, o: ReapOpts, order: seq<RunId>)
    requires Enabled(s, ReapAll(k, at, o, order))
    ensures var r := PublishTimes(Next(s, ReapAll(k, at, o, order)), k, |order|);
            |r.events| == |s.events| + |order| && s.events <= r.events && r.table.Keys == s.table.Keys &&
            (forall i :: 0 <= i < |order| ==> order[i] in s.table && !IsTerminal(s.table[order[i]].status) && IsTerminal(r.table[order[i]].status) &&
                                              r.events[|s.events| + i] == Notice(order[i], r.table[order[i]].status)) &&
            forall id :: id in s.table && !IsTerminal(s.table[id].status) && IsTerminal(r.table[id].status) ==> id in order
  {
    var next := Next(s, ReapAll(k, at, o, order));
    var todo := Closing(next.table, order);
    forall id | id in s.table ensures Reaps(s.table[id], at, o) <==> !IsTerminal(s.table[id].status) && IsTerminal(next.table[id].status) {
      ReapsMeansEnds(s.table[id], at, o);
    }
    hide Reaps, ReapRow;
    PublishLaw(next, k, todo, |order|);
    assert todo[..|order|] == todo;
  }
}
