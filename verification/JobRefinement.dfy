/** The in-memory store under the protocol: each step's store call leaves the table the protocol says. */
module JobRefinement {
  import opened Basics
  import opened JobTable
  import opened JobStores
  import opened JobProtocol

  /** The same step about another job: which one is claimed or elected is the store's choice. */
  predicate SameStep(l: Label, done: Label) {
    match l
    case Claim(task, _, at, lease, coalesce, clears) => done.Claim? && done == Claim(task, done.runId, at, lease, coalesce, clears)
    case Elect(_, identity, reason, at) => done.Elect? && done == Elect(done.runId, identity, reason, at)
    case _ => done == l
  }

  /** A claim or an election, on the job the store chooses. */
  method Choose(store: InMemoryJobStore, s: Sys, l: Label) returns (done: Label)
    requires store.Valid() && store.Jobs() == s.table && Enabled(s, l) && (l.Claim? || l.Elect?) && (l.Claim? ==> !l.clearsLease)
    modifies store
    ensures SameStep(l, done) && Enabled(s, done) && store.Valid() && store.Jobs() == Next(s, done).table
  {
    hide ClaimRow, Indexed, HeadOf, Woken, FirstWaiter;
    match l {
      case Claim(task, _, at, lease, coalesce, _) =>
        var claimed := store.ClaimNextQueued(at, lease, coalesce);
        HeadIsQueued(s.table, claimed.value.runId);
        done := Claim(task, claimed.value.runId, at, lease, coalesce, false);
      case Elect(_, identity, reason, at) =>
        var elected := store.ElectOneComputeWaiter(identity, reason, at);
        WaiterWaits(s.table, identity, elected.value.runId);
        done := Elect(elected.value.runId, identity, reason, at);
    }
    assert store.Jobs() == TableNext(s, done);
  }

  /** A guarded write of a worker. */
  method WriteGuarded(store: InMemoryJobStore, s: Sys, l: Label)
    requires store.Valid() && store.Jobs() == s.table && Enabled(s, l) && (l.Charge? || l.Defer? || l.Commit?)
    modifies store
    ensures store.Valid() && store.Jobs() == Next(s, l).table
  {
    hide Apply, Indexed, CanTransition;
    var w := s.tasks[l.task];
    var to, p := Running, NoChange(l.at);
    match l {
      case Charge(_, at) => p := ChargePatch(w, at);
      case Defer(_, identity, at) => to, p := Waiting, DeferPatch(w, identity, at);
      case Commit(_, end, at, notes) => to, p := end, NoChange(at).(notes := notes);
    }
    var ok := store.TransitionTo(w.runId, Running, to, p, w.worker);
    assert store.Jobs() == TableNext(s, l);
  }

  /** The store call of one step, made on the store. It performs that step, on the job it chooses where there
      is a choice; a claim leaves old lease columns alone, and a submission brings a key not seen before. */
  method Perform(store: InMemoryJobStore, s: Sys, l: Label) returns (done: Label)
    requires store.Valid() && store.Jobs() == s.table && Enabled(s, l)
    requires l.Claim? ==> !l.clearsLease
    requires l.Submit? ==> KeyOf(l.job) !in store.byKey
    modifies store
    ensures SameStep(l, done) && Enabled(s, done)
    ensures store.Valid() && store.Jobs() == Next(s, done).table
  {
    if l.Claim? || l.Elect? {
      done := Choose(store, s, l);
      return;
    }
    done := l;
    if l.Charge? || l.Defer? || l.Commit? {
      WriteGuarded(store, s, l);
      return;
    }
    hide Apply, Closed, Reap, Release, Renew, Indexed, CanTransition, ListsOnce, FreshRow;
    match l {
      case Submit(job) =>
        var row, created := store.InsertOrGet(job);
      case Enqueue(r, at) =>
        var ok := store.TransitionTo(r, Accepted, Queued, NoChange(at).(queuedAt := Some(at)), None);
      case ReapAll(_, at, o, _) =>
        var reaped := store.ReapDeadlines(at, o);
      case ReleaseAll(identity, reason, at) =>
        var released := store.ReleaseAllComputeWaiters(identity, reason, at);
      case Poison(_, r, at) =>
        if r in s.table && s.table[r].status == Waiting {
          ClosedByTransition(s.table[r], Failed, at, ComputeWaitExhausted);
        }
        var row := store.PoisonComputeWaiter(r, at);
      case Cancel(r, from, at) =>
        var ok := store.TransitionTo(r, from, Canceled, ClosePatch(at, CanceledByCaller), None);
      case RenewAll(worker, until) =>
        store.RenewLease(worker, until);
      case _ =>
    }
    assert store.Jobs() == TableNext(s, l);
  }

  lemma HeadIsQueued(table: Table, id: RunId)
    requires HeadOf(table, id)
    ensures id in table && table[id].status == Queued
  {
  }

  lemma WaiterWaits(table: Table, identity: Name, id: RunId)
    requires FirstWaiter(table, identity, id)
    ensures id in table && Waits(table[id], identity)
  {
  }
}
