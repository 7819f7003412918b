/** How often a job can be claimed, and how often the reaper can send it back to the queue. */
module JobRetries {
  import opened Basics
  import opened JobTable
  import opened JobProtocol
  import opened JobSafety

  // ---------------------------------------------------------------- the counters of a row

  /** The columns the retry budget depends on. */
  datatype Tally = Tally(status: Status, attempts: int, waits: int, charged: Option<bool>, leasedBy: Option<Name>)

  function TallyOf(row: Row): Tally {
    Tally(row.status, row.attempts, row.waits, row.charged, row.leasedBy)
  }

  function TallyReaped(t: Tally, v: Verdict, o: ReapOpts): Tally {
    match v
    case Leave => t
    case Expire => t.(status := Expired)
    case PoisonWait => t.(status := Failed)
    case RequeueWait => t.(status := Queued, leasedBy := None, waits := t.waits + 1)
    case PoisonLease => t.(status := Failed)
    case Requeue => t.(status := Queued, leasedBy := None, charged := if o.coalesce then Some(false) else t.charged)
    case TimeOut => t.(status := TimedOut)
  }

  /** What a step does to the counters of one job. */
  ghost function TallyNext(s: Sys, l: Label, id: RunId): Tally
    requires id in s.table
  {
    var t := TallyOf(s.table[id]);
    if !Enabled(s, l) then t else
      match l
      case Enqueue(r, _) => if r == id && t.status == Accepted then t.(status := Queued) else t
      case Claim(_, r, _, lease, coalesce, clears) =>
        if r != id then t
        else if lease.Some? then t.(status := Running, leasedBy := Some(lease.value.worker), attempts := if coalesce then t.attempts else t.attempts + 1)
        else t.(status := Running, leasedBy := if clears then None else t.leasedBy)
      case Charge(k, _) =>
        if Holds(s, k, id) then t.(attempts := s.tasks[k].attempts + 1, charged := Some(true)) else t
      case Defer(k, _, _) =>
        if Holds(s, k, id) then t.(status := Waiting, waits := s.tasks[k].waits + 1, charged := Some(false)) else t
      case Commit(k, to, _, _) => if Holds(s, k, id) then t.(status := to) else t
      case ReapAll(_, at, o, _) => TallyReaped(t, VerdictOn(s.table[id], at, o), o)
      case ReleaseAll(identity, _, _) => if Waits(s.table[id], identity) then t.(status := Queued, charged := Some(false)) else t
      case Elect(r, _, _, _) => if r == id then t.(status := Queued, charged := Some(false)) else t
      case Poison(_, r, _) => if r == id && t.status == Waiting then t.(status := Failed) else t
      case Cancel(r, from, _) => if r == id && t.status == from && CanTransition(from, Canceled) then t.(status := Canceled) else t
      case _ => t
  }

  /** The worker's claim still stands: its job runs under its id. */
  ghost predicate Holds(s: Sys, k: nat, id: RunId)
    requires k in s.tasks && s.tasks[k].Working? && id in s.table
  {
    s.tasks[k].runId == id && s.table[id].status == Running && (s.tasks[k].worker.None? || s.table[id].leasedBy == s.tasks[k].worker)
  }

  lemma TallyApplied(row: Row, to: Status, p: Patch)
    ensures TallyOf(Apply(row, to, p)) ==
            Tally(to, if p.attempts.Some? then p.attempts.value else row.attempts, if p.waits.Some? then p.waits.value else row.waits,
                  Or(p.charged, row.charged), row.leasedBy)
  {
  }

  lemma TallyTransition(table: Table, r: RunId, from: Status, to: Status, p: Patch, holder: Option<Name>, id: RunId)
    requires id in table
    ensures var next := Transition(table, r, from, to, p, holder);
            id in next &&
            TallyOf(next[id]) == if r == id && Admits(table, r, from, to, holder) then TallyOf(Apply(table[id], to, p)) else TallyOf(table[id])
  {
    hide Apply, TallyOf, Admits;
  }

  lemma TallyClaimed(row: Row, at: int, lease: Option<Lease>, coalesce: bool, clears: bool)
    ensures TallyOf(ClaimRow(row, at, lease, coalesce, clears)) ==
            if lease.Some? then Tally(Running, if coalesce then row.attempts else row.attempts + 1, row.waits, row.charged, Some(lease.value.worker))
            else Tally(Running, row.attempts, row.waits, row.charged, if clears then None else row.leasedBy)
  {
    TallyApplied(row, Running, StartPatch(row, at));
  }

  lemma TallyOfReaped(row: Row, at: int, o: ReapOpts)
    ensures TallyOf(ReapRow(row, at, o)) == TallyReaped(TallyOf(row), VerdictOn(row, at, o), o)
  {
    hide VerdictOn;
  }

  lemma TallyRenewed(row: Row, worker: Name, until: int)
    ensures TallyOf(RenewRow(row, worker, until)) == TallyOf(row)
  {
  }

  /** The counters after a guarded write of the worker. */
  lemma TallyByWorker(s: Sys, l: Label, id: RunId)
    requires id in s.table && Enabled(s, l) && (l.Charge? || l.Defer? || l.Commit?)
    ensures id in Next(s, l).table && TallyOf(Next(s, l).table[id]) == TallyNext(s, l, id)
  {
    hide Apply, ClaimRow, ReapRow, RenewRow, FreshRow, Transition, ListsOnce, VerdictOn, Merged, TallyOf;
    var row, w := s.table[id], s.tasks[l.task];
    TallyFields(row);
    match l {
      case Charge(_, at) =>
        TallyTransition(s.table, w.runId, Running, Running, ChargePatch(w, at), w.worker, id);
        TallyApplied(row, Running, ChargePatch(w, at));
      case Defer(_, identity, at) =>
        TallyTransition(s.table, w.runId, Running, Waiting, DeferPatch(w, identity, at), w.worker, id);
        TallyApplied(row, Waiting, DeferPatch(w, identity, at));
      case Commit(_, to, at, notes) =>
        TallyTransition(s.table, w.runId, Running, to, NoChange(at).(notes := notes), w.worker, id);
        TallyApplied(row, to, NoChange(at).(notes := notes));
    }
    assert Next(s, l).table == TableNext(s, l);
    assert id in Next(s, l).table && TallyOf(Next(s, l).table[id]) == TallyNext(s, l, id);
  }

  /** The counters after an unguarded transition. */
  lemma TallyByTransition(s: Sys, l: Label, id: RunId)
    requires id in s.table && Enabled(s, l) && (l.Enqueue? || l.Poison? || l.Cancel?)
    ensures id in Next(s, l).table && TallyOf(Next(s, l).table[id]) == TallyNext(s, l, id)
  {
    hide Apply, ClaimRow, ReapRow, RenewRow, FreshRow, Transition, ListsOnce, VerdictOn, Merged, TallyOf;
    var row := s.table[id];
    TallyFields(row);
    match l {
      case Enqueue(r, at) =>
        TallyTransition(s.table, r, Accepted, Queued, NoChange(at).(queuedAt := Some(at)), None, id);
        TallyApplied(row, Queued, NoChange(at).(queuedAt := Some(at)));
      case Poison(_, r, at) =>
        TallyTransition(s.table, r, Waiting, Failed, ClosePatch(at, ComputeWaitExhausted), None, id);
        TallyApplied(row, Failed, ClosePatch(at, ComputeWaitExhausted));
      case Cancel(r, from, at) =>
        TallyTransition(s.table, r, from, Canceled, ClosePatch(at, CanceledByCaller), None, id);
        TallyApplied(row, Canceled, ClosePatch(at, CanceledByCaller));
    }
    assert Next(s, l).table == TableNext(s, l);
    assert id in Next(s, l).table && TallyOf(Next(s, l).table[id]) == TallyNext(s, l, id);
  }

  /** The counters after every other step. */
  lemma TallyByStore(s: Sys, l: Label, id: RunId)
    requires id in s.table && Enabled(s, l) && !(l.Charge? || l.Defer? || l.Commit? || l.Enqueue? || l.Poison? || l.Cancel?)
    ensures id in Next(s, l).table && TallyOf(Next(s, l).table[id]) == TallyNext(s, l, id)
  {
    hide Apply, ClaimRow, ReapRow, RenewRow, FreshRow, Transition, ListsOnce, VerdictOn, Merged, TallyOf;
    var row := s.table[id];
    TallyFields(row);
    match l {
      case Claim(_, _, at, lease, coalesce, clears) => TallyClaimed(row, at, lease, coalesce, clears);
      case ReapAll(_, at, o, _) => TallyOfReaped(row, at, o);
      case ReleaseAll(_, reason, at) => TallyApplied(row, Queued, WakePatch(reason, at));
      case Elect(_, _, reason, at) => TallyApplied(row, Queued, WakePatch(reason, at));
      case RenewAll(worker, until) => TallyRenewed(row, worker, until);
      case _ =>
    }
    assert Next(s, l).table == TableNext(s, l);
    assert id in Next(s, l).table && TallyOf(Next(s, l).table[id]) == TallyNext(s, l, id);
  }

  /** What each step does to the retry counters of a row. */
  lemma TallyStep(s: Sys, l: Label, id: RunId)
    requires id in s.table
    ensures id in Next(s, l).table && TallyOf(Next(s, l).table[id]) == TallyNext(s, l, id)
  {
    hide Next, TallyOf, Enabled;
    if !Enabled(s, l) {
      TallyKept(s, l, id);
    } else if l.Charge? || l.Defer? || l.Commit? {
      TallyByWorker(s, l, id);
    } else if l.Enqueue? || l.Poison? || l.Cancel? {
      TallyByTransition(s, l, id);
    } else {
      TallyByStore(s, l, id);
    }
  }

  lemma TallyKept(s: Sys, l: Label, id: RunId)
    requires id in s.table && !Enabled(s, l)
    ensures Next(s, l) == s && TallyNext(s, l, id) == TallyOf(s.table[id])
  {
  }

  lemma TallyFields(row: Row)
    ensures TallyOf(row).status == row.status && TallyOf(row).attempts == row.attempts && TallyOf(row).waits == row.waits
    ensures TallyOf(row).charged == row.charged && TallyOf(row).leasedBy == row.leasedBy
  {
  }

  // ---------------------------------------------------------------- without coalescing

  /** Claims take a lease and charge at once; reaps use a cap of at most `cap`. */
  predicate Plain(l: Label, cap: int) {
    match l
    case Claim(_, _, _, lease, coalesce, _) => lease.Some? && !coalesce
    case ReapAll(_, _, o, _) => !o.coalesce && o.maxAttempts <= cap
    case _ => true
  }

  ghost predicate Claimed(s: Sys, l: Label, id: RunId) {
    Enabled(s, l) && l.Claim? && l.runId == id
  }

  ghost function Claims(s: Sys, run: seq<Label>, id: RunId): nat {
    if run == [] then 0 else
      Claims(s, run[..|run| - 1], id) + if Claimed(After(s, run[..|run| - 1]), run[|run| - 1], id) then 1 else 0
  }

  /** Nobody can charge or park, since every claim was charged when it was made. */
  ghost predicate NoneCoalesce(s: Sys) {
    forall k :: k in s.tasks && s.tasks[k].Working? ==> !s.tasks[k].coalesce
  }

  lemma PlainTasks(s: Sys, l: Label, cap: int)
    requires NoneCoalesce(s) && Plain(l, cap)
    ensures NoneCoalesce(Next(s, l))
  {
  }

  /** Attempts count the claims; a waiting row is first in line or still has attempts left. */
  ghost predicate Budget(t: Tally, claims: nat, cap: int) {
    t.attempts == claims && claims <= Max(1, cap) && t.status != Waiting &&
    (t.status in {Accepted, Queued} ==> claims == 0 || claims < cap)
  }

  lemma BudgetStep(s: Sys, l: Label, id: RunId, claims: nat, cap: int)
    requires NoneCoalesce(s) && Plain(l, cap) && id in s.table && Budget(TallyOf(s.table[id]), claims, cap)
    ensures Budget(TallyNext(s, l, id), if Claimed(s, l, id) then claims + 1 else claims, cap)
  {
  }

  lemma FreshTally(job: NewJob)
    ensures TallyOf(FreshRow(job)) == Tally(Accepted, 0, 0, None, None)
  {
  }

  ghost predicate PlainSoFar(s: Sys, id: RunId, claims: nat, cap: int) {
    NoneCoalesce(s) && if id in s.table then Budget(TallyOf(s.table[id]), claims, cap) else claims == 0
  }

  lemma PlainStep(s: Sys, l: Label, id: RunId, claims: nat, cap: int)
    requires PlainSoFar(s, id, claims, cap) && Plain(l, cap)
    ensures PlainSoFar(Next(s, l), id, if Claimed(s, l, id) then claims + 1 else claims, cap)
  {
    hide Next, TallyOf, NoneCoalesce;
    PlainTasks(s, l, cap);
    if id in s.table {
      TallyStep(s, l, id);
      BudgetStep(s, l, id, claims, cap);
    } else if id in Next(s, l).table {
      NewRow(s, l, id);
      FreshTally(l.job);
    }
    assert PlainSoFar(Next(s, l), id, if Claimed(s, l, id) then claims + 1 else claims, cap);
  }

  lemma {:induction false} PlainRun(run: seq<Label>, id: RunId, cap: int)
    requires forall l :: l in run ==> Plain(l, cap)
    ensures PlainSoFar(After(Start, run), id, Claims(Start, run, id), cap)
  {
    hide Next, Plain, Claimed, Budget;
    if run != [] {
      PlainRun(run[..|run| - 1], id, cap);
      PlainStep(After(Start, run[..|run| - 1]), run[|run| - 1], id, Claims(Start, run[..|run| - 1], id), cap);
    }
    assert PlainSoFar(After(Start, run), id, Claims(Start, run, id), cap);
  }

  /** Without coalescing no job is claimed more often than the largest attempts cap in use, and once even if
      that cap allows nothing. */
  lemma ClaimsAreBounded(run: seq<Label>, id: RunId, cap: int)
    requires forall l :: l in run ==> Plain(l, cap)
    ensures Claims(Start, run, id) <= Max(1, cap)
  {
    PlainRun(run, id, cap);
  }

  // ---------------------------------------------------------------- with coalescing

  predicate Coalescing(l: Label, waitCap: int, cap: int) {
    match l
    case Claim(_, _, _, lease, coalesce, _) => lease.Some? && coalesce
    case ReapAll(_, _, o, _) => o.coalesce && o.waitCap <= waitCap && o.maxAttempts <= cap
    case _ => true
  }

  /** No worker claims a job that an earlier claim of its own is still working on. */
  ghost predicate NoReclaim(s: Sys, l: Label) {
    l.Claim? ==> forall k :: k in s.tasks && s.tasks[k].Working? && s.tasks[k].runId == l.runId ==> s.tasks[k].worker != WorkerOf(l.lease)
  }

  ghost predicate CoalescingRun(run: seq<Label>, waitCap: int, cap: int) {
    forall k :: 0 <= k < |run| ==> Coalescing(run[k], waitCap, cap) && NoReclaim(After(Start, run[..k]), run[k])
  }

  ghost predicate SentBack(s: Sys, l: Label, id: RunId) {
    Enabled(s, l) && l.ReapAll? && id in s.table && VerdictOn(s.table[id], l.at, l.o) in {RequeueWait, Requeue}
  }

  ghost function Requeues(s: Sys, run: seq<Label>, id: RunId): nat {
    if run == [] then 0 else
      Requeues(s, run[..|run| - 1], id) + if SentBack(After(s, run[..|run| - 1]), run[|run| - 1], id) then 1 else 0
  }

  function Left(used: int, cap: int): nat {
    if used < cap then cap - used else 0
  }

  /** What remains of the retry budget: one requeue before anything was ever charged, the compute
      waits left, the engine attempts left, and the requeue a charged attempt still entitles to. */
  function Allowance(t: Tally, waitCap: int, cap: int): nat {
    (if t.charged.None? then 1 else 0) + Left(t.waits, waitCap) + Left(t.attempts, cap) +
    (if t.charged == Some(true) && t.attempts < cap then 1 else 0)
  }

  /** Workers hold leases, never two claims on one job, and as long as a claim stands uncharged the
      counters are the ones it saw. */
  ghost predicate Leased(s: Sys) {
    forall k :: k in s.tasks && s.tasks[k].Working? ==> s.tasks[k].worker.Some?
  }

  predicate SameClaim(v: Task, w: Task) {
    v.Working? && w.Working? && v.runId == w.runId && v.worker == w.worker
  }

  ghost predicate OneClaimEach(s: Sys) {
    forall j, k :: j in s.tasks && k in s.tasks && SameClaim(s.tasks[j], s.tasks[k]) ==> j == k
  }

  ghost predicate Remembers(w: Task, t: Tally)
    requires w.Working?
  {
    !w.charged && t.status == Running && t.leasedBy == w.worker ==> t.attempts == w.attempts && t.waits == w.waits
  }

  ghost predicate ClaimsRemember(s: Sys) {
    forall k :: k in s.tasks && s.tasks[k].Working? && s.tasks[k].runId in s.table ==> Remembers(s.tasks[k], TallyOf(s.table[s.tasks[k].runId]))
  }

  ghost predicate ClaimsKnown(s: Sys) {
    forall k :: k in s.tasks && s.tasks[k].Working? ==> s.tasks[k].runId in s.table
  }

  ghost predicate Orderly(s: Sys) {
    Leased(s) && OneClaimEach(s) && ClaimsKnown(s) && ClaimsRemember(s)
  }

  /** A worker's claim was there before, or this step is its claim. */
  lemma WorkingAfter(s: Sys, l: Label, k: nat)
    requires k in Next(s, l).tasks && Next(s, l).tasks[k].Working?
    ensures (k in s.tasks && s.tasks[k].Working? && !(Enabled(s, l) && l.Claim? && l.task == k) &&
             Next(s, l).tasks[k] == if Enabled(s, l) && l.Charge? && l.task == k then s.tasks[k].(charged := true) else s.tasks[k]) ||
            (Enabled(s, l) && l.Claim? && l.task == k && k !in s.tasks && l.runId in s.table && l.runId in TableNext(s, l) &&
             Next(s, l).tasks[k] == Working(WorkerOf(l.lease), l.runId, TableNext(s, l)[l.runId].attempts, TableNext(s, l)[l.runId].waits, l.coalesce, false))
  {
    hide ListsOnce, Closing, Admits, ClaimRow;
    if Actor(l) != Some(k) {
      OthersKeep(s, l, k);
    }
  }

  lemma OrderlyTasks(s: Sys, l: Label)
    requires Orderly(s) && NoReclaim(s, l) && (l.Claim? ==> l.lease.Some?)
    ensures Leased(Next(s, l)) && OneClaimEach(Next(s, l)) && ClaimsKnown(Next(s, l))
  {
    hide Next, TableNext, ClaimsRemember, Enabled;
    forall k | k in Next(s, l).tasks && Next(s, l).tasks[k].Working?
      ensures Next(s, l).tasks[k].worker.Some? && Next(s, l).tasks[k].runId in Next(s, l).table
    {
      WorkingAfter(s, l, k);
      if k in s.tasks {
        RowsStep(s, l, s.tasks[k].runId);
      } else {
        RowsStep(s, l, l.runId);
      }
    }
    forall j, k | j in Next(s, l).tasks && k in Next(s, l).tasks && SameClaim(Next(s, l).tasks[j], Next(s, l).tasks[k]) ensures j == k
    {
      WorkingAfter(s, l, j);
      WorkingAfter(s, l, k);
    }
    assert Leased(Next(s, l)) && OneClaimEach(Next(s, l)) && ClaimsKnown(Next(s, l));
  }

  lemma NewClaimRemembers(s: Sys, l: Label)
    requires Enabled(s, l) && l.Claim?
    ensures l.runId in Next(s, l).table && l.task in Next(s, l).tasks && Next(s, l).tasks[l.task].Working?
    ensures Remembers(Next(s, l).tasks[l.task], TallyOf(Next(s, l).table[l.runId]))
  {
  }

  lemma OldClaimRemembers(s: Sys, l: Label, k: nat)
    requires Orderly(s) && NoReclaim(s, l) && (l.Claim? ==> l.lease.Some?) && k in s.tasks && s.tasks[k].Working?
    requires k in Next(s, l).tasks && Next(s, l).tasks[k].Working?
    ensures Remembers(Next(s, l).tasks[k], TallyNext(s, l, s.tasks[k].runId))
  {
    hide Next, TableNext, ListsOnce, VerdictOn;
    WorkingAfter(s, l, k);
    var w := s.tasks[k];
    TallyFields(s.table[w.runId]);
    assert Remembers(w, TallyOf(s.table[w.runId]));
    if l.Charge? && Enabled(s, l) && l.task != k && Holds(s, l.task, w.runId) {
      assert !SameClaim(s.tasks[l.task], w);
    }
    assert Remembers(Next(s, l).tasks[k], TallyNext(s, l, w.runId));
  }

  lemma OrderlyStep(s: Sys, l: Label)
    requires Orderly(s) && NoReclaim(s, l) && (l.Claim? ==> l.lease.Some?)
    ensures Orderly(Next(s, l))
  {
    hide Next, TableNext, Remembers, TallyNext, Enabled, TallyOf;
    OrderlyTasks(s, l);
    forall k | k in Next(s, l).tasks && Next(s, l).tasks[k].Working? && Next(s, l).tasks[k].runId in Next(s, l).table
      ensures Remembers(Next(s, l).tasks[k], TallyOf(Next(s, l).table[Next(s, l).tasks[k].runId]))
    {
      WorkingAfter(s, l, k);
      if k in s.tasks {
        TallyStep(s, l, s.tasks[k].runId);
        OldClaimRemembers(s, l, k);
      } else {
        NewClaimRemembers(s, l);
      }
    }
    assert Orderly(Next(s, l));
  }

  lemma ChargeStates(charged: Option<bool>)
    ensures charged.None? || charged == Some(false) || charged == Some(true)
  {
    match charged
    case None =>
    case Some(b) => assert b || !b;
  }

  lemma ReapAllowance(row: Row, at: int, o: ReapOpts, waitCap: int, cap: int)
    requires o.coalesce && o.waitCap <= waitCap && o.maxAttempts <= cap
    ensures var v := VerdictOn(row, at, o);
            Allowance(TallyReaped(TallyOf(row), v, o), waitCap, cap) + (if v == RequeueWait || v == Requeue then 1 else 0)
              <= Allowance(TallyOf(row), waitCap, cap)
  {
    var v := VerdictOn(row, at, o);
    if v == RequeueWait {
      assert row.waits < waitCap;
    } else if v == Requeue {
      assert row.attempts < cap;
      ChargeStates(row.charged);
    }
  }

  /** No step adds to the allowance, and every requeue takes from it. */
  lemma AllowanceStep(s: Sys, l: Label, id: RunId, waitCap: int, cap: int)
    requires Orderly(s) && Coalescing(l, waitCap, cap) && id in s.table
    ensures Allowance(TallyNext(s, l, id), waitCap, cap) + (if SentBack(s, l, id) then 1 else 0) <= Allowance(TallyOf(s.table[id]), waitCap, cap)
  {
    hide ListsOnce, VerdictOn;
    if l.ReapAll? {
      ReapAllowance(s.table[id], l.at, l.o, waitCap, cap);
    }
    if Enabled(s, l) && (l.Charge? || l.Defer?) && Holds(s, l.task, id) {
      assert Remembers(s.tasks[l.task], TallyOf(s.table[id]));
    }
  }

  ghost predicate CoalescingSoFar(s: Sys, id: RunId, requeues: nat, waitCap: nat, cap: nat) {
    Orderly(s) && if id in s.table then requeues + Allowance(TallyOf(s.table[id]), waitCap, cap) <= 1 + waitCap + cap else requeues == 0
  }

  lemma CoalescingStep(s: Sys, l: Label, id: RunId, requeues: nat, waitCap: nat, cap: nat)
    requires CoalescingSoFar(s, id, requeues, waitCap, cap) && Coalescing(l, waitCap, cap) && NoReclaim(s, l)
    ensures CoalescingSoFar(Next(s, l), id, requeues + if SentBack(s, l, id) then 1 else 0, waitCap, cap)
  {
    hide Next, TallyOf, Orderly, Allowance;
    OrderlyStep(s, l);
    if id in s.table {
      TallyStep(s, l, id);
      AllowanceStep(s, l, id, waitCap, cap);
    } else if id in Next(s, l).table {
      NewRow(s, l, id);
      FreshTally(l.job);
      FreshAllowance(waitCap, cap);
    }
    assert CoalescingSoFar(Next(s, l), id, requeues + if SentBack(s, l, id) then 1 else 0, waitCap, cap);
  }

  lemma FreshAllowance(waitCap: nat, cap: nat)
    ensures Allowance(Tally(Accepted, 0, 0, None, None), waitCap, cap) == 1 + waitCap + cap
  {
  }

  lemma {:induction false} CoalescingToEnd(run: seq<Label>, id: RunId, waitCap: nat, cap: nat)
    requires CoalescingRun(run, waitCap, cap)
    ensures CoalescingSoFar(After(Start, run), id, Requeues(Start, run, id), waitCap, cap)
  {
    hide Next, Coalescing, NoReclaim, SentBack, Allowance;
    if run != [] {
      var past := run[..|run| - 1];
      assert forall k :: 0 <= k < |past| ==> past[k] == run[k] && past[..k] == run[..k];
      CoalescingToEnd(past, id, waitCap, cap);
      assert Coalescing(run[|run| - 1], waitCap, cap) && NoReclaim(After(Start, past), run[|run| - 1]);
      CoalescingStep(After(Start, past), run[|run| - 1], id, Requeues(Start, past, id), waitCap, cap);
    }
    assert CoalescingSoFar(After(Start, run), id, Requeues(Start, run, id), waitCap, cap);
  }

  /** With coalescing the reaper sends one job back at most 1 + wait cap + attempts cap times. */
  lemma RequeuesAreBounded(run: seq<Label>, id: RunId, waitCap: nat, cap: nat)
    requires CoalescingRun(run, waitCap, cap)
    ensures Requeues(Start, run, id) <= 1 + waitCap + cap
  {
    CoalescingToEnd(run, id, waitCap, cap);
  }
}
