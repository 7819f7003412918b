/** Workers, reapers, the wake step, submitters and cancels taking turns on one job table: one store
    call per step, in any order. */
module JobProtocol {
  import opened Basics
  import opened JobTable
  import opened JobStores

  /** A terminal completion event, or the intention to publish one. */
  datatype Notice = Notice(runId: RunId, status: Status)

  /** An activity between two of its store calls. A worker remembers the counters of the row it
      claimed; a publisher has the notices it still owes. */
  datatype Task =
    | Working(worker: Option<Name>, runId: RunId, attempts: int, waits: int, coalesce: bool, charged: bool)
    | Committed(runId: RunId)
    | Publishing(todo: seq<Notice>)

  datatype Sys = Sys(table: Table, tasks: map<nat, Task>, events: seq<Notice>)

  const Start: Sys := Sys(map[], map[], [])

  datatype Label =
    | Submit(job: NewJob)
    | Enqueue(runId: RunId, at: int)
    | Claim(task: nat, runId: RunId, at: int, lease: Option<Lease>, coalesce: bool, clearsLease: bool)
    | Charge(task: nat, at: int)
    | Defer(task: nat, identity: Name, at: int)
    | Commit(task: nat, to: Status, at: int, notes: Notes)
    | Reread(task: nat)
    | Publish(task: nat)
    | Drop(task: nat)
    | ReapAll(task: nat, at: int, o: ReapOpts, order: seq<RunId>)
    | ReleaseAll(identity: Name, reason: Name, at: int)
    | Elect(runId: RunId, identity: Name, reason: Name, at: int)
    | Poison(task: nat, runId: RunId, at: int)
    | Cancel(runId: RunId, from: Status, at: int)
    | RenewAll(worker: Name, until: int)

  /** The order in which a reap hands over the rows it ended: each once. */
  ghost predicate ListsOnce(order: seq<RunId>, ids: set<RunId>) {
    (forall i :: 0 <= i < |order| ==> order[i] in ids) && (forall id :: id in ids ==> id in order) &&
    forall i, j :: 0 <= i < j < |order| ==> order[i] != order[j]
  }

  predicate CanCharge(s: Sys, k: nat) {
    k in s.tasks && s.tasks[k].Working? && s.tasks[k].coalesce && !s.tasks[k].charged
  }

  /** Attempts are charged and followers parked only by workers that claimed under coalescing, which
      takes a lease; run ids are fresh and a submitted job always has a queue deadline. */
  ghost predicate Enabled(s: Sys, l: Label) {
    match l
    case Submit(job) => job.runId !in s.table && job.queueDeadline.Some?
    case Claim(k, r, _, lease, coalesce, _) =>
      k !in s.tasks && r in s.table && s.table[r].status == Queued && (coalesce ==> lease.Some?)
    case Charge(k, _) => CanCharge(s, k)
    case Defer(k, _, _) => CanCharge(s, k)
    case Commit(k, to, _, _) => k in s.tasks && s.tasks[k].Working? && to in {Completed, Failed, TimedOut}
    case Reread(k) => k in s.tasks && s.tasks[k].Committed? && s.tasks[k].runId in s.table
    case Publish(k) => k in s.tasks && s.tasks[k].Publishing? && s.tasks[k].todo != []
    case Drop(k) => k in s.tasks
    case ReapAll(k, at, o, order) => k !in s.tasks && ListsOnce(order, EndedIds(s.table, at, o))
    case Elect(r, identity, _, _) => r in s.table && Waits(s.table[r], identity)
    case Poison(k, _, _) => k !in s.tasks
    case _ => true
  }

  // ---------------------------------------------------------------- the store call of each step

  function ChargePatch(w: Task, at: int): Patch
    requires w.Working?
  {
    NoChange(at).(attempts := Some(w.attempts + 1), charged := Some(true))
  }

  function DeferPatch(w: Task, identity: Name, at: int): Patch
    requires w.Working?
  {
    NoChange(at).(computeIdentity := Some(identity), waits := Some(w.waits + 1), charged := Some(false))
  }

  ghost function TableNext(s: Sys, l: Label): Table
    requires Enabled(s, l)
  {
    match l
    case Submit(job) => s.table[job.runId := FreshRow(job)]
    case Enqueue(r, at) => Transition(s.table, r, Accepted, Queued, NoChange(at).(queuedAt := Some(at)), None)
    case Claim(_, r, at, lease, coalesce, clears) => s.table[r := ClaimRow(s.table[r], at, lease, coalesce, clears)]
    case Charge(k, at) => Transition(s.table, s.tasks[k].runId, Running, Running, ChargePatch(s.tasks[k], at), s.tasks[k].worker)
    case Defer(k, identity, at) =>
      Transition(s.table, s.tasks[k].runId, Running, Waiting, DeferPatch(s.tasks[k], identity, at), s.tasks[k].worker)
    case Commit(k, to, at, notes) =>
      Transition(s.table, s.tasks[k].runId, Running, to, NoChange(at).(notes := notes), s.tasks[k].worker)
    case ReapAll(_, at, o, _) => Reap(s.table, at, o)
    case ReleaseAll(identity, reason, at) => Release(s.table, identity, reason, at)
    case Elect(r, _, reason, at) => s.table[r := Woken(s.table[r], reason, at)]
    case Poison(_, r, at) => Transition(s.table, r, Waiting, Failed, ClosePatch(at, ComputeWaitExhausted), None)
    case Cancel(r, from, at) => Transition(s.table, r, from, Canceled, ClosePatch(at, CanceledByCaller), None)
    case RenewAll(worker, until) => Renew(s.table, worker, until)
    case _ => s.table
  }

  // ---------------------------------------------------------------- the rest of the state

  function WorkerOf(lease: Option<Lease>): Option<Name> {
    if lease.Some? then Some(lease.value.worker) else None
  }

  /** Whether the worker's guarded terminal write goes through. */
  predicate Commits(s: Sys, k: nat, to: Status)
    requires k in s.tasks && s.tasks[k].Working?
  {
    Admits(s.table, s.tasks[k].runId, Running, to, s.tasks[k].worker)
  }

  function Closing(table: Table, order: seq<RunId>): seq<Notice>
    requires forall i :: 0 <= i < |order| ==> order[i] in table
  {
    seq(|order|, i requires 0 <= i < |order| => Notice(order[i], table[order[i]].status))
  }

  ghost function TasksNext(s: Sys, l: Label): map<nat, Task>
    requires Enabled(s, l)
  {
    match l
    case Claim(k, r, _, lease, coalesce, _) =>
      var row := TableNext(s, l)[r];
      s.tasks[k := Working(WorkerOf(lease), r, row.attempts, row.waits, coalesce, false)]
    case Charge(k, _) => s.tasks[k := s.tasks[k].(charged := true)]
    case Defer(k, _, _) => s.tasks - {k}
    case Commit(k, to, _, _) => if Commits(s, k, to) then s.tasks[k := Committed(s.tasks[k].runId)] else s.tasks - {k}
    case Reread(k) => s.tasks[k := Publishing([Notice(s.tasks[k].runId, s.table[s.tasks[k].runId].status)])]
    case Publish(k) => s.tasks[k := Publishing(s.tasks[k].todo[1..])]
    case Drop(k) => s.tasks - {k}
    case ReapAll(k, at, o, order) => s.tasks[k := Publishing(Closing(Reap(s.table, at, o), order))]
    case Poison(k, r, _) =>
      if Admits(s.table, r, Waiting, Failed, None) then s.tasks[k := Publishing([Notice(r, Failed)])] else s.tasks
    case _ => s.tasks
  }

  /** `publishCompletion` does nothing for a row that is not terminal. */
  ghost function EventsNext(s: Sys, l: Label): seq<Notice>
    requires Enabled(s, l)
  {
    match l
    case Publish(k) =>
      var notice := s.tasks[k].todo[0];
      if IsTerminal(notice.status) then s.events + [notice] else s.events
    case _ => s.events
  }

  /** A step that is not enabled does nothing, so every sequence of labels is a run. */
  ghost function Next(s: Sys, l: Label): Sys {
    if Enabled(s, l) then Sys(TableNext(s, l), TasksNext(s, l), EventsNext(s, l)) else s
  }

  ghost function After(s: Sys, run: seq<Label>): Sys {
    if run == [] then s else Next(After(s, run[..|run| - 1]), run[|run| - 1])
  }

  // ---------------------------------------------------------------- what a step may do to a row

  ghost predicate Extends(a: Row, b: Row) {
    if a.status == b.status then b.timeline == a.timeline
    else |b.timeline| == |a.timeline| + 1 && b.timeline[..|a.timeline|] == a.timeline && b.timeline[|a.timeline|].status == Public(b.status)
  }

  ghost predicate RowStep(a: Row, b: Row) {
    b.runId == a.runId && b.queueDeadline == a.queueDeadline &&
    (IsTerminal(a.status) ==> b == a) &&
    (b.status == a.status || CanTransition(a.status, b.status)) &&
    Extends(a, b) &&
    (b.status in {Running, Waiting} ==> b.runDeadline.Some? || (a.status in {Running, Waiting} && b.runDeadline == a.runDeadline))
  }

  lemma ApplySteps(row: Row, to: Status, p: Patch)
    requires CanTransition(row.status, to)
    requires to == Running && row.status == Queued ==> p.runDeadline.Some?
    ensures RowStep(row, Apply(row, to, p))
  {
  }

  lemma TransitionSteps(table: Table, r: RunId, from: Status, to: Status, p: Patch, holder: Option<Name>, id: RunId)
    requires id in table && (to == Running ==> from != Queued)
    ensures id in Transition(table, r, from, to, p, holder)
    ensures RowStep(table[id], Transition(table, r, from, to, p, holder)[id])
  {
    hide CanTransition, Apply;
    if r == id && Admits(table, r, from, to, holder) {
      ApplySteps(table[id], to, p);
    } else {
      Stutters(table[id]);
    }
    assert RowStep(table[id], Transition(table, r, from, to, p, holder)[id]);
  }

  lemma Stutters(row: Row)
    ensures RowStep(row, row)
  {
  }

  lemma ClaimSteps(row: Row, at: int, lease: Option<Lease>, coalesce: bool, clears: bool)
    requires row.status == Queued
    ensures RowStep(row, ClaimRow(row, at, lease, coalesce, clears))
  {
  }

  lemma ReapSteps(row: Row, at: int, o: ReapOpts)
    ensures RowStep(row, ReapRow(row, at, o))
  {
  }

  lemma WakeSteps(row: Row, reason: Name, at: int)
    requires row.status == Waiting
    ensures RowStep(row, Woken(row, reason, at))
  {
  }

  lemma RenewSteps(row: Row, worker: Name, until: int)
    ensures RowStep(row, RenewRow(row, worker, until))
  {
  }

  /** Every step of the system moves every row along the lifecycle, or not at all. */
  lemma RowsStep(s: Sys, l: Label, id: RunId)
    requires id in s.table
    ensures id in Next(s, l).table && RowStep(s.table[id], Next(s, l).table[id])
  {
    hide RowStep, CanTransition, Apply, ClaimRow, ReapRow, RenewRow, Woken, FreshRow, Transition, ListsOnce;
    var row := s.table[id];
    Stutters(row);
    if Enabled(s, l) {
      var t := TableNext(s, l);
      assert Next(s, l).table == t;
      match l
      case Enqueue(r, at) => TransitionSteps(s.table, r, Accepted, Queued, NoChange(at).(queuedAt := Some(at)), None, id);
      case Claim(_, r, at, lease, coalesce, clears) => if r == id { ClaimSteps(row, at, lease, coalesce, clears); }
      case Charge(k, at) => TransitionSteps(s.table, s.tasks[k].runId, Running, Running, ChargePatch(s.tasks[k], at), s.tasks[k].worker, id);
      case Defer(k, identity, at) => TransitionSteps(s.table, s.tasks[k].runId, Running, Waiting, DeferPatch(s.tasks[k], identity, at), s.tasks[k].worker, id);
      case Commit(k, to, at, notes) => TransitionSteps(s.table, s.tasks[k].runId, Running, to, NoChange(at).(notes := notes), s.tasks[k].worker, id);
      case ReapAll(_, at, o, _) => ReapSteps(row, at, o);
      case ReleaseAll(identity, reason, at) => if Waits(row, identity) { WakeSteps(row, reason, at); }
      case Elect(r, _, reason, at) => if r == id { WakeSteps(row, reason, at); }
      case Poison(_, r, at) => TransitionSteps(s.table, r, Waiting, Failed, ClosePatch(at, ComputeWaitExhausted), None, id);
      case Cancel(r, from, at) => TransitionSteps(s.table, r, from, Canceled, ClosePatch(at, CanceledByCaller), None, id);
      case RenewAll(worker, until) => RenewSteps(row, worker, until);
      case _ =>
      assert id in t && RowStep(row, t[id]);
    }
    assert id in Next(s, l).table && RowStep(s.table[id], Next(s, l).table[id]);
  }
}
