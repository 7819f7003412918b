/** What holds in every reachable state of the job protocol, whatever the interleaving. */
module JobSafety {
  import opened Basics
  import opened JobTable
  import opened JobStores
  import opened JobProtocol

  // ---------------------------------------------------------------- rows

  /** The last public timeline entry tells the status, the internal waiting status never appears, and
      the deadlines the reaper relies on are set. */
  ghost predicate RowOk(id: RunId, row: Row) {
    row.runId == id && row.queueDeadline.Some? && (row.status in {Running, Waiting} ==> row.runDeadline.Some?) &&
    |row.timeline| > 0 && row.timeline[|row.timeline| - 1].status == Public(row.status) &&
    forall k :: 0 <= k < |row.timeline| ==> row.timeline[k].status != Waiting
  }

  ghost predicate RowsOk(s: Sys) {
    forall id :: id in s.table ==> RowOk(id, s.table[id])
  }

  lemma FreshOk(job: NewJob)
    requires job.queueDeadline.Some?
    ensures RowOk(job.runId, FreshRow(job)) && FreshRow(job).status == Accepted
  {
  }

  lemma StepOk(id: RunId, a: Row, b: Row)
    requires RowOk(id, a) && RowStep(a, b)
    ensures RowOk(id, b)
  {
  }

  /** A row that was not there is a fresh submission. */
  lemma NewRow(s: Sys, l: Label, id: RunId)
    requires id !in s.table && id in Next(s, l).table
    ensures Enabled(s, l) && l.Submit? && l.job.runId == id && l.job.queueDeadline.Some? && Next(s, l).table[id] == FreshRow(l.job)
  {
  }

  lemma NextOk(s: Sys, l: Label)
    requires RowsOk(s)
    ensures RowsOk(Next(s, l))
  {
    hide RowOk, RowStep, Next, Enabled;
    forall id | id in Next(s, l).table ensures RowOk(id, Next(s, l).table[id]) {
      if id in s.table {
        RowsStep(s, l, id);
        StepOk(id, s.table[id], Next(s, l).table[id]);
      } else {
        NewRow(s, l, id);
        FreshOk(l.job);
      }
    }
    assert RowsOk(Next(s, l));
  }

  /** In every reachable state the timeline of every row ends in the public form of its status. */
  lemma {:induction false} ReachableRows(run: seq<Label>)
    ensures RowsOk(After(Start, run))
  {
    hide Next, RowOk;
    if run != [] {
      ReachableRows(run[..|run| - 1]);
      NextOk(After(Start, run[..|run| - 1]), run[|run| - 1]);
    }
    assert RowsOk(After(Start, run));
  }

  // ---------------------------------------------------------------- terminal rows

  ghost predicate Ended(s: Sys, id: RunId) {
    id in s.table && IsTerminal(s.table[id].status)
  }

  lemma StepKeepsEnded(s: Sys, l: Label, id: RunId)
    requires Ended(s, id)
    ensures Ended(Next(s, l), id) && Next(s, l).table[id] == s.table[id]
  {
    hide Next, Extends, CanTransition;
    RowsStep(s, l, id);
    assert Ended(Next(s, l), id);
  }

  /** Once terminal, a row never changes again: neither status nor result nor code. */
  lemma {:induction false} TerminalIsFinal(s: Sys, run: seq<Label>, id: RunId)
    requires Ended(s, id)
    ensures Ended(After(s, run), id) && After(s, run).table[id] == s.table[id]
  {
    hide Next, IsTerminal;
    if run != [] {
      TerminalIsFinal(s, run[..|run| - 1], id);
      StepKeepsEnded(After(s, run[..|run| - 1]), run[|run| - 1], id);
    }
    assert Ended(After(s, run), id);
  }

  /** How many steps of the run took the job from a live status to a terminal one. */
  ghost function Endings(s: Sys, run: seq<Label>, id: RunId): nat {
    if run == [] then 0 else
      var before := After(s, run[..|run| - 1]);
      Endings(s, run[..|run| - 1], id) + if !Ended(before, id) && Ended(Next(before, run[|run| - 1]), id) then 1 else 0
  }

  /** At most one terminal transition per job succeeds, and exactly one if the job is terminal. */
  lemma {:induction false} EndsOnce(run: seq<Label>, id: RunId)
    ensures Endings(Start, run, id) == if Ended(After(Start, run), id) then 1 else 0
  {
    hide Next, IsTerminal;
    if run != [] {
      var before := After(Start, run[..|run| - 1]);
      EndsOnce(run[..|run| - 1], id);
      if Ended(before, id) {
        StepKeepsEnded(before, run[|run| - 1], id);
      }
    }
    assert Endings(Start, run, id) == if Ended(After(Start, run), id) then 1 else 0;
  }

  /** A worker's terminal write changes no row but its own, and that one only while it runs under the
      worker's lease. */
  lemma TerminalWriteNeedsLease(s: Sys, k: nat, to: Status, at: int, notes: Notes, id: RunId)
    requires Enabled(s, Commit(k, to, at, notes)) && id in s.table
    ensures var w := s.tasks[k];
            id in Next(s, Commit(k, to, at, notes)).table &&
            (Next(s, Commit(k, to, at, notes)).table[id] != s.table[id] <==>
             id == w.runId && s.table[id].status == Running && (w.worker.Some? ==> s.table[id].leasedBy == w.worker))
  {
  }

  // ---------------------------------------------------------------- completion events

  /** The activity still owes (or is about to owe) a notice about this run. */
  ghost predicate Owes(t: Task, id: RunId) {
    (t.Committed? && t.runId == id) || (t.Publishing? && exists i :: 0 <= i < |t.todo| && t.todo[i].runId == id)
  }

  /** Notices are about different runs, each ended with the status the notice tells. */
  ghost predicate Truthful(table: Table, notices: seq<Notice>) {
    (forall i, j :: 0 <= i < j < |notices| ==> notices[i].runId != notices[j].runId) &&
    forall i :: 0 <= i < |notices| ==>
      notices[i].runId in table && IsTerminal(notices[i].status) && table[notices[i].runId].status == notices[i].status
  }

  ghost predicate Told(events: seq<Notice>, id: RunId) {
    exists i :: 0 <= i < |events| && events[i].runId == id
  }

  ghost predicate TasksTruthful(s: Sys) {
    forall k :: k in s.tasks && s.tasks[k].Publishing? ==> Truthful(s.table, s.tasks[k].todo)
  }

  /** Whoever owes a notice about a run ended it, nobody else owes one, and none was published. */
  ghost predicate OwedOnce(s: Sys) {
    forall k, id :: k in s.tasks && Owes(s.tasks[k], id) ==>
      Ended(s, id) && !Told(s.events, id) && forall j :: j in s.tasks && Owes(s.tasks[j], id) ==> j == k
  }

  ghost predicate EventsOk(s: Sys) {
    Truthful(s.table, s.events) && TasksTruthful(s) && OwedOnce(s)
  }

  /** Terminal rows do not change, so what was true of them stays true. */
  lemma TruthStays(s: Sys, l: Label, notices: seq<Notice>)
    requires Truthful(s.table, notices)
    ensures Truthful(Next(s, l).table, notices)
  {
    hide Next, IsTerminal;
    forall i | 0 <= i < |notices|
      ensures notices[i].runId in Next(s, l).table && Next(s, l).table[notices[i].runId].status == notices[i].status
    {
      StepKeepsEnded(s, l, notices[i].runId);
    }
    assert Truthful(Next(s, l).table, notices);
  }

  /** The activity acting in the step, if it has one. */
  function Actor(l: Label): Option<nat> {
    match l
    case Claim(k, _, _, _, _, _) => Some(k)
    case Charge(k, _) => Some(k)
    case Defer(k, _, _) => Some(k)
    case Commit(k, _, _, _) => Some(k)
    case Reread(k) => Some(k)
    case Publish(k) => Some(k)
    case Drop(k) => Some(k)
    case ReapAll(k, _, _, _) => Some(k)
    case Poison(k, _, _) => Some(k)
    case _ => None
  }

  /** Only the acting activity changes. */
  lemma OthersKeep(s: Sys, l: Label, k: nat)
    requires Actor(l) != Some(k)
    ensures k in Next(s, l).tasks <==> k in s.tasks
    ensures k in s.tasks ==> Next(s, l).tasks[k] == s.tasks[k]
  {
  }

  /** What the actor owes after the step it owed before, or this very step ended the run. */
  lemma OwesAfter(s: Sys, l: Label, k: nat, id: RunId)
    requires EventsOk(s) && Actor(l) == Some(k)
    requires k in Next(s, l).tasks && Owes(Next(s, l).tasks[k], id)
    ensures (k in s.tasks && Owes(s.tasks[k], id)) || (!Ended(s, id) && Ended(Next(s, l), id))
  {
    if !Enabled(s, l) { return; }
    if l.Commit? {
      CommitEnds(s, l, k, id);
    } else if l.ReapAll? {
      ReapEnds(s, l, k, id);
    } else if l.Poison? {
      PoisonEnds(s, l, k, id);
    } else {
      OwedBefore(s, l, k, id);
    }
  }

  lemma CommitEnds(s: Sys, l: Label, k: nat, id: RunId)
    requires Enabled(s, l) && l.Commit? && l.task == k
    requires k in Next(s, l).tasks && Owes(Next(s, l).tasks[k], id)
    ensures !Ended(s, id) && Ended(Next(s, l), id)
  {
  }

  lemma ReapEnds(s: Sys, l: Label, k: nat, id: RunId)
    requires Enabled(s, l) && l.ReapAll? && l.task == k
    requires k in Next(s, l).tasks && Owes(Next(s, l).tasks[k], id)
    ensures !Ended(s, id) && Ended(Next(s, l), id)
  {
    hide ReapRow, Reaps, IsTerminal;
    assert Next(s, l).tasks[k] == Publishing(Closing(Reap(s.table, l.at, l.o), l.order));
    var i :| 0 <= i < |l.order| && Closing(Reap(s.table, l.at, l.o), l.order)[i].runId == id;
    assert l.order[i] == id && id in EndedIds(s.table, l.at, l.o);
    ReapsMeansEnds(s.table[id], l.at, l.o);
    assert Next(s, l).table == Reap(s.table, l.at, l.o);
    assert !Ended(s, id) && Ended(Next(s, l), id);
  }

  lemma PoisonEnds(s: Sys, l: Label, k: nat, id: RunId)
    requires Enabled(s, l) && l.Poison? && l.task == k
    requires k in Next(s, l).tasks && Owes(Next(s, l).tasks[k], id)
    ensures !Ended(s, id) && Ended(Next(s, l), id)
  {
  }

  lemma OwedBefore(s: Sys, l: Label, k: nat, id: RunId)
    requires Enabled(s, l) && Actor(l) == Some(k) && !l.Commit? && !l.ReapAll? && !l.Poison?
    requires k in Next(s, l).tasks && Owes(Next(s, l).tasks[k], id)
    ensures k in s.tasks && Owes(s.tasks[k], id)
  {
  }

  lemma ToldAfter(s: Sys, l: Label, id: RunId)
    requires Told(Next(s, l).events, id) && !Told(s.events, id)
    ensures Enabled(s, l) && l.Publish? && s.tasks[l.task].todo[0].runId == id
  {
  }

  lemma NoLongerOwed(s: Sys, l: Label, id: RunId)
    requires EventsOk(s) && Enabled(s, l) && l.Publish? && s.tasks[l.task].todo[0].runId == id
    ensures !Owes(Next(s, l).tasks[l.task], id)
  {
  }

  lemma OwedOnceStep(s: Sys, l: Label, k: nat, id: RunId)
    requires EventsOk(s) && k in Next(s, l).tasks && Owes(Next(s, l).tasks[k], id)
    ensures Ended(Next(s, l), id) && !Told(Next(s, l).events, id)
    ensures forall j :: j in Next(s, l).tasks && Owes(Next(s, l).tasks[j], id) ==> j == k
  {
    hide Next, Owes, Truthful, TasksTruthful, Enabled;
    OwedAtLast(s, l, k, id);
    forall j | j in Next(s, l).tasks && Owes(Next(s, l).tasks[j], id) ensures j == k {
      OwedAtLast(s, l, j, id);
    }
    StillUntold(s, l, k, id);
    if Told(Next(s, l).events, id) {
      ToldAfter(s, l, id);
      NotRepublished(s, l, k, id);
    }
  }

  /** After a step, an activity owes a notice it owed before, or it is the actor and the run ended just now. */
  lemma OwedAtLast(s: Sys, l: Label, k: nat, id: RunId)
    requires EventsOk(s) && k in Next(s, l).tasks && Owes(Next(s, l).tasks[k], id)
    ensures Ended(Next(s, l), id)
    ensures (k in s.tasks && Owes(s.tasks[k], id) && Ended(s, id)) || (Actor(l) == Some(k) && !Ended(s, id))
  {
    hide Next, Owes, Truthful, TasksTruthful;
    if Actor(l) == Some(k) {
      OwesAfter(s, l, k, id);
    } else {
      OthersKeep(s, l, k);
    }
    if k in s.tasks && Owes(s.tasks[k], id) {
      assert Ended(s, id);
      StepKeepsEnded(s, l, id);
    }
  }

  lemma StillUntold(s: Sys, l: Label, k: nat, id: RunId)
    requires EventsOk(s) && k in Next(s, l).tasks && Owes(Next(s, l).tasks[k], id)
    ensures !Told(s.events, id)
  {
    hide Next, Owes;
    OwedAtLast(s, l, k, id);
    if !Ended(s, id) {
      Untold(s, id);
    }
  }

  lemma Untold(s: Sys, id: RunId)
    requires Truthful(s.table, s.events) && !Ended(s, id)
    ensures !Told(s.events, id)
  {
  }

  lemma NotRepublished(s: Sys, l: Label, k: nat, id: RunId)
    requires EventsOk(s) && k in Next(s, l).tasks && Owes(Next(s, l).tasks[k], id)
    requires Enabled(s, l) && l.Publish?
    ensures s.tasks[l.task].todo[0].runId != id
  {
    hide Next, TableNext, Truthful;
    var sent := s.tasks[l.task].todo[0].runId;
    assert Owes(s.tasks[l.task], sent);
    assert Ended(s, sent);
    OwedAtLast(s, l, k, id);
    NoLongerOwed(s, l, sent);
  }

  lemma NextEvents(s: Sys, l: Label)
    requires EventsOk(s)
    ensures Truthful(Next(s, l).table, Next(s, l).events)
  {
    hide Next;
    TruthStays(s, l, s.events);
    if Next(s, l).events != s.events {
      Published(s, l);
      var notice := s.tasks[l.task].todo[0];
      TruthStays(s, l, s.tasks[l.task].todo);
      assert Owes(s.tasks[l.task], notice.runId);
      forall i | 0 <= i < |s.events| ensures s.events[i].runId != notice.runId {
        assert s.events[i].runId == notice.runId ==> Told(s.events, notice.runId);
      }
    }
  }

  lemma Published(s: Sys, l: Label)
    requires Next(s, l).events != s.events
    ensures Enabled(s, l) && l.Publish? && Next(s, l).events == s.events + [s.tasks[l.task].todo[0]]
  {
  }

  /** A list the actor takes up tells the truth about rows ended before or in this very step. */
  lemma NextTodo(s: Sys, l: Label, k: nat)
    requires EventsOk(s) && k in Next(s, l).tasks && Next(s, l).tasks[k].Publishing?
    ensures Truthful(Next(s, l).table, Next(s, l).tasks[k].todo)
  {
    if Actor(l) != Some(k) || !Enabled(s, l) {
      hide Next, TableNext;
      if Enabled(s, l) { OthersKeep(s, l, k); } else { NotEnabled(s, l); }
      TruthStays(s, l, s.tasks[k].todo);
      assert Truthful(Next(s, l).table, Next(s, l).tasks[k].todo);
    } else if l.Publish? {
      PublishTodo(s, l);
    } else if l.Reread? {
      RereadTodo(s, l);
    } else if l.ReapAll? {
      ReapTodo(s, l);
    } else {
      PoisonTodo(s, l);
    }
  }

  lemma NotEnabled(s: Sys, l: Label)
    requires !Enabled(s, l)
    ensures Next(s, l) == s
  {
  }

  lemma PublishTodo(s: Sys, l: Label)
    requires EventsOk(s) && Enabled(s, l) && l.Publish?
    ensures Truthful(Next(s, l).table, Next(s, l).tasks[l.task].todo)
  {
  }

  lemma RereadTodo(s: Sys, l: Label)
    requires EventsOk(s) && Enabled(s, l) && l.Reread?
    ensures Truthful(Next(s, l).table, Next(s, l).tasks[l.task].todo)
  {
    var id := s.tasks[l.task].runId;
    assert Owes(s.tasks[l.task], id);
    assert Ended(s, id);
    assert Next(s, l).table == s.table && Next(s, l).tasks[l.task].todo == [Notice(id, s.table[id].status)];
  }

  lemma ReapTodo(s: Sys, l: Label)
    requires EventsOk(s) && Enabled(s, l) && l.ReapAll?
    ensures Truthful(Next(s, l).table, Next(s, l).tasks[l.task].todo)
  {
    hide ReapRow, IsTerminal, EventsOk;
    var table, todo := Reap(s.table, l.at, l.o), Closing(Reap(s.table, l.at, l.o), l.order);
    assert Next(s, l).table == table && Next(s, l).tasks[l.task] == Publishing(todo);
    forall i | 0 <= i < |todo| ensures todo[i].runId == l.order[i] && todo[i].runId in table && IsTerminal(todo[i].status) && table[todo[i].runId].status == todo[i].status {
      ReapsMeansEnds(s.table[l.order[i]], l.at, l.o);
    }
    assert Truthful(table, todo);
  }

  lemma PoisonTodo(s: Sys, l: Label)
    requires EventsOk(s) && Enabled(s, l) && l.Poison? && l.task in Next(s, l).tasks && Next(s, l).tasks[l.task].Publishing?
    ensures Truthful(Next(s, l).table, Next(s, l).tasks[l.task].todo)
  {
  }

  lemma NextEventsOk(s: Sys, l: Label)
    requires EventsOk(s)
    ensures EventsOk(Next(s, l))
  {
    hide Next, Truthful, Owes, Ended, Told;
    NextEvents(s, l);
    forall k | k in Next(s, l).tasks && Next(s, l).tasks[k].Publishing? ensures Truthful(Next(s, l).table, Next(s, l).tasks[k].todo) {
      NextTodo(s, l, k);
    }
    forall k, id | k in Next(s, l).tasks && Owes(Next(s, l).tasks[k], id)
      ensures Ended(Next(s, l), id) && !Told(Next(s, l).events, id)
      ensures forall j :: j in Next(s, l).tasks && Owes(Next(s, l).tasks[j], id) ==> j == k
    {
      OwedOnceStep(s, l, k, id);
    }
    assert EventsOk(Next(s, l));
  }

  lemma {:induction false} ReachableEvents(run: seq<Label>)
    ensures EventsOk(After(Start, run))
  {
    hide Next, EventsOk;
    if run == [] {
      NothingOwed();
    } else {
      ReachableEvents(run[..|run| - 1]);
      NextEventsOk(After(Start, run[..|run| - 1]), run[|run| - 1]);
    }
    assert EventsOk(After(Start, run));
  }

  lemma NothingOwed()
    ensures EventsOk(Start)
  {
  }

  /** At most one completion event per run is ever published, and it tells the run's final status. */
  lemma OneEventPerRun(run: seq<Label>, later: seq<Label>)
    ensures var s := After(Start, run);
            forall i, j :: 0 <= i < j < |s.events| ==> s.events[i].runId != s.events[j].runId
    ensures var s, end := After(Start, run), After(After(Start, run), later);
            forall i :: 0 <= i < |s.events| ==>
              Ended(end, s.events[i].runId) && end.table[s.events[i].runId].status == s.events[i].status
  {
    var s := After(Start, run);
    ReachableEvents(run);
    forall i | 0 <= i < |s.events|
      ensures Ended(After(s, later), s.events[i].runId) && After(s, later).table[s.events[i].runId].status == s.events[i].status
    {
      TerminalIsFinal(s, later, s.events[i].runId);
    }
  }
}
