/** No job can be stranded: the reaper alone brings every job to an end once the deadlines are past. */
module JobDeadlines {
  import opened JobTable
  import opened JobLaws
  import opened JobProtocol
  import opened JobSafety
  import opened JobRetries

  ghost predicate PastDue(row: Row, now: int) {
    Past(row.queueDeadline, now) && (row.runDeadline.Some? ==> Past(row.runDeadline, now))
  }

  /** Nothing runs and nothing waits: the job is queued with its deadline past, or it is over. */
  ghost predicate Settling(s: Sys, id: RunId, now: int) {
    id in s.table && Past(s.table[id].queueDeadline, now) && (s.table[id].status == Queued || IsTerminal(s.table[id].status))
  }

  /** The first reap ends every job except those whose lapsed lease sends them back to the queue. */
  lemma ReapSettles(id: RunId, row: Row, now: int, o: ReapOpts)
    requires RowOk(id, row) && PastDue(row, now)
    ensures ReapRow(row, now, o).status == Queued || IsTerminal(ReapRow(row, now, o).status)
    ensures ReapRow(row, now, o).queueDeadline == row.queueDeadline
  {
  }

  lemma ReapEnds(row: Row, now: int, o: ReapOpts)
    requires Past(row.queueDeadline, now) && (row.status == Queued || IsTerminal(row.status))
    ensures IsTerminal(ReapRow(row, now, o).status)
  {
  }

  /** Only a claim takes a job out of the queue to run it. */
  lemma SettlingStep(s: Sys, l: Label, id: RunId, now: int)
    requires Settling(s, id, now) && !l.Claim?
    ensures Settling(Next(s, l), id, now)
  {
    hide Next, Apply, ReapRow, ListsOnce, Extends;
    RowsStep(s, l, id);
    TallyStep(s, l, id);
    TallyFields(s.table[id]);
    TallyFields(Next(s, l).table[id]);
    assert TallyNext(s, l, id).status == Queued || IsTerminal(TallyNext(s, l, id).status);
    assert Settling(Next(s, l), id, now);
  }

  lemma {:induction false} SettlingRun(s: Sys, run: seq<Label>, id: RunId, now: int)
    requires Settling(s, id, now) && forall l :: l in run ==> !l.Claim?
    ensures Settling(After(s, run), id, now)
  {
    hide Next, Settling;
    if run != [] {
      SettlingRun(s, run[..|run| - 1], id, now);
      SettlingStep(After(s, run[..|run| - 1]), run[|run| - 1], id, now);
    }
    assert Settling(After(s, run), id, now);
  }

  lemma ReapedTable(s: Sys, l: Label)
    requires Enabled(s, l) && l.ReapAll?
    ensures Next(s, l).table == Reap(s.table, l.at, l.o)
  {
  }

  /** From every reachable state, two reaps past all deadlines with no claim in between leave every job
      of that state terminal, whatever else happens in between and whatever the flag and caps. */
  lemma NoJobStranded(run: seq<Label>, first: Label, between: seq<Label>, second: Label, id: RunId)
    requires first.ReapAll? && Enabled(After(Start, run), first)
    requires id in After(Start, run).table && PastDue(After(Start, run).table[id], first.at)
    requires forall l :: l in between ==> !l.Claim?
    requires var later := After(Next(After(Start, run), first), between);
             second.ReapAll? && Enabled(later, second) && second.at >= first.at
    ensures Ended(Next(After(Next(After(Start, run), first), between), second), id)
  {
    hide Next, Enabled, ReapRow, RowOk, IsTerminal, PastDue;
    var s := After(Start, run);
    var now := first.at;
    ReachableRows(run);
    ReapedTable(s, first);
    ReapSettles(id, s.table[id], now, first.o);
    var settled := Next(s, first);
    assert Past(s.table[id].queueDeadline, now) by { DueQueue(s.table[id], now); }
    assert Settling(settled, id, now);
    SettlingRun(settled, between, id, now);
    var later := After(settled, between);
    ReapedTable(later, second);
    ReapEnds(later.table[id], second.at, second.o);
    assert Ended(Next(later, second), id);
  }

  lemma DueQueue(row: Row, now: int)
    requires PastDue(row, now)
    ensures Past(row.queueDeadline, now)
  {
  }

  /** In any run, a step of the reaper changes a job only if, by its clock, a deadline of the job or its lease has
      passed. */
  lemma NoEarlyReap(s: Sys, l: Label, id: RunId)
    requires l.ReapAll? && id in s.table && id in Next(s, l).table && Next(s, l).table[id] != s.table[id]
    ensures var row := s.table[id];
            || (row.queueDeadline.Some? && l.at > row.queueDeadline.value)
            || (row.leaseExpiresAt.Some? && l.at > row.leaseExpiresAt.value)
            || (row.runDeadline.Some? && l.at > row.runDeadline.value)
  {
    hide Next, Enabled, ReapRow, Reaps;
    var row := s.table[id];
    if Enabled(s, l) {
      ReapedTable(s, l);
      if !(row.queueDeadline.Some? && l.at > row.queueDeadline.value) && !(row.leaseExpiresAt.Some? && l.at > row.leaseExpiresAt.value) &&
         !(row.runDeadline.Some? && l.at > row.runDeadline.value) {
        NothingDue(row, l.at, l.o);
        assert false;
      }
    } else {
      NotEnabled(s, l);
    }
  }
}
