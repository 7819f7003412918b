/** What the store calls mean, said of the columns of the rows alone: clocks are compared as integers. */
module JobLaws {
  import opened Basics
  import opened JobTable

  // ---------------------------------------------------------------- the lifecycle

  /** A status is terminal exactly when nothing leads out of it; every live job can be canceled; only queued
      jobs start, and only running ones complete, are parked or are charged. */
  lemma Lifecycle(s: Status)
    ensures IsTerminal(s) <==> forall to :: !CanTransition(s, to)
    ensures !IsTerminal(s) ==> CanTransition(s, Canceled) && !CanTransition(s, Accepted)
    ensures CanTransition(s, Running) <==> s == Queued || s == Running
    ensures CanTransition(s, Completed) <==> s == Running
    ensures CanTransition(s, Waiting) <==> s == Running
    ensures CanTransition(s, Expired) <==> s == Accepted || s == Queued
    ensures CanTransition(s, Queued) <==> s == Accepted || s == Running || s == Waiting
    ensures CanTransition(s, Failed) <==> s == Running || s == Waiting
    ensures CanTransition(s, TimedOut) <==> s == Running || s == Waiting
  {
    assert IsTerminal(s) || CanTransition(s, Canceled);
  }

  // ---------------------------------------------------------------- reaping, by the clock

  /** The row became terminal at `now` under the code; its other columns are as before. */
  ghost predicate EndedAs(row: Row, r: Row, to: Status, code: Code, now: int) {
    r.status == to && r.timeline == row.timeline + [Entry(to, now)] && r.notes.terminalAt == Some(now) && r.notes.terminalCode == Some(code) &&
    r.notes.result == row.notes.result && r.attempts == row.attempts && r.waits == row.waits && r.charged == row.charged &&
    r.queuedAt == row.queuedAt && r.runDeadline == row.runDeadline && r.leasedBy == row.leasedBy && r.runId == row.runId
  }

  /** The row went back to the queue at `now` without its lease; attempts are not charged. */
  ghost predicate SentBack(row: Row, r: Row, now: int) {
    r.status == Queued && r.timeline == row.timeline + [Entry(Queued, now)] && r.queuedAt == Some(now) && r.leasedBy.None? &&
    r.leaseExpiresAt.None? && r.attempts == row.attempts && r.runDeadline == row.runDeadline && r.queueDeadline == row.queueDeadline &&
    r.notes == row.notes && r.runId == row.runId
  }

  /** A reap at a time at which no deadline of the row and no lease has passed leaves the row alone. */
  lemma NothingDue(row: Row, now: int, o: ReapOpts)
    requires row.queueDeadline.Some? ==> now <= row.queueDeadline.value
    requires row.leaseExpiresAt.Some? ==> now <= row.leaseExpiresAt.value
    requires row.runDeadline.Some? ==> now <= row.runDeadline.value
    ensures ReapRow(row, now, o) == row && !Reaps(row, now, o)
  {
  }

  /** A job that has not started expires exactly when its queue deadline has passed. */
  lemma QueueDeadlineLaw(row: Row, now: int, o: ReapOpts)
    requires row.status == Queued || row.status == Accepted
    ensures var r := ReapRow(row, now, o);
            if row.queueDeadline.Some? && now > row.queueDeadline.value then EndedAs(row, r, Expired, QueueDeadlineExceeded, now) else r == row
  {
  }

  /** A running job whose lease has passed: a crash before the attempt was charged counts as a compute wait,
      any other against the attempts; the row fails when its count is used up and goes back otherwise. */
  lemma LeaseLaw(row: Row, now: int, o: ReapOpts)
    requires row.status == Running && row.leaseExpiresAt.Some? && now > row.leaseExpiresAt.value
    ensures var r := ReapRow(row, now, o);
            if o.coalesce && row.charged == Some(false) then
              if row.waits >= o.waitCap then EndedAs(row, r, Failed, ComputeWaitExhausted, now)
              else SentBack(row, r, now) && r.waits == row.waits + 1 && r.charged == row.charged
            else
              if row.attempts >= o.maxAttempts then EndedAs(row, r, Failed, LeaseExpired, now)
              else SentBack(row, r, now) && r.waits == row.waits && r.charged == if o.coalesce then Some(false) else row.charged
  {
  }

  /** A running job with a lease still good, or a parked one, times out exactly when its run deadline has passed. */
  lemma RunDeadlineLaw(row: Row, now: int, o: ReapOpts)
    requires row.status == Waiting || (row.status == Running && (row.leaseExpiresAt.Some? ==> now <= row.leaseExpiresAt.value))
    ensures var r := ReapRow(row, now, o);
            if row.runDeadline.Some? && now > row.runDeadline.value then EndedAs(row, r, TimedOut, RunDeadlineExceeded, now) else r == row
  {
  }

  // ---------------------------------------------------------------- claiming and waking

  /** A claim starts the run clock, extends the timeline and, with a lease, charges the attempt unless the charge
      is deferred; the place in the queue and the compute waits stay. */
  lemma ClaimLaw(row: Row, now: int, lease: Option<Lease>, coalesce: bool, clears: bool)
    requires row.status == Queued
    ensures var r := ClaimRow(row, now, lease, coalesce, clears);
            r.status == Running && r.runDeadline == Some(now + row.runTimeout) && r.notes.startedAt == Some(now) &&
            r.timeline == row.timeline + [Entry(Running, now)] && r.queuedAt == row.queuedAt && r.waits == row.waits && r.charged == row.charged &&
            (lease.Some? ==> r.leasedBy == Some(lease.value.worker) && r.leaseExpiresAt == Some(now + lease.value.ttl)) &&
            r.attempts == row.attempts + if lease.Some? && !coalesce then 1 else 0
  {
  }

  /** A woken follower keeps its place in the queue and its counters; its next attempt is uncharged. */
  lemma WakeLaw(row: Row, reason: Name, now: int)
    requires row.status == Waiting
    ensures var r := Woken(row, reason, now);
            r.status == Queued && r.queuedAt == row.queuedAt && r.acceptedAt == row.acceptedAt && r.charged == Some(false) &&
            r.notes.wakeReason == Some(reason) && r.attempts == row.attempts && r.waits == row.waits && r.runDeadline == row.runDeadline &&
            r.timeline == row.timeline + [Entry(Queued, now)]
  {
  }

  /** A column takes the value given for it, or stays. */
  predicate Takes<T(==)>(given: Option<T>, before: Option<T>, after: Option<T>) {
    if given.Some? then after == given else after == before
  }

  /** A transition changes exactly the columns its patch names, the status, and the timeline by at most one entry. */
  lemma PatchLaw(row: Row, to: Status, p: Patch)
    ensures var r := Apply(row, to, p);
            r.status == to &&
            Takes(p.queuedAt, row.queuedAt, r.queuedAt) && Takes(p.runDeadline, row.runDeadline, r.runDeadline) &&
            Takes(p.computeIdentity, row.computeIdentity, r.computeIdentity) && Takes(p.charged, row.charged, r.charged) &&
            Takes(p.waits, Some(row.waits), Some(r.waits)) && Takes(p.attempts, Some(row.attempts), Some(r.attempts)) &&
            r.runId == row.runId && r.resumeToken == row.resumeToken && r.acceptedAt == row.acceptedAt &&
            r.queueDeadline == row.queueDeadline && r.runTimeout == row.runTimeout && r.leasedBy == row.leasedBy &&
            r.leaseExpiresAt == row.leaseExpiresAt
    ensures var n := Apply(row, to, p).notes;
            Takes(p.notes.startedAt, row.notes.startedAt, n.startedAt) &&
            Takes(p.notes.terminalAt, row.notes.terminalAt, n.terminalAt) &&
            Takes(p.notes.lastActivity, row.notes.lastActivity, n.lastActivity) &&
            Takes(p.notes.result, row.notes.result, n.result) &&
            Takes(p.notes.datasetFingerprint, row.notes.datasetFingerprint, n.datasetFingerprint) &&
            Takes(p.notes.terminalCode, row.notes.terminalCode, n.terminalCode) &&
            Takes(p.notes.terminalIssues, row.notes.terminalIssues, n.terminalIssues) &&
            Takes(p.notes.dedupedFrom, row.notes.dedupedFrom, n.dedupedFrom) &&
            Takes(p.notes.wakeReason, row.notes.wakeReason, n.wakeReason)
    ensures Apply(row, to, p).timeline ==
            if row.status == to then row.timeline else row.timeline + [Entry(if to == Waiting then Running else to, p.at)]
  {
  }

  /** A submitted job is accepted: not yet queued, unleased, uncharged, with its own deadlines. */
  lemma FreshLaw(job: NewJob)
    ensures var r := FreshRow(job);
            r.runId == job.runId && r.resumeToken == job.resumeToken && r.acceptedAt == job.acceptedAt && r.status == Accepted &&
            r.queueDeadline == job.queueDeadline && r.runTimeout == job.runTimeout && r.attempts == 0 && r.waits == 0 &&
            r.queuedAt.None? && r.runDeadline.None? && r.leasedBy.None? && r.leaseExpiresAt.None? && r.charged.None? &&
            r.timeline == [Entry(Accepted, job.acceptedAt)] && r.notes.result.None? && r.notes.terminalCode.None?
  {
  }

  /** A renewed lease holds until the new expiry and no longer; other workers' jobs and jobs that do not run are untouched. */
  lemma RenewLaw(row: Row, worker: Name, until: int, now: int, o: ReapOpts)
    requires row.runDeadline.Some? ==> now <= row.runDeadline.value
    ensures row.status == Running && row.leasedBy == Some(worker) ==>
              (ReapRow(RenewRow(row, worker, until), now, o) == RenewRow(row, worker, until) <==> now <= until) &&
              RenewRow(row, worker, until).(leaseExpiresAt := row.leaseExpiresAt) == row
    ensures row.status != Running || row.leasedBy != Some(worker) ==> RenewRow(row, worker, until) == row
  {
  }

  // ---------------------------------------------------------------- the queue, by its columns

  /** The column the queue is ordered by is not larger, and at equality neither is the run id. */
  ghost predicate NoLater(a: Row, b: Row) {
    match (a.queuedAt, b.queuedAt)
    case (Some(x), Some(y)) => x < y || (x == y && !Precedes(b.runId.text, a.runId.text))
    case (Some(x), None) => x < b.acceptedAt || (x == b.acceptedAt && !Precedes(b.runId.text, a.runId.text))
    case (None, Some(y)) => a.acceptedAt < y || (a.acceptedAt == y && !Precedes(b.runId.text, a.runId.text))
    case (None, None) => a.acceptedAt < b.acceptedAt || (a.acceptedAt == b.acceptedAt && !Precedes(b.runId.text, a.runId.text))
  }

  /** Comparing texts by code units: at the first difference the smaller unit, or the end, comes first. */
  ghost predicate Precedes(a: string, b: string) {
    exists i :: 0 <= i <= |a| && i <= |b| && a[..i] == b[..i] && i < |b| && (i == |a| || a[i] < b[i])
  }

  lemma {:induction false} TextLessMeans(a: string, b: string)
    ensures TextLess(a, b) <==> Precedes(a, b)
  {
    if a != "" && b != "" && a[0] == b[0] {
      TextLessMeans(a[1..], b[1..]);
      if Precedes(a[1..], b[1..]) {
        var i :| 0 <= i <= |a[1..]| && i <= |b[1..]| && a[1..][..i] == b[1..][..i] && i < |b[1..]| && (i == |a[1..]| || a[1..][i] < b[1..][i]);
        assert a[..i + 1] == [a[0]] + a[1..][..i] && b[..i + 1] == [b[0]] + b[1..][..i];
        assert i + 1 <= |a| && i + 1 < |b|;
      }
      if Precedes(a, b) {
        var i :| 0 <= i <= |a| && i <= |b| && a[..i] == b[..i] && i < |b| && (i == |a| || a[i] < b[i]);
        assert i > 0;
        assert a[1..][..i - 1] == a[..i][1..] && b[1..][..i - 1] == b[..i][1..];
      }
    } else {
      if TextLess(a, b) {
        assert a[..0] == b[..0];
      }
      if Precedes(a, b) {
        var i :| 0 <= i <= |a| && i <= |b| && a[..i] == b[..i] && i < |b| && (i == |a| || a[i] < b[i]);
        assert i > 0 ==> a[..i][0] == b[..i][0];
      }
    }
  }

  lemma NotBeforeByColumns(a: Row, b: Row)
    requires !Before(a, b)
    ensures NoLater(b, a)
  {
    TextLessMeans(a.runId.text, b.runId.text);
  }

  /** The head of the queue comes no later than any queued job. */
  lemma HeadByColumns(table: Table, id: RunId, other: RunId)
    requires HeadOf(table, id) && other in table && table[other].status == Queued
    ensures NoLater(table[id], table[other])
  {
    NotBeforeByColumns(table[other], table[id]);
  }
}
