/** Job rows and the effect of each store call on them. */
module JobTable {
  import opened Basics

  // ---------------------------------------------------------------- lifecycle

  /** `Waiting` is the internal `waiting_for_compute` status of a coalescing follower. */
  datatype Status = Accepted | Queued | Running | Waiting | Completed | Failed | Canceled | Expired | TimedOut

  predicate IsTerminal(s: Status) {
    s.Completed? || s.Failed? || s.Canceled? || s.Expired? || s.TimedOut?
  }

  function Public(s: Status): Status {
    if s == Waiting then Running else s
  }

  predicate CanTransition(from: Status, to: Status) {
    match from
    case Accepted => to in {Queued, Canceled, Expired}
    case Queued => to in {Running, Canceled, Expired}
    case Running => to in {Running, Completed, Failed, Canceled, TimedOut, Queued, Waiting}
    case Waiting => to in {Queued, Failed, Canceled, TimedOut}
    case _ => false
  }

  // ---------------------------------------------------------------- rows

  /** Run ids are compared as text when the queue breaks ties. */
  datatype RunId = RunId(text: string)

  /** Names the stores only compare for equality: workers, identities, results. */
  type Name(==, !new)

  datatype Code =
    | QueueDeadlineExceeded | ComputeWaitExhausted | LeaseExpired | RunDeadlineExceeded | CanceledByCaller
    | RunnerCode(name: Name)

  datatype Entry = Entry(status: Status, at: int)

  /** Columns no decision reads: times, results and reasons. */
  datatype Notes = Notes(
    startedAt: Option<int>, terminalAt: Option<int>, lastActivity: Option<int>, result: Option<Name>,
    datasetFingerprint: Option<Name>, terminalCode: Option<Code>, terminalIssues: Option<Name>,
    dedupedFrom: Option<Name>, wakeReason: Option<Name>)

  const Blank: Notes := Notes(None, None, None, None, None, None, None, None, None)

  datatype Row = Row(
    runId: RunId, resumeToken: Option<string>, acceptedAt: int, queueDeadline: Option<int>, runTimeout: int,
    status: Status, queuedAt: Option<int>, runDeadline: Option<int>, leasedBy: Option<Name>, leaseExpiresAt: Option<int>,
    attempts: int, waits: int, computeIdentity: Option<Name>, charged: Option<bool>, notes: Notes, timeline: seq<Entry>)

  type Table = map<RunId, Row>

  datatype Patch = Patch(
    at: int, queuedAt: Option<int>, runDeadline: Option<int>, waits: Option<int>, computeIdentity: Option<Name>,
    charged: Option<bool>, attempts: Option<int>, notes: Notes)

  function NoChange(at: int): Patch {
    Patch(at, None, None, None, None, None, None, Blank)
  }

  function Or<T>(a: Option<T>, b: Option<T>): Option<T> {
    if a.Some? then a else b
  }

  function Merged(p: Notes, n: Notes): Notes {
    Notes(Or(p.startedAt, n.startedAt), Or(p.terminalAt, n.terminalAt), Or(p.lastActivity, n.lastActivity),
          Or(p.result, n.result), Or(p.datasetFingerprint, n.datasetFingerprint), Or(p.terminalCode, n.terminalCode),
          Or(p.terminalIssues, n.terminalIssues), Or(p.dedupedFrom, n.dedupedFrom), Or(p.wakeReason, n.wakeReason))
  }

  /** Status change plus the fields present in the patch; the timeline records a changed status in
      its public form. */
  function Apply(row: Row, to: Status, p: Patch): Row {
    row.(status := to,
         queuedAt := Or(p.queuedAt, row.queuedAt), runDeadline := Or(p.runDeadline, row.runDeadline),
         waits := if p.waits.Some? then p.waits.value else row.waits,
         computeIdentity := Or(p.computeIdentity, row.computeIdentity), charged := Or(p.charged, row.charged),
         attempts := if p.attempts.Some? then p.attempts.value else row.attempts,
         notes := Merged(p.notes, row.notes),
         timeline := if row.status == to then row.timeline else row.timeline + [Entry(Public(to), p.at)])
  }

  /** The compare-and-set condition of `transition`. */
  predicate Admits(table: Table, runId: RunId, from: Status, to: Status, expectLeasedBy: Option<Name>) {
    runId in table && table[runId].status == from && CanTransition(from, to) &&
    (expectLeasedBy.None? || table[runId].leasedBy == expectLeasedBy)
  }

  function Transition(table: Table, runId: RunId, from: Status, to: Status, p: Patch, expectLeasedBy: Option<Name>): Table {
    if Admits(table, runId, from, to, expectLeasedBy) then table[runId := Apply(table[runId], to, p)] else table
  }

  // ---------------------------------------------------------------- submission and claiming

  datatype NewJob = NewJob(runId: RunId, resumeToken: Option<string>, queueDeadline: Option<int>, runTimeout: int, acceptedAt: int)

  function FreshRow(job: NewJob): Row {
    Row(job.runId, job.resumeToken, job.acceptedAt, job.queueDeadline, job.runTimeout, Accepted, None, None, None, None,
        0, 0, None, None, Blank, [Entry(Accepted, job.acceptedAt)])
  }

  datatype Lease = Lease(worker: Name, ttl: int)

  function StartPatch(row: Row, now: int): Patch {
    NoChange(now).(runDeadline := Some(now + row.runTimeout),
                   notes := Blank.(startedAt := Some(now), lastActivity := Some(now)))
  }

  /** The row as `claimNextQueued` leaves it. Without a lease the in-memory store keeps whatever lease
      columns the row had, while the Postgres store clears them. */
  function ClaimRow(row: Row, now: int, lease: Option<Lease>, coalesce: bool, clearsLease: bool): Row {
    var started := Apply(row, Running, StartPatch(row, now));
    match lease
    case None => if clearsLease then started.(leasedBy := None, leaseExpiresAt := None) else started
    case Some(l) =>
      started.(leasedBy := Some(l.worker), leaseExpiresAt := Some(now + l.ttl),
               attempts := if coalesce then row.attempts else row.attempts + 1)
  }

  // ---------------------------------------------------------------- the reaper, row by row

  datatype ReapOpts = ReapOpts(maxAttempts: int, coalesce: bool, waitCap: int)

  datatype Verdict = Leave | Expire | PoisonWait | RequeueWait | PoisonLease | Requeue | TimeOut

  predicate Past(deadline: Option<int>, now: int) {
    deadline.Some? && now > deadline.value
  }

  /** What a reap at `now` decides about one row. */
  function VerdictOn(row: Row, now: int, o: ReapOpts): Verdict {
    if row.status in {Queued, Accepted} && Past(row.queueDeadline, now) then Expire
    else if row.status == Running then
      if Past(row.leaseExpiresAt, now) then
        if o.coalesce && row.charged == Some(false)
        then if row.waits >= o.waitCap then PoisonWait else RequeueWait
        else if row.attempts >= o.maxAttempts then PoisonLease else Requeue
      else if Past(row.runDeadline, now) then TimeOut else Leave
    else if row.status == Waiting && Past(row.runDeadline, now) then TimeOut
    else Leave
  }

  function Closed(row: Row, to: Status, now: int, code: Code): Row {
    row.(status := to, notes := row.notes.(terminalAt := Some(now), terminalCode := Some(code)),
         timeline := row.timeline + [Entry(to, now)])
  }

  function Requeued(row: Row, now: int): Row {
    row.(status := Queued, queuedAt := Some(now), leasedBy := None, leaseExpiresAt := None,
         timeline := row.timeline + [Entry(Queued, now)])
  }

  function ReapRow(row: Row, now: int, o: ReapOpts): Row {
    match VerdictOn(row, now, o)
    case Leave => row
    case Expire => Closed(row, Expired, now, QueueDeadlineExceeded)
    case PoisonWait => Closed(row, Failed, now, ComputeWaitExhausted)
    case RequeueWait => Requeued(row, now).(waits := row.waits + 1)
    case PoisonLease => Closed(row, Failed, now, LeaseExpired)
    case Requeue => if o.coalesce then Requeued(row, now).(charged := Some(false)) else Requeued(row, now)
    case TimeOut => Closed(row, TimedOut, now, RunDeadlineExceeded)
  }

  /** Rows the reap ends, which it returns for publication. */
  predicate Reaps(row: Row, now: int, o: ReapOpts) {
    VerdictOn(row, now, o) in {Expire, PoisonWait, PoisonLease, TimeOut}
  }

  function Reap(table: Table, now: int, o: ReapOpts): (r: Table)
    ensures r.Keys == table.Keys
    ensures forall id :: id in table ==> r[id] == ReapRow(table[id], now, o)
  {
    map id | id in table :: ReapRow(table[id], now, o)
  }

  /** A row is returned exactly when this reap moves it from a live status to a terminal one. */
  lemma ReapsMeansEnds(row: Row, now: int, o: ReapOpts)
    ensures Reaps(row, now, o) <==> !IsTerminal(row.status) && IsTerminal(ReapRow(row, now, o).status)
    ensures IsTerminal(row.status) ==> ReapRow(row, now, o) == row
  {
  }

  // ---------------------------------------------------------------- waking parked followers

  function WakePatch(reason: Name, now: int): Patch {
    NoChange(now).(charged := Some(false), notes := Blank.(wakeReason := Some(reason)))
  }

  function ClosePatch(now: int, code: Code): Patch {
    NoChange(now).(notes := Blank.(terminalAt := Some(now), terminalCode := Some(code)))
  }

  /** Closing a row by hand is the transition with the terminal patch. */
  lemma ClosedByTransition(row: Row, to: Status, now: int, code: Code)
    requires row.status != to && to != Waiting
    ensures Apply(row, to, ClosePatch(now, code)) == Closed(row, to, now, code)
  {
  }

  function Woken(row: Row, reason: Name, now: int): Row {
    Apply(row, Queued, WakePatch(reason, now))
  }

  predicate Waits(row: Row, identity: Name) {
    row.status == Waiting && row.computeIdentity == Some(identity)
  }

  function Release(table: Table, identity: Name, reason: Name, now: int): (r: Table)
    ensures r.Keys == table.Keys
    ensures forall id :: id in table ==> r[id] == ReleaseRow(table[id], identity, reason, now)
  {
    map id | id in table :: ReleaseRow(table[id], identity, reason, now)
  }

  function ReleaseRow(row: Row, identity: Name, reason: Name, now: int): Row {
    if Waits(row, identity) then Woken(row, reason, now) else row
  }

  function Renew(table: Table, worker: Name, until: int): (r: Table)
    ensures r.Keys == table.Keys
    ensures forall id :: id in table ==> r[id] == RenewRow(table[id], worker, until)
  {
    map id | id in table :: RenewRow(table[id], worker, until)
  }

  function RenewRow(row: Row, worker: Name, until: int): Row {
    if row.status == Running && row.leasedBy == Some(worker) then row.(leaseExpiresAt := Some(until)) else row
  }

  // ---------------------------------------------------------------- queue order

  function QueueTime(row: Row): int {
    if row.queuedAt.Some? then row.queuedAt.value else row.acceptedAt
  }

  /** Lexicographic order on text. */
  predicate TextLess(a: string, b: string) {
    if b == "" then false
    else if a == "" then true
    else a[0] < b[0] || (a[0] == b[0] && TextLess(a[1..], b[1..]))
  }

  lemma {:induction false} TextTotal(a: string, b: string)
    ensures a == b || TextLess(a, b) || TextLess(b, a)
  {
    if a != "" && b != "" && a[0] == b[0] {
      TextTotal(a[1..], b[1..]);
      assert a == [a[0]] + a[1..] && b == [b[0]] + b[1..];
    }
  }

  lemma {:induction false} TextOrder(a: string, b: string, c: string)
    ensures !TextLess(a, a)
    ensures TextLess(a, b) && TextLess(b, c) ==> TextLess(a, c)
    ensures TextLess(a, b) ==> !TextLess(b, a)
  {
    if a != "" {
      TextOrder(a[1..], if b == "" then "" else b[1..], if c == "" then "" else c[1..]);
    }
  }

  /** Strictly earlier in the queue: by queue time, then by run id. */
  predicate Before(a: Row, b: Row) {
    QueueTime(a) < QueueTime(b) || (QueueTime(a) == QueueTime(b) && TextLess(a.runId.text, b.runId.text))
  }

  /** `id` is the head of the queue: queued, and no queued row comes before it. */
  ghost predicate HeadOf(table: Table, id: RunId) {
    id in table && table[id].status == Queued &&
    forall other :: other in table && table[other].status == Queued ==> !Before(table[other], table[id])
  }

  /** There is at most one head. */
  lemma HeadUnique(table: Table, a: RunId, b: RunId)
    requires forall id :: id in table ==> table[id].runId == id
    requires HeadOf(table, a) && HeadOf(table, b)
    ensures a == b
  {
    TextTotal(a.text, b.text);
  }
}
