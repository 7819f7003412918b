/** Reading a row stream page by page over HTTP, against reading it directly. */
module Paging {
  import opened Basics
  import Decimal

  /** A row as it travels; the pager never looks inside. */
  type Row(==, !new)

  datatype Page = Page(rows: seq<Row>, nextCursor: Option<string>)

  datatype Cause = Timeout | RowsUnavailable | RateLimited | Unauthorized | DatasetNotFound | DiscoverFailed | PaginationOverflow | PaginationCycle

  function Flat(batches: seq<seq<Row>>): seq<Row> {
    if batches == [] then [] else Flat(batches[..|batches| - 1]) + batches[|batches| - 1]
  }

  lemma {:induction false} FlatSplit(a: seq<seq<Row>>, b: seq<seq<Row>>)
    ensures Flat(a + b) == Flat(a) + Flat(b)
  {
    if b == [] {
      assert a + b == a;
    } else {
      FlatSplit(a, b[..|b| - 1]);
      assert (a + b)[..|a + b| - 1] == a + b[..|b| - 1];
    }
  }

  lemma FlatOne(a: seq<seq<Row>>, batch: seq<Row>)
    ensures Flat(a + [batch]) == Flat(a) + batch
  {
  }

  // ---------------------------------------------------------------- the reference server

  /** A missing, zero, negative or unreadable cursor starts at the beginning. */
  function Offset(cursor: Option<string>): nat {
    if cursor.None? then 0
    else var n := Decimal.Parse(cursor.value); if n.Some? then n.value else 0
  }

  /** Zero asks for the default; anything below one row is raised, anything above the cap is cut. */
  function PageLimit(limit: int, maxPageLimit: int): int {
    Min(maxPageLimit, Max(1, if limit == 0 then 1000 else limit))
  }

  /** The page of a row sequence that starts at `offset`. */
  function PageOf(rows: seq<Row>, offset: nat, limit: int): Page {
    var hi := Min(Max(0, offset + limit), |rows|);
    Page(rows[Min(offset, hi)..hi], if Max(0, offset + limit) < |rows| then Some(Decimal.RenderInt(offset + limit)) else None)
  }

  /** The rows collected when the first `idx` rows of the stream have been passed. */
  function Collected(all: seq<Row>, offset: nat, idx: nat): seq<Row>
    requires idx <= |all|
  {
    all[Min(offset, idx)..idx]
  }

  lemma CollectNext(all: seq<Row>, offset: nat, idx: nat)
    requires idx < |all|
    ensures Collected(all, offset, idx + 1) == Collected(all, offset, idx) + if idx >= offset then [all[idx]] else []
  {
  }

  method ScanBatch(batch: seq<Row>, offset: nat, size: int, start: nat, collected: seq<Row>, ghost all: seq<Row>)
    returns (idx: nat, rows: seq<Row>, hasMore: bool)
    requires start + |batch| <= |all| && batch == all[start..start + |batch|]
    requires start <= Max(0, offset + size) && collected == Collected(all, offset, start)
    ensures idx <= |all| && idx <= Max(0, offset + size) && rows == Collected(all, offset, idx)
    ensures if hasMore then idx == Max(0, offset + size) < |all| else idx == start + |batch|
  {
    idx, rows, hasMore := start, collected, false;
    var i := 0;
    while i < |batch|
      invariant 0 <= i <= |batch| && idx == start + i <= Max(0, offset + size) && idx <= |all|
      invariant rows == Collected(all, offset, idx) && !hasMore
    {
      hide Collected;
      if idx >= offset + size {
        hasMore := true;
        return;
      }
      CollectNext(all, offset, idx);
      assert all[idx] == batch[i];
      if idx >= offset {
        rows := rows + [batch[i]];
      }
      idx := idx + 1;
      i := i + 1;
    }
  }

  /** `GET /data/v1/rows` over the stream's batches: the page of the concatenated rows, whatever the
      batch boundaries. */
  method ServePage(batches: seq<seq<Row>>, cursor: Option<string>, limit: int, maxPageLimit: int) returns (page: Page)
    ensures page == PageOf(Flat(batches), Offset(cursor), PageLimit(limit, maxPageLimit))
  {
    var offset: nat, size: int := Offset(cursor), PageLimit(limit, maxPageLimit);
    var rows: seq<Row> := [];
    var idx: nat, hasMore, b: nat := 0, false, 0;
    ghost var all := Flat(batches);
    while b < |batches| && !hasMore
      invariant 0 <= b <= |batches| && idx <= Max(0, offset + size) && idx <= |all| && rows == Collected(all, offset, idx)
      invariant if hasMore then idx == Max(0, offset + size) < |all| else idx == |Flat(batches[..b])|
    {
      hide Flat, Collected;
      TakeBatch(batches, b);
      idx, rows, hasMore := ScanBatch(batches[b], offset, size, idx, rows, all);
      b := b + 1;
    }
    if !hasMore {
      assert batches[..b] == batches;
    }
    page := Page(rows, if hasMore then Some(Decimal.RenderInt(offset + size)) else None);
  }

  /** The rows of batch `b` follow those of the batches before it. */
  lemma TakeBatch(batches: seq<seq<Row>>, b: nat)
    requires b < |batches|
    ensures var start := Flat(batches[..b]);
            Flat(batches[..b + 1]) == start + batches[b] && Flat(batches[..b + 1]) <= Flat(batches) &&
            |start| + |batches[b]| <= |Flat(batches)| && Flat(batches)[|start|..|start| + |batches[b]|] == batches[b]
  {
    var start := Flat(batches[..b]);
    assert batches[..b + 1] == batches[..b] + [batches[b]];
    FlatOne(batches[..b], batches[b]);
    assert batches == batches[..b + 1] + batches[b + 1..];
    FlatSplit(batches[..b + 1], batches[b + 1..]);
  }

  // ---------------------------------------------------------------- the client

  /** Whatever stands at the other end: the answer to the `k`-th page request, which carried `cursor`. */
  type Server = (nat, Option<string>) -> Result<Page, Cause>

  datatype Caps = Caps(maxPages: int, maxRows: int)

  /** What a read hands over before it ends, how it ends, and how many page requests it made. */
  datatype Reading = Reading(yielded: seq<seq<Row>>, failure: Option<Cause>, requests: nat)

  /** The read from its `pages`-th request on, with what it yielded before, as a recursion over requests.
      `late(k)` says whether the operation deadline has passed when request `k` is about to be made. */
  function Rest(server: Server, late: nat -> bool, caps: Caps, cursor: Option<string>, seen: set<string>, pages: nat, rows: nat,
                yielded: seq<seq<Row>>): Reading
    decreases caps.maxPages + 1 - pages
  {
    if late(pages) then Reading(yielded, Some(Timeout), pages)
    else match server(pages, cursor)
      case Err(cause) => Reading(yielded, Some(cause), pages + 1)
      case Ok(page) =>
        if pages + 1 > caps.maxPages || rows + |page.rows| > caps.maxRows then Reading(yielded, Some(PaginationOverflow), pages + 1)
        else
          var now := Yield(yielded, page.rows);
          if LastPage(page) then Reading(now, None, pages + 1)
          else if page.nextCursor == cursor || page.nextCursor.value in seen then Reading(now, Some(PaginationCycle), pages + 1)
          else Rest(server, late, caps, page.nextCursor, seen + {page.nextCursor.value}, pages + 1, rows + |page.rows|, now)
  }

  /** An empty page is not handed over. */
  function Yield(yielded: seq<seq<Row>>, rows: seq<Row>): seq<seq<Row>> {
    if |rows| > 0 then yielded + [rows] else yielded
  }

  predicate LastPage(page: Page) {
    page.nextCursor.None? || page.nextCursor.value == ""
  }

  lemma FlatYield(yielded: seq<seq<Row>>, rows: seq<Row>)
    ensures Flat(Yield(yielded, rows)) == Flat(yielded) + rows
  {
  }

  /** `queryRange`. */
  method QueryRange(server: Server, late: nat -> bool, caps: Caps) returns (r: Reading)
    ensures r == Rest(server, late, caps, None, {}, 0, 0, [])
  {
    var seen: set<string>, cursor: Option<string> := {}, None;
    var pages, rows, yielded := 0, 0, [];
    while true
      invariant 0 <= pages && 0 <= rows
      invariant Rest(server, late, caps, None, {}, 0, 0, []) == Rest(server, late, caps, cursor, seen, pages, rows, yielded)
      decreases caps.maxPages + 1 - pages
    {
      if late(pages) { return Reading(yielded, Some(Timeout), pages); }
      var answer := server(pages, cursor);
      if answer.Err? { return Reading(yielded, Some(answer.error), pages + 1); }
      var page := answer.value;
      if pages + 1 > caps.maxPages { return Reading(yielded, Some(PaginationOverflow), pages + 1); }
      if rows + |page.rows| > caps.maxRows { return Reading(yielded, Some(PaginationOverflow), pages + 1); }
      if |page.rows| > 0 {
        yielded := yielded + [page.rows];
      }
      if LastPage(page) { return Reading(yielded, None, pages + 1); }
      if page.nextCursor == cursor || page.nextCursor.value in seen {
        return Reading(yielded, Some(PaginationCycle), pages + 1);
      }
      seen := seen + {page.nextCursor.value};
      cursor := page.nextCursor;
      pages := pages + 1;
      rows := rows + |page.rows|;
    }
  }

  // ---------------------------------------------------------------- against any server

  /** Whatever the server answers, the client makes at most one request beyond the page cap and hands
      over no more rows than the row cap. */
  lemma {:induction false} ReadsAreBounded(server: Server, late: nat -> bool, caps: Caps, cursor: Option<string>, seen: set<string>, pages: nat,
                                           rows: nat, yielded: seq<seq<Row>>)
    requires rows == |Flat(yielded)| <= Max(0, caps.maxRows) && pages <= Max(0, caps.maxPages)
    ensures var r := Rest(server, late, caps, cursor, seen, pages, rows, yielded);
            r.requests <= Max(0, caps.maxPages) + 1 && |Flat(r.yielded)| <= Max(0, caps.maxRows)
    decreases caps.maxPages + 1 - pages
  {
    if !late(pages) && server(pages, cursor).Ok? {
      hide Flat, Yield, Rest;
      var page := server(pages, cursor).value;
      Request(server, late, caps, cursor, seen, pages, rows, yielded, page);
      if pages + 1 <= caps.maxPages && rows + |page.rows| <= caps.maxRows {
        var now := Yield(yielded, page.rows);
        FlatYield(yielded, page.rows);
        if !LastPage(page) && page.nextCursor != cursor && page.nextCursor.value !in seen {
          ReadsAreBounded(server, late, caps, page.nextCursor, seen + {page.nextCursor.value}, pages + 1, rows + |page.rows|, now);
        }
      }
    }
  }

  /** The same of a whole read. */
  lemma WholeReadIsBounded(server: Server, late: nat -> bool, caps: Caps)
    ensures var r := Rest(server, late, caps, None, {}, 0, 0, []);
            r.requests <= Max(0, caps.maxPages) + 1 && |Flat(r.yielded)| <= Max(0, caps.maxRows)
  {
    ReadsAreBounded(server, late, caps, None, {}, 0, 0, []);
  }

  // ---------------------------------------------------------------- against the reference server

  /** Pages still to come when the first `offset` rows have been read: the last page may be empty. */
  function PagesLeft(n: nat, offset: nat, size: nat): nat
    requires size >= 1
    decreases n - offset
  {
    if offset + size < n then 1 + PagesLeft(n, offset + size, size) else 1
  }

  /** That is the number of full or partial pages: the least `k >= 1` with `k` pages holding all rows. */
  lemma {:induction false} PagesNeeded(n: nat, offset: nat, size: nat)
    requires size >= 1
    ensures var k := PagesLeft(n, offset, size);
            k >= 1 && n <= offset + k * size && (k > 1 ==> n > offset + (k - 1) * size)
    decreases n - offset
  {
    if offset + size < n {
      PagesNeeded(n, offset + size, size);
      var k := PagesLeft(n, offset + size, size);
      assert (k + 1) * size == k * size + size;
      assert k > 1 ==> k * size == (k - 1) * size + size;
    }
  }

  function Reference(rows: seq<Row>, limit: int, maxPageLimit: int): Server
  {
    (k, cursor) => Ok(PageOf(rows, Offset(cursor), PageLimit(limit, maxPageLimit)))
  }

  /** Cursors handed out so far are all of rows already read. */
  ghost predicate SeenBefore(seen: set<string>, offset: nat) {
    forall text :: text in seen ==> exists m: nat :: m <= offset && text == Decimal.Render(m)
  }

  lemma FreshCursor(seen: set<string>, offset: nat, next: nat)
    requires SeenBefore(seen, offset) && offset < next
    ensures Decimal.Render(next) !in seen && SeenBefore(seen + {Decimal.Render(next)}, next)
  {
    var text := Decimal.Render(next);
    if text in seen {
      var m: nat :| m <= offset && text == Decimal.Render(m);
      Decimal.Injective(m, next);
    }
  }

  ghost predicate At(cursor: Option<string>, offset: nat) {
    if offset == 0 then cursor.None? else cursor == Some(Decimal.Render(offset))
  }

  /** Whether the caps leave room for what is still to be read. */
  predicate Fits(n: nat, offset: nat, size: nat, caps: Caps, pages: nat)
    requires size >= 1
  {
    pages + PagesLeft(n, offset, size) <= caps.maxPages && n <= caps.maxRows
  }

  lemma {:induction false} RestIsTheRest(rows: seq<Row>, limit: int, maxPageLimit: int, late: nat -> bool, caps: Caps,
                                         cursor: Option<string>, seen: set<string>, pages: nat, offset: nat, yielded: seq<seq<Row>>)
    requires maxPageLimit >= 1 && (forall k :: !late(k)) && offset <= |rows| && At(cursor, offset) && SeenBefore(seen, offset)
    requires Flat(yielded) == rows[..offset]
    ensures var r := Rest(Reference(rows, limit, maxPageLimit), late, caps, cursor, seen, pages, offset, yielded);
            var fits := Fits(|rows|, offset, PageLimit(limit, maxPageLimit), caps, pages);
            Complete(r, rows, fits)
    decreases caps.maxPages + 1 - pages
  {
    hide Flat, Yield, SeenBefore, Decimal.Render, Rest, Reference;
    var size: nat := PageLimit(limit, maxPageLimit);
    var server := Reference(rows, limit, maxPageLimit);
    var page := PageOf(rows, offset, size);
    ReferenceAnswer(rows, limit, maxPageLimit, pages, cursor, offset);
    Request(server, late, caps, cursor, seen, pages, offset, yielded, page);
    if pages + 1 <= caps.maxPages && offset + |page.rows| <= caps.maxRows {
      var now := Yield(yielded, page.rows);
      FlatYield(yielded, page.rows);
      assert rows[..offset] + page.rows == rows[..offset + |page.rows|];
      if offset + size < |rows| {
        FreshCursor(seen, offset, offset + size);
        Advances(cursor, offset, offset + size);
        RestIsTheRest(rows, limit, maxPageLimit, late, caps, page.nextCursor, seen + {page.nextCursor.value}, pages + 1, offset + size, now);
      }
    }
    assert Complete(Rest(server, late, caps, cursor, seen, pages, offset, yielded), rows, Fits(|rows|, offset, size, caps, pages));
  }

  lemma ReferenceAnswer(rows: seq<Row>, limit: int, maxPageLimit: int, k: nat, cursor: Option<string>, offset: nat)
    requires maxPageLimit >= 1 && At(cursor, offset)
    ensures Reference(rows, limit, maxPageLimit)(k, cursor) == Ok(PageOf(rows, offset, PageLimit(limit, maxPageLimit)))
  {
    AtOffset(cursor, offset);
  }

  /** One answered request. */
  lemma Request(server: Server, late: nat -> bool, caps: Caps, cursor: Option<string>, seen: set<string>, pages: nat, rows: nat,
                yielded: seq<seq<Row>>, page: Page)
    requires !late(pages) && server(pages, cursor) == Ok(page)
    ensures Rest(server, late, caps, cursor, seen, pages, rows, yielded) ==
            if pages + 1 > caps.maxPages || rows + |page.rows| > caps.maxRows then Reading(yielded, Some(PaginationOverflow), pages + 1)
            else if LastPage(page) then Reading(Yield(yielded, page.rows), None, pages + 1)
            else if page.nextCursor == cursor || page.nextCursor.value in seen then Reading(Yield(yielded, page.rows), Some(PaginationCycle), pages + 1)
            else Rest(server, late, caps, page.nextCursor, seen + {page.nextCursor.value}, pages + 1, rows + |page.rows|, Yield(yielded, page.rows))
  {
  }

  /** All rows if they fit, else an overflow after some of them. */
  ghost predicate Complete(r: Reading, rows: seq<Row>, fits: bool) {
    if fits then r.failure.None? && Flat(r.yielded) == rows else r.failure == Some(PaginationOverflow) && Flat(r.yielded) <= rows
  }

  lemma AtOffset(cursor: Option<string>, offset: nat)
    requires At(cursor, offset)
    ensures Offset(cursor) == offset
  {
    Decimal.RoundTrip(offset);
  }

  lemma Advances(cursor: Option<string>, offset: nat, next: nat)
    requires At(cursor, offset) && offset < next
    ensures cursor != Some(Decimal.Render(next)) && Decimal.Render(next) != ""
  {
    if Decimal.Render(next) == Decimal.Render(offset) {
      Decimal.Injective(offset, next);
    }
  }

  /** The client reading from the reference server yields exactly the rows of a direct query, in order,
      if and only if the caps have room for them; otherwise it stops with an overflow after a prefix.
      A cycle is never reported. */
  lemma PagingRefinesDirectReading(batches: seq<seq<Row>>, limit: int, maxPageLimit: int, late: nat -> bool, caps: Caps)
    requires maxPageLimit >= 1 && forall k :: !late(k)
    ensures var direct, size := Flat(batches), PageLimit(limit, maxPageLimit);
            var r := Rest(Reference(direct, limit, maxPageLimit), late, caps, None, {}, 0, 0, []);
            var fits := PagesLeft(|direct|, 0, size) <= caps.maxPages && |direct| <= caps.maxRows;
            if fits then r.failure.None? && Flat(r.yielded) == direct
            else r.failure == Some(PaginationOverflow) && Flat(r.yielded) <= direct
  {
    RestIsTheRest(Flat(batches), limit, maxPageLimit, late, caps, None, {}, 0, 0, []);
  }

  /** With a page cap below one the server never advances: unless there is nothing to read, the client
      finds out at the second page and stops, without a row. */
  lemma NoProgressIsReported(rows: seq<Row>, limit: int, maxPageLimit: int, late: nat -> bool, caps: Caps)
    requires maxPageLimit <= 0 && rows != [] && forall k :: !late(k)
    ensures var r := Rest(Reference(rows, limit, maxPageLimit), late, caps, None, {}, 0, 0, []);
            r.yielded == [] && r.failure == Some(if caps.maxPages >= 2 && caps.maxRows >= 0 then PaginationCycle else PaginationOverflow)
  {
    var size := PageLimit(limit, maxPageLimit);
    var server := Reference(rows, limit, maxPageLimit);
    var page := PageOf(rows, 0, size);
    assert size <= 0 && |page.rows| == 0 && page.nextCursor == Some(Decimal.RenderInt(size));
    assert Offset(page.nextCursor) == 0 by {
      if size < 0 { Decimal.NegativeIsNotDigits(size); } else { Decimal.RoundTrip(0); }
    }
    Request(server, late, caps, None, {}, 0, 0, [], page);
    Request(server, late, caps, page.nextCursor, {page.nextCursor.value}, 1, 0, [], page);
  }

  // ---------------------------------------------------------------- one request with its retries

  /** How one attempt went: a body, an exception (by the timer or otherwise), or an HTTP refusal. */
  datatype Attempt = Body(page: Page) | Thrown(timedOut: bool) | Refused(status: int)

  predicate Transient(a: Attempt) {
    match a
    case Body(_) => false
    case Thrown(_) => true
    case Refused(status) => status == 408 || status == 429 || 500 <= status <= 599
  }

  function CauseOf(a: Attempt): Cause
    requires !a.Body?
  {
    match a
    case Thrown(timedOut) => if timedOut then Timeout else RowsUnavailable
    case Refused(status) =>
      if status == 401 || status == 403 then Unauthorized
      else if status == 404 then DatasetNotFound
      else if status == 429 then RateLimited
      else if Transient(a) then RowsUnavailable
      else DiscoverFailed
  }

  /** Attempts `0 .. k` were all made in time and failed in a way worth retrying. */
  ghost predicate Retried(attempts: nat -> Attempt, late: nat -> bool, k: nat) {
    forall j :: 0 <= j < k ==> !late(j) && Transient(attempts(j))
  }

  /** The four ways a request ends after `made` attempts, all earlier ones having failed transiently: with
      a body, with a permanent refusal, by the deadline, or with the attempts used up. */
  ghost predicate Outcome(attempts: nat -> Attempt, late: nat -> bool, maxAttempts: int, r: Result<Page, Cause>, made: nat) {
    made <= Max(0, maxAttempts) &&
    match r
    case Ok(page) => made > 0 && Retried(attempts, late, made - 1) && !late(made - 1) && attempts(made - 1) == Body(page)
    case Err(cause) =>
      || (made > 0 && Retried(attempts, late, made - 1) && !late(made - 1) && attempts(made - 1).Refused? &&
          !Transient(attempts(made - 1)) && cause == CauseOf(attempts(made - 1)))
      || (made < maxAttempts && Retried(attempts, late, made) && late(made) && cause == Timeout)
      || (made == Max(0, maxAttempts) && Retried(attempts, late, made) &&
          cause == if made == 0 then RowsUnavailable else CauseOf(attempts(made - 1)))
  }

  /** The description fixes the result and the number of attempts. */
  lemma OneOutcome(attempts: nat -> Attempt, late: nat -> bool, maxAttempts: int, r: Result<Page, Cause>, made: nat, r': Result<Page, Cause>, made': nat)
    requires Outcome(attempts, late, maxAttempts, r, made) && Outcome(attempts, late, maxAttempts, r', made')
    ensures r == r' && made == made'
  {
  }

  /** `resilientRequest`. */
  method ResilientRequest(attempts: nat -> Attempt, late: nat -> bool, maxAttempts: int) returns (r: Result<Page, Cause>, made: nat)
    ensures Outcome(attempts, late, maxAttempts, r, made)
  {
    var lastCause := RowsUnavailable;
    made := 0;
    while made < maxAttempts
      invariant made <= Max(0, maxAttempts) && Retried(attempts, late, made)
      invariant lastCause == if made == 0 then RowsUnavailable else CauseOf(attempts(made - 1))
    {
      if late(made) { return Err(Timeout), made; }
      var a := attempts(made);
      made := made + 1;
      if a.Body? { return Ok(a.page), made; }
      if !Transient(a) { return Err(CauseOf(a)), made; }
      lastCause := CauseOf(a);
      if made == maxAttempts { return Err(lastCause), made; }
    }
    return Err(lastCause), made;
  }

  // ---------------------------------------------------------------- a whole read with its retries

  /** What the network does to the attempts of each page request, and whether the deadline has passed before them. */
  datatype Wire = Wire(attempts: (nat, Option<string>) -> (nat -> Attempt), late: nat -> (nat -> bool))

  /** The attempts of one request, from attempt `k` on: how they end and how many were made in all. */
  function RequestFrom(attempts: nat -> Attempt, late: nat -> bool, maxAttempts: int, k: nat, last: Cause): (r: (Result<Page, Cause>, nat))
    ensures r.1 <= Max(k, maxAttempts)
    decreases maxAttempts - k
  {
    if k >= maxAttempts then (Err(last), k)
    else if late(k) then (Err(Timeout), k)
    else
      var a := attempts(k);
      if a.Body? then (Ok(a.page), k + 1)
      else if !Transient(a) then (Err(CauseOf(a)), k + 1)
      else RequestFrom(attempts, late, maxAttempts, k + 1, CauseOf(a))
  }

  lemma {:induction false} RequestFromEnds(attempts: nat -> Attempt, late: nat -> bool, maxAttempts: int, k: nat, last: Cause)
    requires k <= Max(0, maxAttempts) && Retried(attempts, late, k) && (k > 0 ==> !attempts(k - 1).Body?)
    requires last == if k == 0 then RowsUnavailable else CauseOf(attempts(k - 1))
    ensures var (r, made) := RequestFrom(attempts, late, maxAttempts, k, last);
            Outcome(attempts, late, maxAttempts, r, made)
    decreases maxAttempts - k
  {
    if k < maxAttempts && !late(k) {
      var a := attempts(k);
      if !a.Body? && Transient(a) {
        RequestFromEnds(attempts, late, maxAttempts, k + 1, CauseOf(a));
      }
    }
  }

  function Answered(w: Wire, n: nat, cursor: Option<string>, maxAttempts: int): (Result<Page, Cause>, nat) {
    RequestFrom(w.attempts(n, cursor), w.late(n), maxAttempts, 0, RowsUnavailable)
  }

  /** One request over the wire: the loop of attempts has the one outcome there is. */
  method Fetch(w: Wire, n: nat, cursor: Option<string>, maxAttempts: int) returns (r: Result<Page, Cause>, made: nat)
    ensures (r, made) == Answered(w, n, cursor, maxAttempts) && made <= Max(0, maxAttempts)
  {
    hide Outcome;
    r, made := ResilientRequest(w.attempts(n, cursor), w.late(n), maxAttempts);
    RequestFromEnds(w.attempts(n, cursor), w.late(n), maxAttempts, 0, RowsUnavailable);
    var (s, m) := Answered(w, n, cursor, maxAttempts);
    OneOutcome(w.attempts(n, cursor), w.late(n), maxAttempts, r, made, s, m);
  }

  function Retrying(w: Wire, maxAttempts: int): Server {
    (n: nat, cursor: Option<string>) => Answered(w, n, cursor, maxAttempts).0
  }

  /** `queryRange` over `resilientRequest`: the read of the retried answers, within (maxPages + 1) * maxAttempts
      fetches whatever the network does. */
  method QueryRangeOverWire(w: Wire, late: nat -> bool, caps: Caps, maxAttempts: int) returns (r: Reading, fetches: nat)
    ensures r == Rest(Retrying(w, maxAttempts), late, caps, None, {}, 0, 0, [])
    ensures fetches <= (Max(0, caps.maxPages) + 1) * Max(0, maxAttempts)
    ensures |Flat(r.yielded)| <= Max(0, caps.maxRows)
  {
    hide Flat, Answered;
    var server := Retrying(w, maxAttempts);
    WholeReadIsBounded(server, late, caps);
    var seen: set<string>, cursor: Option<string> := {}, None;
    var pages, rows, yielded := 0, 0, [];
    fetches := 0;
    while true
      invariant 0 <= pages <= Max(0, caps.maxPages) && 0 <= rows && fetches <= pages * Max(0, maxAttempts)
      invariant Rest(server, late, caps, None, {}, 0, 0, []) == Rest(server, late, caps, cursor, seen, pages, rows, yielded)
      decreases caps.maxPages + 1 - pages
    {
      Product(pages, Max(0, caps.maxPages), Max(0, maxAttempts));
      if late(pages) { return Reading(yielded, Some(Timeout), pages), fetches; }
      var answer, made := Fetch(w, pages, cursor, maxAttempts);
      assert answer == server(pages, cursor);
      fetches := fetches + made;
      if answer.Err? { return Reading(yielded, Some(answer.error), pages + 1), fetches; }
      var page := answer.value;
      if pages + 1 > caps.maxPages { return Reading(yielded, Some(PaginationOverflow), pages + 1), fetches; }
      if rows + |page.rows| > caps.maxRows { return Reading(yielded, Some(PaginationOverflow), pages + 1), fetches; }
      if |page.rows| > 0 {
        yielded := yielded + [page.rows];
      }
      if LastPage(page) { return Reading(yielded, None, pages + 1), fetches; }
      if page.nextCursor == cursor || page.nextCursor.value in seen {
        return Reading(yielded, Some(PaginationCycle), pages + 1), fetches;
      }
      seen := seen + {page.nextCursor.value};
      cursor := page.nextCursor;
      pages := pages + 1;
      rows := rows + |page.rows|;
    }
  }

  lemma Product(pages: nat, maxPages: nat, m: nat)
    requires pages <= maxPages
    ensures (pages + 1) * m == pages * m + m && pages * m + m <= (maxPages + 1) * m
  {
    assert (maxPages - pages) * m >= 0;
    assert (maxPages + 1) * m == (pages + 1) * m + (maxPages - pages) * m;
  }
}
