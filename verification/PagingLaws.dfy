/** What a paged read is against any server, said of the requests it makes and the pages it is given. */
module PagingLaws {
  import opened Basics
  import opened Paging

  // ---------------------------------------------------------------- one page, one refusal

  /** The page size in force: what was asked for, a thousand rows if nothing was, never above the server's cap. */
  lemma PageSizeLaw(limit: int, maxPageLimit: int)
    ensures maxPageLimit >= 1 ==> 1 <= PageLimit(limit, maxPageLimit) <= maxPageLimit
    ensures 1 <= limit <= maxPageLimit ==> PageLimit(limit, maxPageLimit) == limit
    ensures limit > maxPageLimit >= 1 ==> PageLimit(limit, maxPageLimit) == maxPageLimit
    ensures limit == 0 && maxPageLimit >= 1000 ==> PageLimit(limit, maxPageLimit) == 1000
    ensures limit == 0 && 1 <= maxPageLimit < 1000 ==> PageLimit(limit, maxPageLimit) == maxPageLimit
    ensures limit < 0 && maxPageLimit >= 1 ==> PageLimit(limit, maxPageLimit) == 1
    ensures maxPageLimit < 1 ==> PageLimit(limit, maxPageLimit) == maxPageLimit
  {
  }

  /** Exceptions, timeouts, rate limits and server errors are worth another attempt; nothing else is. */
  lemma RetryLaw(status: int, timedOut: bool, page: Page)
    ensures Transient(Thrown(timedOut)) && !Transient(Body(page))
    ensures Transient(Refused(status)) <==> status in {408, 429} || (status >= 500 && status < 600)
    ensures CauseOf(Thrown(true)) == Timeout && CauseOf(Thrown(false)) == RowsUnavailable
    ensures CauseOf(Refused(status)) == Unauthorized <==> status in {401, 403}
    ensures CauseOf(Refused(status)) == DatasetNotFound <==> status == 404
    ensures CauseOf(Refused(status)) == RateLimited <==> status == 429
    ensures CauseOf(Refused(status)) == RowsUnavailable <==> status == 408 || (status >= 500 && status < 600)
    ensures CauseOf(Refused(status)) != Timeout && CauseOf(Refused(status)) != PaginationOverflow && CauseOf(Refused(status)) != PaginationCycle
  {
  }

  // ---------------------------------------------------------------- a whole read

  ghost function RowsIn(pages: seq<Page>): nat {
    if pages == [] then 0 else RowsIn(pages[..|pages| - 1]) + |pages[|pages| - 1].rows|
  }

  /** What is handed over: the rows of each page that has any. */
  ghost function Handed(pages: seq<Page>): seq<seq<Row>> {
    if pages == [] then []
    else
      var last := pages[|pages| - 1].rows;
      if last == [] then Handed(pages[..|pages| - 1]) else Handed(pages[..|pages| - 1]) + [last]
  }

  /** The pages a read went past: each was asked for in time with the cursor of the one before, kept within the caps,
      and named a cursor that had not been used. */
  ghost predicate WentPast(server: Server, late: nat -> bool, caps: Caps, cursors: seq<Option<string>>, pages: seq<Page>) {
    |cursors| == |pages| + 1 && cursors[0] == None && Given(server, late, cursors, pages) && EachOnce(cursors) &&
    |pages| <= Max(0, caps.maxPages) && (pages != [] ==> RowsIn(pages) <= caps.maxRows)
  }

  ghost predicate Given(server: Server, late: nat -> bool, cursors: seq<Option<string>>, pages: seq<Page>)
    requires |cursors| == |pages| + 1
  {
    forall i :: 0 <= i < |pages| ==> !late(i) && server(i, cursors[i]) == Ok(pages[i]) && pages[i].nextCursor == cursors[i + 1]
  }

  ghost predicate EachOnce(cursors: seq<Option<string>>) {
    (forall i :: 0 < i < |cursors| ==> cursors[i].Some? && cursors[i].value != "") &&
    forall i, j :: 0 <= i < j < |cursors| ==> cursors[i] != cursors[j]
  }

  /** How it ends at the next request: too late to ask; refused; one page or too many rows over the caps; the last page;
      or a page that points back to a cursor used before. */
  ghost predicate EndsThere(server: Server, late: nat -> bool, caps: Caps, cursors: seq<Option<string>>, pages: seq<Page>, r: Reading)
    requires |cursors| == |pages| + 1
  {
    var n := |pages|;
    if late(n) then r == Reading(Handed(pages), Some(Timeout), n)
    else
      r.requests == n + 1 &&
      match server(n, cursors[n])
      case Err(cause) => r.failure == Some(cause) && r.yielded == Handed(pages)
      case Ok(page) =>
        if n + 1 > caps.maxPages || RowsIn(pages + [page]) > caps.maxRows then r.failure == Some(PaginationOverflow) && r.yielded == Handed(pages)
        else
          r.yielded == Handed(pages + [page]) &&
          if page.nextCursor.None? || page.nextCursor == Some("") then r.failure == None
          else r.failure == Some(PaginationCycle) && page.nextCursor in cursors
  }

  ghost function Used(cursors: seq<Option<string>>): set<string> {
    set i | 0 <= i < |cursors| && cursors[i].Some? :: cursors[i].value
  }

  lemma HandedOne(pages: seq<Page>, page: Page)
    ensures Handed(pages + [page]) == Yield(Handed(pages), page.rows) && RowsIn(pages + [page]) == RowsIn(pages) + |page.rows|
  {
    assert (pages + [page])[..|pages|] == pages;
  }

  lemma GoesPast(server: Server, late: nat -> bool, caps: Caps, cursors: seq<Option<string>>, pages: seq<Page>, page: Page)
    requires WentPast(server, late, caps, cursors, pages)
    requires var n := |pages|; !late(n) && server(n, cursors[n]) == Ok(page) && n + 1 <= caps.maxPages && RowsIn(pages) + |page.rows| <= caps.maxRows
    requires !LastPage(page) && page.nextCursor.value !in Used(cursors)
    ensures WentPast(server, late, caps, cursors + [page.nextCursor], pages + [page])
    ensures Used(cursors + [page.nextCursor]) == Used(cursors) + {page.nextCursor.value}
  {
    UsedGrows(cursors, page.nextCursor.value);
    UsedLaw(cursors);
    HandedOne(pages, page);
    hide Used, RowsIn, Handed, EachOnce, Given;
    GivenOne(server, late, cursors, pages, page);
    OnceMore(cursors, page.nextCursor);
  }

  lemma GivenOne(server: Server, late: nat -> bool, cursors: seq<Option<string>>, pages: seq<Page>, page: Page)
    requires |cursors| == |pages| + 1 && Given(server, late, cursors, pages) && !late(|pages|) && server(|pages|, cursors[|pages|]) == Ok(page)
    ensures Given(server, late, cursors + [page.nextCursor], pages + [page])
  {
  }

  lemma OnceMore(cursors: seq<Option<string>>, next: Option<string>)
    requires EachOnce(cursors) && next.Some? && next.value != "" && next !in cursors
    ensures EachOnce(cursors + [next])
  {
  }

  lemma UsedLaw(cursors: seq<Option<string>>)
    ensures forall text :: text in Used(cursors) <==> Some(text) in cursors
  {
  }

  lemma UsedGrows(cursors: seq<Option<string>>, text: string)
    ensures Used(cursors + [Some(text)]) == Used(cursors) + {text}
  {
    UsedLaw(cursors);
    UsedLaw(cursors + [Some(text)]);
    hide Used;
    forall x ensures x in Used(cursors + [Some(text)]) <==> x in Used(cursors) + {text} {
      assert Some(x) in cursors + [Some(text)] <==> Some(x) in cursors || x == text;
    }
  }

  lemma {:induction false} RestLaw(server: Server, late: nat -> bool, caps: Caps, cursors: seq<Option<string>>, pages: seq<Page>)
    returns (cs: seq<Option<string>>, ps: seq<Page>)
    requires |cursors| == |pages| + 1 && WentPast(server, late, caps, cursors, pages)
    ensures |cs| == |ps| + 1 && WentPast(server, late, caps, cs, ps)
    ensures EndsThere(server, late, caps, cs, ps,
                      Rest(server, late, caps, cursors[|pages|], Used(cursors), |pages|, RowsIn(pages), Handed(pages)))
    decreases caps.maxPages + 1 - |pages|
  {
    hide WentPast, Handed, RowsIn, Used;
    var n := |pages|;
    cs, ps := cursors, pages;
    if !late(n) && server(n, cursors[n]).Ok? {
      var page := server(n, cursors[n]).value;
      Request(server, late, caps, cursors[n], Used(cursors), n, RowsIn(pages), Handed(pages), page);
      HandedOne(pages, page);
      UsedLaw(cursors);
      if n + 1 <= caps.maxPages && RowsIn(pages) + |page.rows| <= caps.maxRows && !LastPage(page) && page.nextCursor.value !in Used(cursors) {
        GoesPast(server, late, caps, cursors, pages, page);
        cs, ps := RestLaw(server, late, caps, cursors + [page.nextCursor], pages + [page]);
      }
    }
  }

  /** Every read, against any server and any deadline, goes past some pages and ends in one of these ways. */
  lemma ReadingLaw(server: Server, late: nat -> bool, caps: Caps)
    ensures exists cs, ps :: WentPast(server, late, caps, cs, ps) && EndsThere(server, late, caps, cs, ps, Rest(server, late, caps, None, {}, 0, 0, []))
  {
    assert Used([None]) == {};
    assert WentPast(server, late, caps, [None], []);
    var cs, ps := RestLaw(server, late, caps, [None], []);
  }
}
