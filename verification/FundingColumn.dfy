/** The funding column of a market tape: sparse change points standing for dense per-minute data,
    the point-in-time reading taken from it, and the coverage summary computed beside it. */
module FundingColumn {
  import opened Basics

  datatype Funding = Funding(ts: int, rate: real)

  /** The snapshot stored for minute `ts`: building a map from the dense list keeps the last one. */
  function SnapAt(dense: seq<Funding>, ts: int): (r: Option<Funding>)
    ensures r.Some? ==> r.value in dense && r.value.ts == ts
    ensures r.None? <==> (forall i :: 0 <= i < |dense| ==> dense[i].ts != ts)
  {
    if dense == [] then None
    else if dense[|dense| - 1].ts == ts then Some(dense[|dense| - 1])
    else SnapAt(dense[..|dense| - 1], ts)
  }

  predicate Covered(dense: seq<Funding>, ts: int) {
    SnapAt(dense, ts).Some?
  }

  function TsOf(dense: seq<Funding>): (r: seq<int>)
    ensures |r| == |dense| && forall i :: 0 <= i < |dense| ==> r[i] == dense[i].ts
  {
    seq(|dense|, i requires 0 <= i < |dense| => dense[i].ts)
  }

  /** Bar minutes together with the covered funding minutes, ascending and without repeats. */
  function Timeline(dense: seq<Funding>, grid: seq<int>): (r: seq<int>)
    ensures StrictlyAscending(r)
    ensures forall ts :: ts in r <==> ts in grid || Covered(dense, ts)
  {
    assert forall ts :: Covered(dense, ts) <==> ts in TsOf(dense);
    Distinct(grid + TsOf(dense))
  }

  /** Minute number `k` opens a new change point: it is covered, and the minute before it in the
      timeline is absent, uncovered or carries another rate. */
  predicate OpensChange(dense: seq<Funding>, timeline: seq<int>, k: nat)
    requires k < |timeline|
  {
    var here := SnapAt(dense, timeline[k]);
    here.Some? &&
    (k == 0 ||
     var before := SnapAt(dense, timeline[k - 1]);
     before.None? || before.value.rate != here.value.rate)
  }

  /** The change points among the first `k` minutes of the timeline. */
  function ChangePoints(dense: seq<Funding>, timeline: seq<int>, k: nat): (r: seq<Funding>)
    requires k <= |timeline|
  {
    if k == 0 then []
    else if OpensChange(dense, timeline, k - 1)
    then ChangePoints(dense, timeline, k - 1) + [SnapAt(dense, timeline[k - 1]).value]
    else ChangePoints(dense, timeline, k - 1)
  }

  function Column(dense: seq<Funding>, grid: seq<int>): (r: seq<Funding>) {
    var timeline := Timeline(dense, grid);
    ChangePoints(dense, timeline, |timeline|)
  }

  /** The last point, in list order, that is not later than `t`. */
  function LastAtOrBefore(points: seq<Funding>, t: int): (r: Option<Funding>)
    ensures r.Some? ==> r.value in points && r.value.ts <= t
    ensures r.None? <==> (forall i :: 0 <= i < |points| ==> points[i].ts > t)
  {
    if points == [] then None
    else if points[|points| - 1].ts <= t then Some(points[|points| - 1])
    else LastAtOrBefore(points[..|points| - 1], t)
  }

  /** The latest covered minute at or before `t` among the first `k` minutes of the timeline. */
  function LatestCovered(dense: seq<Funding>, timeline: seq<int>, k: nat, t: int): (r: Option<Funding>)
    requires k <= |timeline|
  {
    if k == 0 then None
    else if timeline[k - 1] <= t && Covered(dense, timeline[k - 1]) then SnapAt(dense, timeline[k - 1])
    else LatestCovered(dense, timeline, k - 1, t)
  }

  lemma {:induction false} ChangePointsAscend(dense: seq<Funding>, timeline: seq<int>, k: nat)
    requires StrictlyAscending(timeline) && k <= |timeline|
    ensures StrictlyAscending(TsOf(ChangePoints(dense, timeline, k)))
    ensures forall p :: p in ChangePoints(dense, timeline, k) ==>
              exists i :: 0 <= i < k && timeline[i] == p.ts
  {
    if k != 0 {
      ChangePointsAscend(dense, timeline, k - 1);
      var before := ChangePoints(dense, timeline, k - 1);
      assert forall i :: 0 <= i < |before| ==> before[i] in before && before[i].ts < timeline[k - 1];
    }
  }

  /** The rate held by the change points at `t` is the dense rate of the latest covered minute. */
  lemma {:induction false} HeldRate(dense: seq<Funding>, timeline: seq<int>, k: nat, t: int)
    requires StrictlyAscending(timeline) && k <= |timeline|
    ensures var held := LastAtOrBefore(ChangePoints(dense, timeline, k), t);
            var latest := LatestCovered(dense, timeline, k, t);
            held.Some? == latest.Some? && (held.Some? ==> held.value.rate == latest.value.rate)
  {
    if k != 0 {
      HeldRate(dense, timeline, k - 1, t);
      var before := ChangePoints(dense, timeline, k - 1);
      var ts := timeline[k - 1];
      if OpensChange(dense, timeline, k - 1) {
        var snap := SnapAt(dense, ts).value;
        assert (before + [snap])[..|before|] == before;
      } else if Covered(dense, ts) && ts <= t {
        assert timeline[k - 2] < ts;
      }
    }
  }

  lemma {:induction false} LatestIsItself(dense: seq<Funding>, timeline: seq<int>, k: nat, i: nat)
    requires StrictlyAscending(timeline) && i < k <= |timeline| && Covered(dense, timeline[i])
    ensures LatestCovered(dense, timeline, k, timeline[i]) == SnapAt(dense, timeline[i])
    decreases k
  {
    if i < k - 1 {
      LatestIsItself(dense, timeline, k - 1, i);
      assert timeline[i] < timeline[k - 1];
    }
  }

  /** At every covered minute the sparse column answers with the dense rate of that very minute. */
  lemma SparseEqualsDense(dense: seq<Funding>, grid: seq<int>, ts: int)
    requires Covered(dense, ts)
    ensures LastAtOrBefore(Column(dense, grid), ts).Some?
    ensures LastAtOrBefore(Column(dense, grid), ts).value.rate == SnapAt(dense, ts).value.rate
  {
    var timeline := Timeline(dense, grid);
    assert ts in timeline;
    var i :| 0 <= i < |timeline| && timeline[i] == ts;
    HeldRate(dense, timeline, |timeline|, ts);
    LatestIsItself(dense, timeline, |timeline|, i);
  }

  /** `buildFundingColumn`: one pass over the timeline with two running variables. */
  method BuildFundingColumn(dense: seq<Funding>, grid: seq<int>) returns (points: seq<Funding>)
    ensures points == Column(dense, grid)
    ensures StrictlyAscending(TsOf(points))
  {
    var timeline := Timeline(dense, grid);
    points := [];
    var prevCovered := false;
    var lastRate: Option<real> := None;
    var k := 0;
    while k < |timeline|
      invariant 0 <= k <= |timeline|
      invariant points == ChangePoints(dense, timeline, k)
      invariant prevCovered == (k > 0 && Covered(dense, timeline[k - 1]))
      invariant prevCovered ==> lastRate == Some(SnapAt(dense, timeline[k - 1]).value.rate)
    {
      var ts := timeline[k];
      if !Covered(dense, ts) {
        prevCovered := false;
      } else {
        var snap := SnapAt(dense, ts).value;
        if !prevCovered || lastRate != Some(snap.rate) {
          points := points + [snap];
        }
        prevCovered := true;
        lastRate := Some(snap.rate);
      }
      k := k + 1;
    }
    ChangePointsAscend(dense, timeline, |timeline|);
  }

  lemma {:induction false} LastSplit(points: seq<Funding>, lo: nat, t: int)
    requires StrictlyAscending(TsOf(points)) && lo <= |points|
    requires lo > 0 ==> points[lo - 1].ts <= t
    requires lo < |points| ==> points[lo].ts > t
    ensures LastAtOrBefore(points, t) == if lo == 0 then None else Some(points[lo - 1])
    decreases |points|
  {
    var ts := TsOf(points);
    if lo < |points| {
      assert ts[lo] <= ts[|points| - 1];
      assert TsOf(points[..|points| - 1]) == ts[..|points| - 1];
      LastSplit(points[..|points| - 1], lo, t);
    }
  }

  /** The column's accessor: binary search over the change points. */
  method FundingAt(points: seq<Funding>, minuteTs: int) returns (found: Option<Funding>)
    requires StrictlyAscending(TsOf(points))
    ensures found == LastAtOrBefore(points, minuteTs)
  {
    ghost var ts := TsOf(points);
    var lo, hi := 0, |points| - 1;
    found := None;
    while lo <= hi
      invariant 0 <= lo <= hi + 1 <= |points|
      invariant found == if lo == 0 then None else Some(points[lo - 1])
      invariant lo > 0 ==> points[lo - 1].ts <= minuteTs
      invariant forall i :: hi < i < |points| ==> ts[i] > minuteTs
    {
      var mid := (lo + hi) / 2;
      if points[mid].ts <= minuteTs {
        found := Some(points[mid]);
        lo := mid + 1;
      } else {
        assert forall i :: mid <= i < |points| ==> ts[mid] <= ts[i];
        hi := mid - 1;
      }
    }
    LastSplit(points, lo, minuteTs);
  }

  // ---------------------------------------------------------------- readings and coverage

  datatype Reading = Missing | Stale(point: Funding) | Present(point: Funding)

  /** `fundingReadingAt` with its one-bar stale grace; a cadence makes the grace elapsed-aware. */
  function ReadingAt(dense: seq<Funding>, column: seq<Funding>, grid: seq<int>, minuteTs: int, idx: int,
                     cadenceMs: Option<int>): (r: Reading)
  {
    match LastAtOrBefore(column, minuteTs)
    case None => Missing
    case Some(point) =>
      if Covered(dense, minuteTs) then Present(point)
      else if 0 <= idx - 1 < |grid| && Covered(dense, grid[idx - 1]) &&
              (cadenceMs.None? || minuteTs - grid[idx - 1] <= cadenceMs.value)
      then Stale(point)
      else Missing
  }

  datatype CoverageState = CsPresent | CsStale | CsMissing

  function CoveredCount(dense: seq<Funding>, grid: seq<int>): (r: nat)
    ensures r <= |grid|
    ensures r == 0 <==> forall i :: 0 <= i < |grid| ==> !Covered(dense, grid[i])
  {
    if grid == [] then 0
    else CoveredCount(dense, grid[..|grid| - 1]) + if Covered(dense, grid[|grid| - 1]) then 1 else 0
  }

  /** `coverageStateAtEnd` for funding. */
  function StateAtEnd(dense: seq<Funding>, grid: seq<int>): (r: CoverageState) {
    if |grid| == 0 || CoveredCount(dense, grid) == 0 then CsMissing
    else if Covered(dense, grid[|grid| - 1]) then CsPresent
    else if |grid| >= 2 && Covered(dense, grid[|grid| - 2]) then CsStale
    else CsMissing
  }

  function StateOf(r: Reading): CoverageState {
    match r
    case Missing => CsMissing
    case Stale(_) => CsStale
    case Present(_) => CsPresent
  }

  /** The reported coverage state is the state of the cadence-free reading taken at the last bar. */
  lemma EndStateIsReadingState(dense: seq<Funding>, grid: seq<int>)
    requires Ascending(grid) && grid != []
    ensures StateAtEnd(dense, grid) ==
            StateOf(ReadingAt(dense, Column(dense, grid), grid, grid[|grid| - 1], |grid| - 1, None))
  {
    var n := |grid|;
    if Covered(dense, grid[n - 1]) {
      SparseEqualsDense(dense, grid, grid[n - 1]);
    } else if n >= 2 && Covered(dense, grid[n - 2]) {
      SparseEqualsDense(dense, grid, grid[n - 2]);
      var early := LastAtOrBefore(Column(dense, grid), grid[n - 2]).value;
      assert early in Column(dense, grid) && early.ts <= grid[n - 1];
    }
  }

  // ---------------------------------------------------------------- locality in time

  ghost predicate AgreeThrough(d: seq<Funding>, e: seq<Funding>, upTo: int) {
    forall ts :: ts <= upTo ==> SnapAt(d, ts) == SnapAt(e, ts)
  }

  ghost predicate SameMinutesThrough(g: seq<int>, h: seq<int>, upTo: int) {
    forall ts :: ts <= upTo ==> (ts in g <==> ts in h)
  }

  /** Length of the part of an ascending sequence that is not later than `upTo`. */
  ghost function Cut(s: seq<int>, upTo: int): (k: nat)
    requires StrictlyAscending(s)
    ensures k <= |s|
    ensures forall i :: 0 <= i < k ==> s[i] <= upTo
    ensures forall i :: k <= i < |s| ==> s[i] > upTo
  {
    if s == [] || s[|s| - 1] <= upTo then |s| else Cut(s[..|s| - 1], upTo)
  }

  lemma CutsAgree(g: seq<int>, h: seq<int>, upTo: int)
    requires StrictlyAscending(g) && StrictlyAscending(h) && SameMinutesThrough(g, h, upTo)
    ensures Cut(g, upTo) == Cut(h, upTo) && g[..Cut(g, upTo)] == h[..Cut(h, upTo)]
  {
    var a, b := g[..Cut(g, upTo)], h[..Cut(h, upTo)];
    forall x ensures x in a <==> x in b {
      if x in a {
        assert x <= upTo && x in g && x in h;
        var i :| 0 <= i < |h| && h[i] == x;
        assert h[i] in b;
      }
      if x in b {
        assert x <= upTo && x in h && x in g;
        var i :| 0 <= i < |g| && g[i] == x;
        assert g[i] in a;
      }
    }
    AscendingUnique(a, b);
  }

  lemma {:induction false} ChangePointsLocal(d: seq<Funding>, e: seq<Funding>, s: seq<int>, r: seq<int>, k: nat, upTo: int)
    requires k <= |s| && k <= |r| && s[..k] == r[..k]
    requires forall i :: 0 <= i < k ==> s[i] <= upTo
    requires AgreeThrough(d, e, upTo)
    ensures ChangePoints(d, s, k) == ChangePoints(e, r, k)
  {
    if k != 0 {
      assert s[..k - 1] == s[..k][..k - 1] == r[..k][..k - 1] == r[..k - 1];
      assert s[k - 1] == s[..k][k - 1] == r[..k][k - 1] == r[k - 1];
      if k >= 2 {
        assert s[k - 2] == s[..k][k - 2] == r[..k][k - 2] == r[k - 2];
      }
      ChangePointsLocal(d, e, s, r, k - 1, upTo);
    }
  }

  lemma {:induction false} LaterPointsIgnored(dense: seq<Funding>, timeline: seq<int>, k: nat, n: nat, t: int)
    requires StrictlyAscending(timeline) && k <= n <= |timeline|
    requires forall i :: k <= i < n ==> timeline[i] > t
    ensures LastAtOrBefore(ChangePoints(dense, timeline, n), t) == LastAtOrBefore(ChangePoints(dense, timeline, k), t)
    decreases n
  {
    if k < n {
      LaterPointsIgnored(dense, timeline, k, n - 1, t);
      var before := ChangePoints(dense, timeline, n - 1);
      if OpensChange(dense, timeline, n - 1) {
        var snap := SnapAt(dense, timeline[n - 1]).value;
        assert (before + [snap])[..|before|] == before;
      }
    }
  }

  /** What the column answers at `t` depends on no funding or bar minute after `t`. */
  lemma ColumnIsLocal(d: seq<Funding>, e: seq<Funding>, g: seq<int>, h: seq<int>, upTo: int, t: int)
    requires AgreeThrough(d, e, upTo) && SameMinutesThrough(g, h, upTo) && t <= upTo
    ensures LastAtOrBefore(Column(d, g), t) == LastAtOrBefore(Column(e, h), t)
  {
    var s, r := Timeline(d, g), Timeline(e, h);
    assert SameMinutesThrough(s, r, upTo);
    CutsAgree(s, r, upTo);
    var k := Cut(s, upTo);
    ChangePointsLocal(d, e, s, r, k, upTo);
    LaterPointsIgnored(d, s, k, |s|, t);
    LaterPointsIgnored(e, r, k, |r|, t);
  }
}
