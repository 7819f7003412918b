/** Walk-forward analysis: splitting a period into folds, and accounting for every fold of a run. */
module WalkForward {
  import opened Basics

  // ---------------------------------------------------------------- the split

  datatype Mode = Rolling | Expanding | OtherMode
  datatype Scheme = Scheme(folds: int, mode: Mode)

  /** The bounds as `Date.parse` reads them; `None` is an unparseable date. */
  datatype Period = Period(from: Option<int>, until: Option<int>)

  datatype Window = Window(from: int, until: int)
  datatype Fold = Fold(index: nat, train: Window, test: Window)
  datatype ConfigError = BadBounds | EmptyPeriod | BadFolds | BadMode

  /** `Math.round(a / b)` for a non-negative quotient: to the nearest, halves up. */
  function Rounded(a: nat, b: nat): (r: nat)
    requires b > 0
  {
    (2 * a + b) / (2 * b)
  }

  /** Edge `k` of the `segments` equal parts of a period. */
  function Boundary(from: int, total: nat, segments: nat, k: nat): int
    requires segments > 0
  {
    from + Rounded(total * k, segments)
  }

  /** A multiple of `d` strictly between `d * lo` and `d * hi` has its factor between them. */
  lemma FactorBetween(d: int, k: int, lo: int, hi: int)
    requires d > 0 && d * lo < d * k < d * hi
    ensures lo < k < hi
  {
  }

  lemma DivisionStep(x: nat, y: nat, d: nat)
    requires d > 0
    ensures y / d <= (x + y) / d - x / d <= y / d + 1
  {
    var p, q, s := x / d, y / d, (x + y) / d;
    assert x == d * p + x % d && y == d * q + y % d && x + y == d * s + (x + y) % d;
    var k := s - p - q;
    assert d * k == d * s - d * p - d * q;
    assert d * -1 == -1 * d && d * 2 == 2 * d;
    FactorBetween(d, k, -1, 2);
  }

  lemma DoubleBoth(a: nat, b: nat)
    requires b > 0
    ensures (2 * a) / (2 * b) == a / b
  {
    var q := a / b;
    assert a == b * q + a % b;
    assert (2 * b) * q == 2 * (b * q);
    Quotient(2 * a, 2 * b, q, 2 * (a % b));
  }

  lemma Quotient(x: nat, d: nat, q: nat, r: nat)
    requires d > 0 && x == d * q + r && r < d
    ensures x / d == q
  {
    var p := x / d;
    assert x == d * p + x % d;
    assert d * (p - q) == d * p - d * q;
    assert d * -1 == -1 * d && d * 1 == d;
    FactorBetween(d, p - q, -1, 1);
  }

  /** Neighbouring edges are the segment length apart, give or take the one millisecond of rounding. */
  lemma SegmentLength(from: int, total: nat, segments: nat, k: nat)
    requires segments > 0
    ensures total / segments <= Boundary(from, total, segments, k + 1) - Boundary(from, total, segments, k) <= total / segments + 1
  {
    var x := 2 * (total * k) + segments;
    assert total * (k + 1) == total * k + total;
    assert 2 * (total * (k + 1)) + segments == x + 2 * total;
    DivisionStep(x, 2 * total, 2 * segments);
    DoubleBoth(total, segments);
  }

  lemma FirstAndLastEdge(from: int, total: nat, segments: nat)
    requires segments > 0
    ensures Boundary(from, total, segments, 0) == from && Boundary(from, total, segments, segments) == from + total
  {
    assert total * 0 == 0;
    Quotient(segments, 2 * segments, 0, segments);
    var x := 2 * (total * segments) + segments;
    assert (2 * segments) * total == 2 * (total * segments);
    Quotient(x, 2 * segments, total, segments);
  }

  /** What a split must be: test windows one after the other up to the end of the period, each training
      window ending where its test window starts. */
  ghost predicate Tiles(folds: seq<Fold>, from: int, until: int, n: nat, mode: Mode) {
    |folds| == n &&
    (forall i :: 0 <= i < n ==> folds[i].index == i && folds[i].train.until == folds[i].test.from && folds[i].train.from <= folds[i].train.until) &&
    (forall i :: 0 <= i < n ==> folds[i].test.from <= folds[i].test.until) &&
    (forall i :: 0 <= i < n - 1 ==> folds[i].test.until == folds[i + 1].test.from) &&
    (n > 0 ==> folds[n - 1].test.until == until) &&
    (mode == Expanding ==> forall i :: 0 <= i < n ==> folds[i].train.from == from) &&
    (mode == Rolling ==> n > 0 ==> folds[0].train.from == from) &&
    (mode == Rolling ==> forall i :: 0 < i < n ==> folds[i].train == folds[i - 1].test)
  }

  /** No two test windows differ by more than a millisecond in length, nor does the warm-up before the
      first of them from any. */
  ghost predicate Even(folds: seq<Fold>, from: int) {
    (forall i, j :: 0 <= i < |folds| && 0 <= j < |folds| ==> Length(folds[i].test) <= Length(folds[j].test) + 1) &&
    forall i :: 0 <= i < |folds| ==> -1 <= Length(folds[i].test) - (folds[0].test.from - from) <= 1
  }

  /** `x` is `num / den` rounded to the nearest whole number, halves up. */
  predicate Nearest(x: int, num: int, den: int) {
    2 * num - den < 2 * (den * x) <= 2 * num + den
  }

  /** Test window `i` starts `i + 1` of the `n + 1` equal parts into the period, to the nearest millisecond. */
  ghost predicate OnEdges(folds: seq<Fold>, from: int, total: nat) {
    forall i :: 0 <= i < |folds| ==> Nearest(folds[i].test.from - from, total * (i + 1), |folds| + 1)
  }

  lemma RoundedIsNearest(a: nat, b: nat)
    requires b > 0
    ensures Nearest(Rounded(a, b), a, b)
  {
    var r := Rounded(a, b);
    assert 2 * a + b == (2 * b) * r + (2 * a + b) % (2 * b);
    assert (2 * b) * r == 2 * (b * r);
  }

  function Length(w: Window): int { w.until - w.from }

  function ConfigProblem(p: Period, s: Scheme): Option<ConfigError> {
    if p.from.None? || p.until.None? then Some(BadBounds)
    else if p.until.value <= p.from.value then Some(EmptyPeriod)
    else if s.folds < 1 then Some(BadFolds)
    else if s.mode == OtherMode then Some(BadMode)
    else None
  }

  function FoldAt(from: int, total: nat, segments: nat, mode: Mode, i: nat): Fold
    requires segments > 0
  {
    var testFrom := Boundary(from, total, segments, i + 1);
    Fold(i, Window(if mode == Expanding then from else Boundary(from, total, segments, i), testFrom),
         Window(testFrom, Boundary(from, total, segments, i + 2)))
  }

  /** `splitWalkForward`. */
  method SplitWalkForward(p: Period, s: Scheme) returns (r: Result<seq<Fold>, ConfigError>)
    ensures match ConfigProblem(p, s)
            case Some(e) => r == Err(e)
            case None => r.Ok? && Tiles(r.value, p.from.value, p.until.value, s.folds, s.mode) && Even(r.value, p.from.value)
    ensures r.Ok? ==> p.from.Some? && p.until.Some? && p.from.value < p.until.value &&
                      OnEdges(r.value, p.from.value, p.until.value - p.from.value)
    ensures r.Ok? <==> p.from.Some? && p.until.Some? && p.from.value < p.until.value && s.folds >= 1 && (s.mode == Rolling || s.mode == Expanding)
  {
    if p.from.None? || p.until.None? { return Err(BadBounds); }
    if p.until.value <= p.from.value { return Err(EmptyPeriod); }
    if s.folds < 1 { return Err(BadFolds); }
    if s.mode != Rolling && s.mode != Expanding { return Err(BadMode); }
    var segments: nat, total: nat, from := s.folds + 1, p.until.value - p.from.value, p.from.value;
    var folds: seq<Fold> := [];
    var i := 0;
    while i < s.folds
      invariant 0 <= i <= s.folds && |folds| == i
      invariant forall k :: 0 <= k < i ==> folds[k] == FoldAt(from, total, segments, s.mode, k)
    {
      hide Boundary;
      var testFrom, testTo := Boundary(from, total, segments, i + 1), Boundary(from, total, segments, i + 2);
      var trainFrom := if s.mode == Expanding then from else Boundary(from, total, segments, i);
      folds := folds + [Fold(i, Window(trainFrom, testFrom), Window(testFrom, testTo))];
      i := i + 1;
    }
    SplitTiles(folds, from, total, s.folds, s.mode);
    SplitOnEdges(folds, from, total, s.mode);
    return Ok(folds);
  }

  lemma SplitOnEdges(folds: seq<Fold>, from: int, total: nat, mode: Mode)
    requires forall k :: 0 <= k < |folds| ==> folds[k] == FoldAt(from, total, |folds| + 1, mode, k)
    ensures OnEdges(folds, from, total)
  {
    hide Rounded, Nearest;
    forall i | 0 <= i < |folds| ensures Nearest(folds[i].test.from - from, total * (i + 1), |folds| + 1) {
      RoundedIsNearest(total * (i + 1), |folds| + 1);
    }
  }

  lemma SplitTiles(folds: seq<Fold>, from: int, total: nat, n: nat, mode: Mode)
    requires |folds| == n && n > 0 && forall k :: 0 <= k < n ==> folds[k] == FoldAt(from, total, n + 1, mode, k)
    ensures Tiles(folds, from, from + total, n, mode) && Even(folds, from)
  {
    hide Boundary, Tiles, Even, Shaped;
    ghost var size := total / (n + 1);
    forall i | 0 <= i < n ensures Shaped(folds[i], size) {
      FoldShape(from, total, n + 1, mode, i, size);
    }
    FirstAndLastEdge(from, total, n + 1);
    SegmentLength(from, total, n + 1, 0);
    ShapedTile(folds, from, total, n, mode, size);
    ShapedEven(folds, from, size);
    assert Tiles(folds, from, from + total, n, mode) && Even(folds, from);
  }

  lemma ShapedTile(folds: seq<Fold>, from: int, total: nat, n: nat, mode: Mode, size: nat)
    requires |folds| == n && n > 0 && forall k :: 0 <= k < n ==> folds[k] == FoldAt(from, total, n + 1, mode, k) && Shaped(folds[k], size)
    requires Boundary(from, total, n + 1, 0) == from && Boundary(from, total, n + 1, n + 1) == from + total
    ensures Tiles(folds, from, from + total, n, mode)
  {
  }

  lemma ShapedEven(folds: seq<Fold>, from: int, size: nat)
    requires |folds| > 0 && (forall k :: 0 <= k < |folds| ==> Shaped(folds[k], size)) && size <= folds[0].test.from - from <= size + 1
    ensures Even(folds, from)
  {
  }

  ghost predicate Shaped(f: Fold, size: nat) {
    f.train.from <= f.train.until && size <= Length(f.test) <= size + 1
  }

  lemma FoldShape(from: int, total: nat, segments: nat, mode: Mode, i: nat, size: nat)
    requires segments > 0 && size == total / segments
    ensures Shaped(FoldAt(from, total, segments, mode, i), size)
  {
    SegmentLength(from, total, segments, i);
    SegmentLength(from, total, segments, i + 1);
  }

  // ---------------------------------------------------------------- the run

  type Text(==, !new)

  datatype FailureCode = BudgetExhausted | RunnerFailure | Classified(code: Text)

  /** What happens to a fold that is run: it throws (with a code of its own or without), or it is
      evaluated on its test window, unless the evaluation itself throws. */
  datatype FoldRun = Threw(code: FailureCode) | Evaluated(points: nat, outcome: Text) | EvaluationThrew

  datatype FoldResult = FoldResult(index: nat, train: Window, test: Window, outcome: Text)
  datatype Failure = Failure(index: nat, code: FailureCode)
  datatype Reason = FoldsExceedsMax | SplitError | AllFoldsFailed | InsufficientFolds | InternalError

  datatype Report =
    | Unavailable(reason: Reason, failed: seq<Failure>, insufficient: seq<nat>)
    | Available(resolved: bool, folds: seq<FoldResult>, failed: seq<Failure>, insufficient: seq<nat>)

  /** The budget is cut at the first fold that finds the deadline exceeded, and stays cut. */
  ghost predicate Cut(late: nat -> bool, i: nat) {
    exists j :: 0 <= j <= i && late(j)
  }

  /** What a fold's index must be listed under. */
  datatype Verdict = Done(outcome: Text) | Failed(code: FailureCode) | TooThin | Broken

  ghost function VerdictOn(late: nat -> bool, run: nat -> FoldRun, i: nat): Verdict {
    if Cut(late, i) then Failed(BudgetExhausted)
    else match run(i)
      case Threw(code) => Failed(code)
      case EvaluationThrew => Broken
      case Evaluated(points, outcome) => if points < 2 then TooThin else Done(outcome)
  }

  /** A fold counts as insufficient exactly when it was run in time and gave fewer than two points; it completes
      exactly when it was run in time and gave two or more. */
  lemma VerdictLaw(late: nat -> bool, run: nat -> FoldRun, i: nat)
    ensures VerdictOn(late, run, i) == TooThin <==> (forall j :: 0 <= j <= i ==> !late(j)) && run(i).Evaluated? && run(i).points <= 1
    ensures VerdictOn(late, run, i).Done? <==> (forall j :: 0 <= j <= i ==> !late(j)) && run(i).Evaluated? && run(i).points >= 2
    ensures VerdictOn(late, run, i) == Failed(BudgetExhausted) <== exists j :: 0 <= j <= i && late(j)
    ensures (forall j :: 0 <= j <= i ==> !late(j)) && run(i).Threw? ==> VerdictOn(late, run, i) == Failed(run(i).code)
    ensures VerdictOn(late, run, i).Done? ==> VerdictOn(late, run, i).outcome == run(i).outcome
  {
  }

  function Indices(n: nat): (r: seq<nat>)
    ensures |r| == n && forall i :: 0 <= i < n ==> r[i] == i
  {
    seq(n, i => i)
  }

  function CompletedIds(folds: seq<FoldResult>): (r: seq<nat>)
    ensures |r| == |folds| && forall i :: 0 <= i < |r| ==> r[i] == folds[i].index
  {
    seq(|folds|, i requires 0 <= i < |folds| => folds[i].index)
  }

  function FailedIds(failed: seq<Failure>): (r: seq<nat>)
    ensures |r| == |failed| && forall i :: 0 <= i < |r| ==> r[i] == failed[i].index
  {
    seq(|failed|, i requires 0 <= i < |failed| => failed[i].index)
  }

  ghost predicate RightlyDone(f: FoldResult, windows: seq<Fold>, late: nat -> bool, run: nat -> FoldRun, n: nat)
    requires n <= |windows|
  {
    f.index < n && VerdictOn(late, run, f.index) == Done(f.outcome) && f.train == windows[f.index].train && f.test == windows[f.index].test
  }

  ghost predicate RightlyFailed(f: Failure, late: nat -> bool, run: nat -> FoldRun, n: nat) {
    f.index < n && VerdictOn(late, run, f.index) == Failed(f.code)
  }

  ghost predicate RightlyThin(i: nat, late: nat -> bool, run: nat -> FoldRun, n: nat) {
    i < n && VerdictOn(late, run, i) == TooThin
  }

  ghost predicate ListsMatch(windows: seq<Fold>, late: nat -> bool, run: nat -> FoldRun, n: nat,
                             folds: seq<FoldResult>, failed: seq<Failure>, insufficient: seq<nat>)
    requires n <= |windows|
  {
    (forall k :: 0 <= k < |folds| ==> RightlyDone(folds[k], windows, late, run, n)) &&
    (forall k :: 0 <= k < |failed| ==> RightlyFailed(failed[k], late, run, n)) &&
    (forall k :: 0 <= k < |insufficient| ==> RightlyThin(insufficient[k], late, run, n))
  }

  ghost predicate OnceEach(folds: seq<FoldResult>, failed: seq<Failure>, insufficient: seq<nat>, n: nat) {
    multiset(CompletedIds(folds)) + multiset(FailedIds(failed)) + multiset(insufficient) == multiset(Indices(n))
  }

  /** Each of the first `n` folds is listed exactly once, under what became of it. */
  ghost predicate Accounted(windows: seq<Fold>, late: nat -> bool, run: nat -> FoldRun, n: nat,
                            folds: seq<FoldResult>, failed: seq<Failure>, insufficient: seq<nat>)
    requires n <= |windows|
  {
    OnceEach(folds, failed, insufficient, n) && ListsMatch(windows, late, run, n, folds, failed, insufficient)
  }

  lemma NextIndex(n: nat)
    ensures multiset(Indices(n + 1)) == multiset(Indices(n)) + multiset{n}
  {
    assert Indices(n + 1) == Indices(n) + [n];
  }

  lemma NoneYet()
    ensures OnceEach([], [], [], 0)
  {
  }

  lemma OneDone(folds: seq<FoldResult>, failed: seq<Failure>, insufficient: seq<nat>, n: nat, f: FoldResult)
    requires OnceEach(folds, failed, insufficient, n) && f.index == n
    ensures OnceEach(folds + [f], failed, insufficient, n + 1)
  {
    NextIndex(n);
    assert CompletedIds(folds + [f]) == CompletedIds(folds) + [n];
  }

  lemma OneFailed(folds: seq<FoldResult>, failed: seq<Failure>, insufficient: seq<nat>, n: nat, f: Failure)
    requires OnceEach(folds, failed, insufficient, n) && f.index == n
    ensures OnceEach(folds, failed + [f], insufficient, n + 1)
  {
    NextIndex(n);
    assert FailedIds(failed + [f]) == FailedIds(failed) + [n];
  }

  lemma OneThin(folds: seq<FoldResult>, failed: seq<Failure>, insufficient: seq<nat>, n: nat)
    requires OnceEach(folds, failed, insufficient, n)
    ensures OnceEach(folds, failed, insufficient + [n], n + 1)
  {
    NextIndex(n);
  }

  /** The loop over the folds; nothing is returned when an evaluation throws. */
  method RunFolds(windows: seq<Fold>, late: nat -> bool, run: nat -> FoldRun)
    returns (broken: bool, folds: seq<FoldResult>, failed: seq<Failure>, insufficient: seq<nat>)
    requires forall i :: 0 <= i < |windows| ==> windows[i].index == i
    ensures broken <==> exists i :: 0 <= i < |windows| && VerdictOn(late, run, i) == Broken
    ensures !broken ==> Accounted(windows, late, run, |windows|, folds, failed, insufficient)
  {
    hide OnceEach, RightlyDone, RightlyFailed, RightlyThin, Cut;
    broken, folds, failed, insufficient := false, [], [], [];
    var budgetCut := false;
    NoneYet();
    var i := 0;
    while i < |windows|
      invariant 0 <= i <= |windows| && !broken
      invariant budgetCut <==> i > 0 && Cut(late, i - 1)
      invariant forall k :: 0 <= k < i ==> VerdictOn(late, run, k) != Broken
      invariant Accounted(windows, late, run, i, folds, failed, insufficient)
    {
      var fold := windows[i];
      CutNext(late, i);
      MatchWiden(windows, late, run, i, folds, failed, insufficient);
      if budgetCut || late(i) {
        budgetCut := true;
        OneFailed(folds, failed, insufficient, i, Failure(fold.index, BudgetExhausted));
        FailedRightly(late, run, i, BudgetExhausted);
        failed := failed + [Failure(fold.index, BudgetExhausted)];
      } else {
        match run(i)
        case Threw(code) =>
          OneFailed(folds, failed, insufficient, i, Failure(fold.index, code));
          FailedRightly(late, run, i, code);
          failed := failed + [Failure(fold.index, code)];
        case EvaluationThrew =>
          assert VerdictOn(late, run, i) == Broken;
          broken := true;
          return;
        case Evaluated(points, outcome) =>
          if points < 2 {
            OneThin(folds, failed, insufficient, i);
            ThinRightly(late, run, i);
            insufficient := insufficient + [fold.index];
          } else {
            var result := FoldResult(fold.index, fold.train, fold.test, outcome);
            OneDone(folds, failed, insufficient, i, result);
            DoneRightly(windows, late, run, i, result);
            folds := folds + [result];
          }
      }
      i := i + 1;
    }
  }

  lemma CutNext(late: nat -> bool, i: nat)
    ensures Cut(late, i) <==> (i > 0 && Cut(late, i - 1)) || late(i)
  {
  }

  lemma MatchWiden(windows: seq<Fold>, late: nat -> bool, run: nat -> FoldRun, n: nat,
                   folds: seq<FoldResult>, failed: seq<Failure>, insufficient: seq<nat>)
    requires n < |windows| && ListsMatch(windows, late, run, n, folds, failed, insufficient)
    ensures ListsMatch(windows, late, run, n + 1, folds, failed, insufficient)
  {
  }

  lemma FailedRightly(late: nat -> bool, run: nat -> FoldRun, i: nat, code: FailureCode)
    requires VerdictOn(late, run, i) == Failed(code)
    ensures RightlyFailed(Failure(i, code), late, run, i + 1)
  {
  }

  lemma ThinRightly(late: nat -> bool, run: nat -> FoldRun, i: nat)
    requires VerdictOn(late, run, i) == TooThin
    ensures RightlyThin(i, late, run, i + 1)
  {
  }

  lemma DoneRightly(windows: seq<Fold>, late: nat -> bool, run: nat -> FoldRun, i: nat, f: FoldResult)
    requires i < |windows| && f.index == i && f.train == windows[i].train && f.test == windows[i].test && VerdictOn(late, run, i) == Done(f.outcome)
    ensures RightlyDone(f, windows, late, run, i + 1)
  {
  }

  /** A report on the folds of a split: every fold accounted for, the status read off the lists. */
  ghost predicate Faithful(r: Report, windows: seq<Fold>, late: nat -> bool, run: nat -> FoldRun) {
    match r
    case Available(resolved, folds, failed, insufficient) =>
      Accounted(windows, late, run, |windows|, folds, failed, insufficient) && folds != [] && (resolved <==> failed == [] && insufficient == [])
    case Unavailable(reason, failed, insufficient) =>
      Accounted(windows, late, run, |windows|, [], failed, insufficient) && reason == if failed != [] then AllFoldsFailed else InsufficientFolds
  }

  ghost predicate FaithfulTo(r: Report, p: Period, s: Scheme, late: nat -> bool, run: nat -> FoldRun)
    requires ConfigProblem(p, s).None?
  {
    exists windows :: Tiles(windows, p.from.value, p.until.value, s.folds, s.mode) && Even(windows, p.from.value) &&
      OnEdges(windows, p.from.value, p.until.value - p.from.value) && Faithful(r, windows, late, run)
  }

  /** `runWalkForward`: refused outright, broken by an evaluation, or faithful about every fold. */
  method RunWalkForward(p: Period, s: Scheme, maxFolds: int, late: nat -> bool, run: nat -> FoldRun) returns (r: Report)
    ensures s.folds > maxFolds ==> r == Unavailable(FoldsExceedsMax, [], [])
    ensures s.folds <= maxFolds && ConfigProblem(p, s).Some? ==> r == Unavailable(SplitError, [], [])
    ensures s.folds <= maxFolds && ConfigProblem(p, s).None? ==>
              (if exists i :: 0 <= i < s.folds && VerdictOn(late, run, i) == Broken then r == Unavailable(InternalError, [], [])
               else FaithfulTo(r, p, s, late, run))
  {
    hide OnceEach, ListsMatch, VerdictOn, Even, OnEdges;
    if s.folds > maxFolds { return Unavailable(FoldsExceedsMax, [], []); }
    var split := SplitWalkForward(p, s);
    if split.Err? { return Unavailable(SplitError, [], []); }
    var windows := split.value;
    var broken, folds, failed, insufficient := RunFolds(windows, late, run);
    if broken { return Unavailable(InternalError, [], []); }
    ListSizes(folds, failed, insufficient, |windows|);
    if |folds| == 0 {
      assert folds == [];
      r := Unavailable(if |failed| > 0 then AllFoldsFailed else InsufficientFolds, failed, insufficient);
    } else {
      r := Available(|folds| == s.folds, folds, failed, insufficient);
    }
    assert Faithful(r, windows, late, run);
    assert FaithfulTo(r, p, s, late, run);
  }

  lemma ListSizes(folds: seq<FoldResult>, failed: seq<Failure>, insufficient: seq<nat>, n: nat)
    requires OnceEach(folds, failed, insufficient, n)
    ensures |folds| + |failed| + |insufficient| == n
  {
    var a, b, c := multiset(CompletedIds(folds)), multiset(FailedIds(failed)), multiset(insufficient);
    assert |a| == |folds| && |b| == |failed| && |c| == |insufficient|;
    assert |a + b + c| == |multiset(Indices(n))| == n;
  }

  /** Every fold index is in one of the three lists, and nowhere twice. */
  lemma ListedOnce(folds: seq<FoldResult>, failed: seq<Failure>, insufficient: seq<nat>, n: nat, i: nat)
    requires OnceEach(folds, failed, insufficient, n) && i < n
    ensures multiset(CompletedIds(folds))[i] + multiset(FailedIds(failed))[i] + multiset(insufficient)[i] == 1
  {
    IndexOnce(n, i);
  }

  lemma {:induction false} IndexOnce(n: nat, i: nat)
    ensures multiset(Indices(n))[i] == if i < n then 1 else 0
  {
    if n > 0 {
      IndexOnce(n - 1, i);
      NextIndex(n - 1);
    }
  }

  /** From the first budget cut on, every fold is reported as out of budget. */
  lemma CutFoldsAreReported(windows: seq<Fold>, late: nat -> bool, run: nat -> FoldRun, folds: seq<FoldResult>, failed: seq<Failure>,
                            insufficient: seq<nat>, i: nat, j: nat)
    requires Accounted(windows, late, run, |windows|, folds, failed, insufficient) && i <= j < |windows| && late(i)
    ensures Failure(j, BudgetExhausted) in failed
  {
    ListedOnce(folds, failed, insufficient, |windows|, j);
    assert Cut(late, j);
    assert VerdictOn(late, run, j) == Failed(BudgetExhausted);
    assert j !in CompletedIds(folds) by {
      forall k | 0 <= k < |folds| ensures folds[k].index != j { assert RightlyDone(folds[k], windows, late, run, |windows|); }
    }
    assert j !in insufficient by {
      forall k | 0 <= k < |insufficient| ensures insufficient[k] != j { assert RightlyThin(insufficient[k], late, run, |windows|); }
    }
    assert j in multiset(FailedIds(failed));
    var k :| 0 <= k < |failed| && FailedIds(failed)[k] == j;
    assert RightlyFailed(failed[k], late, run, |windows|);
  }
}
