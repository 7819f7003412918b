/** The completeness check of the promotion gate: does a tape cover a window on the trusted grid? */
module Coverage {
  import opened Basics

  // ---------------------------------------------------------------- what is checked

  /** The bar's half-open interval contains `at`. */
  predicate Contains(bar: int, interval: int, at: int) {
    bar <= at < bar + interval
  }

  /** `a` is the latest bar containing the left edge. */
  ghost predicate IsAnchor(bars: seq<int>, at: int, interval: int, a: int) {
    a in bars && Contains(a, interval, at) && forall b :: b in bars && Contains(b, interval, at) ==> b <= a
  }

  predicate InWindow(ts: int, from: int, end: int) {
    from <= ts < end
  }

  function Windowed(bars: seq<int>, n: nat, from: int, end: int): seq<int>
    requires n <= |bars|
  {
    if n == 0 then []
    else Windowed(bars, n - 1, from, end) + if InWindow(bars[n - 1], from, end) then [bars[n - 1]] else []
  }

  /** The grid slots of the window, stepping from `ts`. */
  function Slots(ts: int, from: int, end: int, interval: int): seq<int>
    requires interval > 0
    decreases end - ts
  {
    if ts >= end then [] else (if ts >= from then [ts] else []) + Slots(ts + interval, from, end, interval)
  }

  /** The tape covers the window: some bar contains the left edge, and the bars inside the window are, as
      a multiset, the grid from the latest such bar. */
  ghost predicate Covers(bars: seq<int>, from: int, end: int, interval: int)
    requires interval > 0
  {
    exists a :: IsAnchor(bars, from, interval, a) && multiset(Windowed(bars, |bars|, from, end)) == multiset(Slots(a, from, end, interval))
  }

  // ---------------------------------------------------------------- facts about grids and windows

  lemma {:induction false} SlotsGrid(ts: int, from: int, end: int, interval: int)
    requires interval > 0
    ensures StrictlyAscending(Slots(ts, from, end, interval))
    ensures forall x :: x in Slots(ts, from, end, interval) ==> InWindow(x, from, end) && ts <= x
    decreases end - ts
  {
    if ts < end {
      SlotsGrid(ts + interval, from, end, interval);
      var rest := Slots(ts + interval, from, end, interval);
      assert Slots(ts, from, end, interval) == if ts >= from then [ts] + rest else rest;
      hide Slots;
      assert forall j :: 0 <= j < |rest| ==> rest[j] in rest;
      assert forall x :: x in [ts] + rest ==> x == ts || x in rest;
    }
  }

  lemma {:induction false} WindowedCount(bars: seq<int>, n: nat, from: int, end: int, x: int)
    requires n <= |bars|
    ensures multiset(Windowed(bars, n, from, end))[x] == if InWindow(x, from, end) then multiset(bars[..n])[x] else 0
  {
    if n > 0 {
      var last, w := bars[n - 1], Windowed(bars, n - 1, from, end);
      WindowedCount(bars, n - 1, from, end, x);
      OneMore(w, last, x);
      WindowedOn(bars, n, from, end);
      hide Windowed;
      PrefixCount(bars, n, x);
    }
  }

  lemma WindowedOn(bars: seq<int>, n: nat, from: int, end: int)
    requires 0 < n <= |bars|
    ensures var w := Windowed(bars, n - 1, from, end);
            Windowed(bars, n, from, end) == if InWindow(bars[n - 1], from, end) then w + [bars[n - 1]] else w
  {
  }

  lemma PrefixCount(bars: seq<int>, n: nat, x: int)
    requires 0 < n <= |bars|
    ensures multiset(bars[..n])[x] == multiset(bars[..n - 1])[x] + if x == bars[n - 1] then 1 else 0
  {
    assert bars[..n] == bars[..n - 1] + [bars[n - 1]];
  }

  lemma OneMore(s: seq<int>, y: int, x: int)
    ensures multiset(s + [y])[x] == multiset(s)[x] + if x == y then 1 else 0
  {
  }

  lemma {:induction false} AscendingCount(s: seq<int>, x: int)
    requires StrictlyAscending(s)
    ensures multiset(s)[x] <= 1
  {
    if s != [] {
      var rest := s[1..];
      AscendingCount(rest, x);
      assert s == [s[0]] + rest;
      assert forall i :: 0 <= i < |rest| ==> s[0] < rest[i];
      assert s[0] !in rest;
    }
  }

  lemma SameMultiset(a: multiset<int>, b: multiset<int>)
    requires a <= b && |a| == |b|
    ensures a == b
  {
    assert b == a + (b - a);
    assert |b - a| == 0;
  }

  /** Every slot present and as many bars as slots: then the bars are the slots. */
  lemma ExactlyTheGrid(bars: seq<int>, from: int, end: int, interval: int, a: int)
    requires interval > 0 && forall x :: x in Slots(a, from, end, interval) ==> x in bars
    requires |Windowed(bars, |bars|, from, end)| == |Slots(a, from, end, interval)|
    ensures multiset(Windowed(bars, |bars|, from, end)) == multiset(Slots(a, from, end, interval))
  {
    var w, g := Windowed(bars, |bars|, from, end), Slots(a, from, end, interval);
    SlotsGrid(a, from, end, interval);
    assert bars[..|bars|] == bars;
    forall x ensures multiset(g)[x] <= multiset(w)[x] {
      AscendingCount(g, x);
      WindowedCount(bars, |bars|, from, end, x);
      if x in g {
        assert x in multiset(bars);
      }
    }
    SameMultiset(multiset(g), multiset(w));
  }

  lemma AnchorUnique(bars: seq<int>, at: int, interval: int, a: int, b: int)
    requires IsAnchor(bars, at, interval, a) && IsAnchor(bars, at, interval, b)
    ensures a == b
  {
  }

  // ---------------------------------------------------------------- the check itself

  method FindAnchor(bars: seq<int>, at: int, interval: int) returns (anchor: Option<int>)
    ensures anchor.Some? ==> IsAnchor(bars, at, interval, anchor.value)
    ensures anchor.None? ==> forall b :: b in bars ==> !Contains(b, interval, at)
  {
    anchor := None;
    for i := 0 to |bars|
      invariant anchor.Some? ==> IsAnchor(bars[..i], at, interval, anchor.value)
      invariant anchor.None? ==> forall b :: b in bars[..i] ==> !Contains(b, interval, at)
    {
      var ts := bars[i];
      assert forall b :: b in bars[..i + 1] <==> b in bars[..i] || b == ts;
      if ts <= at && ts + interval > at && (anchor.None? || ts > anchor.value) {
        anchor := Some(ts);
      }
    }
    assert bars[..|bars|] == bars;
  }

  /** `symbolCoversWindow`: true exactly when the tape covers the window. */
  method SymbolCoversWindow(bars: seq<int>, from: int, end: int, interval: int) returns (covered: bool)
    requires interval > 0
    ensures covered <==> Covers(bars, from, end, interval)
  {
    var present := set i | 0 <= i < |bars| :: bars[i];
    var anchor := FindAnchor(bars, from, interval);
    if anchor.None? { return false; }
    var a := anchor.value;
    ghost var grid := Slots(a, from, end, interval);
    ghost var passed: seq<int> := [];
    var expected, ts := 0, a;
    while ts < end
      invariant grid == passed + Slots(ts, from, end, interval) && expected == |passed|
      invariant forall x :: x in passed ==> x in bars
      decreases end - ts
    {
      if ts >= from {
        expected := expected + 1;
        if ts !in present {
          assert ts in grid && ts !in bars;
          MissingSlot(bars, from, end, interval, a, ts);
          return false;
        }
        passed := passed + [ts];
      }
      ts := ts + interval;
    }
    assert passed == grid;
    var actual := CountInWindow(bars, from, end);
    if actual == expected {
      ExactlyTheGrid(bars, from, end, interval, a);
    } else {
      Miscounted(bars, from, end, interval, a);
    }
    return actual == expected;
  }

  method CountInWindow(bars: seq<int>, from: int, end: int) returns (n: nat)
    ensures n == |Windowed(bars, |bars|, from, end)|
  {
    n := 0;
    for i := 0 to |bars|
      invariant n == |Windowed(bars, i, from, end)|
    {
      if bars[i] >= from && bars[i] < end {
        n := n + 1;
      }
    }
  }

  lemma MissingSlot(bars: seq<int>, from: int, end: int, interval: int, a: int, slot: int)
    requires interval > 0 && IsAnchor(bars, from, interval, a) && slot in Slots(a, from, end, interval) && slot !in bars
    ensures !Covers(bars, from, end, interval)
  {
    WindowedCount(bars, |bars|, from, end, slot);
    assert bars[..|bars|] == bars;
    var w, g := Windowed(bars, |bars|, from, end), Slots(a, from, end, interval);
    assert multiset(g)[slot] > 0 && multiset(w)[slot] == 0;
    forall b | IsAnchor(bars, from, interval, b) ensures multiset(w) != multiset(Slots(b, from, end, interval)) {
      AnchorUnique(bars, from, interval, a, b);
    }
  }

  lemma Miscounted(bars: seq<int>, from: int, end: int, interval: int, a: int)
    requires interval > 0 && IsAnchor(bars, from, interval, a)
    requires |Windowed(bars, |bars|, from, end)| != |Slots(a, from, end, interval)|
    ensures !Covers(bars, from, end, interval)
  {
    var w := Windowed(bars, |bars|, from, end);
    forall b | IsAnchor(bars, from, interval, b) ensures multiset(w) != multiset(Slots(b, from, end, interval)) {
      AnchorUnique(bars, from, interval, a, b);
      assert |multiset(w)| == |w| && |multiset(Slots(b, from, end, interval))| == |Slots(b, from, end, interval)|;
    }
  }

  // ---------------------------------------------------------------- what coverage means

  /** An instant at or after `ts` and before the end lies in the interval of a grid slot. */
  lemma {:induction false} GridReaches(ts: int, from: int, end: int, interval: int, t: int) returns (slot: int)
    requires interval > 0 && from <= ts <= t < end
    ensures Contains(slot, interval, t) && slot in Slots(ts, from, end, interval)
    decreases end - ts
  {
    if t < ts + interval {
      slot := ts;
    } else {
      slot := GridReaches(ts + interval, from, end, interval, t);
    }
  }

  /** Every instant of a covered window lies in some bar, and no bar of the window occurs twice. */
  lemma CoveredMeansComplete(bars: seq<int>, from: int, end: int, interval: int, t: int)
    requires interval > 0 && Covers(bars, from, end, interval) && InWindow(t, from, end)
    ensures exists b :: b in bars && b <= t < b + interval
    ensures multiset(bars)[t] <= 1
  {
    hide Slots, Windowed;
    var a :| IsAnchor(bars, from, interval, a) && multiset(Windowed(bars, |bars|, from, end)) == multiset(Slots(a, from, end, interval));
    GridOnce(bars, from, end, interval, a, t);
    if t < a + interval {
      assert a in bars && Contains(a, interval, t);
    } else {
      var slot := GridReaches(a + interval, from, end, interval, t);
      SlotsOn(a, from, end, interval, slot);
      GridBars(bars, from, end, interval, a, slot);
      assert slot in bars && Contains(slot, interval, t);
    }
  }

  lemma SlotsOn(ts: int, from: int, end: int, interval: int, slot: int)
    requires interval > 0 && ts < end && slot in Slots(ts + interval, from, end, interval)
    ensures slot in Slots(ts, from, end, interval)
  {
  }

  lemma GridOnce(bars: seq<int>, from: int, end: int, interval: int, a: int, t: int)
    requires interval > 0 && multiset(Windowed(bars, |bars|, from, end)) == multiset(Slots(a, from, end, interval)) && InWindow(t, from, end)
    ensures multiset(bars)[t] <= 1
  {
    hide Slots, Windowed;
    SlotsGrid(a, from, end, interval);
    AscendingCount(Slots(a, from, end, interval), t);
    WindowedCount(bars, |bars|, from, end, t);
    assert bars[..|bars|] == bars;
  }

  lemma GridBars(bars: seq<int>, from: int, end: int, interval: int, a: int, slot: int)
    requires interval > 0 && multiset(Windowed(bars, |bars|, from, end)) == multiset(Slots(a, from, end, interval))
    ensures slot in Slots(a, from, end, interval) ==> slot in bars
  {
    WindowedCount(bars, |bars|, from, end, slot);
    assert bars[..|bars|] == bars;
    assert slot in Slots(a, from, end, interval) ==> multiset(Slots(a, from, end, interval))[slot] > 0;
  }

  // ---------------------------------------------------------------- coverage, counted

  lemma SlotStep(x: int, ts: int, interval: int)
    requires interval > 0 && x >= ts
    ensures (x - ts) % interval == 0 <==> x == ts || (x >= ts + interval && (x - (ts + interval)) % interval == 0)
  {
    var d := x - ts;
    if d >= interval {
      var q, r := (d - interval) / interval, (d - interval) % interval;
      assert d - interval == interval * q + r;
      assert interval * (q + 1) == interval * q + interval;
      SameRemainder(d, interval, q + 1, r);
    }
  }

  lemma SameRemainder(d: int, n: int, q: int, r: int)
    requires n > 0 && d == n * q + r && 0 <= r < n
    ensures d % n == r
  {
    var k := q - d / n;
    assert n * k == n * q - n * (d / n);
    assert n * k < n && n * k > -n;
    assert k < 1 && k > -1;
  }

  /** The grid slots of a window, said of their distance from the first. */
  lemma {:induction false} SlotsLaw(ts: int, from: int, end: int, interval: int, x: int)
    requires interval > 0
    ensures x in Slots(ts, from, end, interval) <==> ts <= x && from <= x < end && (x - ts) % interval == 0
    decreases end - ts
  {
    if ts < end {
      SlotsLaw(ts + interval, from, end, interval, x);
      var rest := Slots(ts + interval, from, end, interval);
      assert Slots(ts, from, end, interval) == if ts >= from then [ts] + rest else rest;
      hide Slots;
      if x >= ts { SlotStep(x, ts, interval); }
    }
  }

  /** Anchored at `a`, the latest bar that contains the left edge, the window holds every grid time once and nothing else. */
  ghost predicate OnGrid(bars: seq<int>, from: int, end: int, interval: int, a: int)
    requires interval > 0
  {
    a in bars && a <= from < a + interval && (forall b :: b in bars && b <= from < b + interval ==> b <= a) &&
    forall x :: from <= x < end ==> multiset(bars)[x] == if x >= a && (x - a) % interval == 0 then 1 else 0
  }

  lemma CoversLaw(bars: seq<int>, from: int, end: int, interval: int)
    requires interval > 0
    ensures Covers(bars, from, end, interval) <==> exists a :: OnGrid(bars, from, end, interval, a)
  {
    hide Slots, Windowed;
    forall a | IsAnchor(bars, from, interval, a)
      ensures multiset(Windowed(bars, |bars|, from, end)) == multiset(Slots(a, from, end, interval)) <==> OnGrid(bars, from, end, interval, a)
    {
      GridLaw(bars, from, end, interval, a);
    }
    forall a ensures OnGrid(bars, from, end, interval, a) ==> IsAnchor(bars, from, interval, a) {
    }
  }

  lemma CountsLaw(bars: seq<int>, from: int, end: int, interval: int, a: int, x: int)
    requires interval > 0
    ensures multiset(Windowed(bars, |bars|, from, end))[x] == if from <= x < end then multiset(bars)[x] else 0
    ensures multiset(Slots(a, from, end, interval))[x] == if from <= x < end && x >= a && (x - a) % interval == 0 then 1 else 0
  {
    hide Slots, Windowed;
    WindowedCount(bars, |bars|, from, end, x);
    assert bars[..|bars|] == bars;
    SlotsLaw(a, from, end, interval, x);
    SlotsGrid(a, from, end, interval);
    var g := Slots(a, from, end, interval);
    AscendingCount(g, x);
    assert x in g <==> multiset(g)[x] > 0;
  }

  lemma GridLaw(bars: seq<int>, from: int, end: int, interval: int, a: int)
    requires interval > 0 && IsAnchor(bars, from, interval, a)
    ensures multiset(Windowed(bars, |bars|, from, end)) == multiset(Slots(a, from, end, interval)) <==> OnGrid(bars, from, end, interval, a)
  {
    hide Slots, Windowed;
    forall x ensures multiset(Windowed(bars, |bars|, from, end))[x] == (if from <= x < end then multiset(bars)[x] else 0) &&
                     multiset(Slots(a, from, end, interval))[x] == if from <= x < end && x >= a && (x - a) % interval == 0 then 1 else 0
    {
      CountsLaw(bars, from, end, interval, a, x);
    }
  }
}
