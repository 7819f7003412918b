/** What the accessors of a hook context answer, said of the data they answer from. */
module AccessorLaws {
  import opened Basics
  import opened CandleData
  import opened FundingColumn
  import opened MarketView

  // ---------------------------------------------------------------- positions and windows

  /** The grid position of a minute is a place where the grid has it, and there is none only if it has it nowhere. */
  lemma GridIndexLaw(grid: seq<int>, t: nat, ts: int)
    ensures var idx := GridIndex(grid, t, ts);
            -1 <= idx < |grid| && (idx >= 0 ==> grid[idx] == ts) && (idx == -1 <==> ts !in grid)
  {
  }

  /** A window ends with the current minute and reaches back `lookback` minutes, or to the start of the grid. */
  lemma WindowLaw(grid: seq<int>, idx: int, lookback: int)
    requires idx < |grid|
    ensures var r := WindowMinutes(grid, idx, lookback);
            if idx < 0 || lookback <= 0 then r == []
            else |r| == Min(lookback, idx + 1) && forall i :: 0 <= i < |r| ==> r[i] == grid[idx - |r| + 1 + i]
  {
  }

  /** What an accessor finds in a per-minute column: nothing for a minute off the grid. */
  function PointAt<T>(column: map<int, T>, grid: seq<int>, ts: int): Option<T> {
    if ts in grid && ts in column then Some(column[ts]) else None
  }

  /** The slots of a window ending at position `idx`: one per minute, the point of that minute if there is one. */
  ghost predicate SlotsOf<T(!new)>(column: map<int, T>, grid: seq<int>, idx: int, lookback: int, slots: seq<Option<T>>)
    requires idx < |grid|
  {
    if idx < 0 || lookback <= 0 then slots == []
    else
      |slots| == Min(lookback, idx + 1) &&
      forall i :: 0 <= i < |slots| ==> slots[i] == PointAt(column, grid, grid[idx - |slots| + 1 + i])
  }

  lemma SlotsLaw<T(!new)>(column: map<int, T>, grid: seq<int>, idx: int, lookback: int)
    requires idx < |grid|
    ensures SlotsOf(column, grid, idx, lookback, Slots(column, WindowMinutes(grid, idx, lookback)))
  {
    WindowLaw(grid, idx, lookback);
  }

  // ---------------------------------------------------------------- the market accessors

  /** Open interest: the point of the bar's own minute, and windows whose last slot is that point. */
  lemma OpenInterestLaw(tape: Tape, t: nat, ts: int, lookback: int)
    ensures var idx := GridIndex(tape.grid, t, ts);
            match tape.oi
            case None => MarketAnswer(tape, t, ts, OiAsOf) == OiPoint(None) && MarketAnswer(tape, t, ts, OiWindow(lookback)) == OiPoints([])
            case Some(column) =>
              MarketAnswer(tape, t, ts, OiAsOf) == OiPoint(PointAt(column, tape.grid, ts)) &&
              MarketAnswer(tape, t, ts, OiWindow(lookback)).OiPoints? &&
              SlotsOf(column, tape.grid, idx, lookback, MarketAnswer(tape, t, ts, OiWindow(lookback)).ois)
    ensures MarketAnswer(tape, t, ts, HasOi) == Flag(MarketAnswer(tape, t, ts, OiWindow(1)) != OiPoints([]))
  {
    GridIndexLaw(tape.grid, t, ts);
    hide GridIndex;
    var idx := GridIndex(tape.grid, t, ts);
    if tape.oi.Some? {
      SlotsLaw(tape.oi.value, tape.grid, idx, lookback);
      SlotsLaw(tape.oi.value, tape.grid, idx, 1);
    }
  }

  lemma LiquidationsLaw(tape: Tape, t: nat, ts: int, lookback: int)
    ensures var idx := GridIndex(tape.grid, t, ts);
            match tape.liq
            case None => MarketAnswer(tape, t, ts, LiqAsOf) == LiqPoint(None) && MarketAnswer(tape, t, ts, LiqWindow(lookback)) == LiqPoints([])
            case Some(column) =>
              MarketAnswer(tape, t, ts, LiqAsOf) == LiqPoint(PointAt(column, tape.grid, ts)) &&
              MarketAnswer(tape, t, ts, LiqWindow(lookback)).LiqPoints? &&
              SlotsOf(column, tape.grid, idx, lookback, MarketAnswer(tape, t, ts, LiqWindow(lookback)).liqs)
    ensures MarketAnswer(tape, t, ts, HasLiq) == Flag(MarketAnswer(tape, t, ts, LiqWindow(1)) != LiqPoints([]))
  {
    GridIndexLaw(tape.grid, t, ts);
    hide GridIndex;
    var idx := GridIndex(tape.grid, t, ts);
    if tape.liq.Some? {
      SlotsLaw(tape.liq.value, tape.grid, idx, lookback);
      SlotsLaw(tape.liq.value, tape.grid, idx, 1);
    }
  }

  /** Taker flow is not offered at all by a tape that does not carry it. */
  lemma TakerLaw(tape: Tape, t: nat, ts: int, lookback: int)
    ensures var idx := GridIndex(tape.grid, t, ts);
            match tape.taker
            case None => MarketAnswer(tape, t, ts, TakerAsOf) == NotOffered && MarketAnswer(tape, t, ts, TakerWindow(lookback)) == NotOffered
            case Some(column) =>
              MarketAnswer(tape, t, ts, TakerAsOf) == TakerPoint(PointAt(column, tape.grid, ts)) &&
              MarketAnswer(tape, t, ts, TakerWindow(lookback)).TakerPoints? &&
              SlotsOf(column, tape.grid, idx, lookback, MarketAnswer(tape, t, ts, TakerWindow(lookback)).takers)
  {
    GridIndexLaw(tape.grid, t, ts);
    hide GridIndex;
    if tape.taker.Some? {
      SlotsLaw(tape.taker.value, tape.grid, GridIndex(tape.grid, t, ts), lookback);
    }
  }

  /** The last slot of a window is the as-of answer of the bar. */
  lemma WindowEndsAsOf<T(!new)>(column: map<int, T>, grid: seq<int>, idx: nat, lookback: int, slots: seq<Option<T>>)
    requires idx < |grid| && lookback > 0 && SlotsOf(column, grid, idx, lookback, slots)
    ensures slots != [] && slots[|slots| - 1] == PointAt(column, grid, grid[idx])
  {
  }

  // ---------------------------------------------------------------- funding

  /** The dense snapshot kept for a minute is the last one given for it. */
  lemma {:induction false} LastSnapshotWins(dense: seq<Funding>, ts: int)
    ensures SnapAt(dense, ts).Some? ==> exists i :: 0 <= i < |dense| && SnapAt(dense, ts) == Some(dense[i]) && forall j :: i < j < |dense| ==> dense[j].ts != ts
    ensures SnapAt(dense, ts).None? ==> forall i :: 0 <= i < |dense| ==> dense[i].ts != ts
  {
    if dense != [] {
      var n := |dense| - 1;
      LastSnapshotWins(dense[..n], ts);
      if dense[n].ts == ts {
        assert SnapAt(dense, ts) == Some(dense[n]);
      } else if SnapAt(dense[..n], ts).Some? {
        var i :| 0 <= i < n && SnapAt(dense[..n], ts) == Some(dense[..n][i]) && forall j :: i < j < n ==> dense[..n][j].ts != ts;
        assert SnapAt(dense, ts) == Some(dense[i]) && forall j :: i < j < |dense| ==> dense[j].ts != ts;
      }
    }
  }

  ghost predicate HasFunding(dense: seq<Funding>, ts: int) {
    exists i :: 0 <= i < |dense| && dense[i].ts == ts
  }

  /** What a reading taken at minute `ts` says, `idx` being its grid position or -1: the minute's own rate where
      there is one; the rate held from earlier for one bar after the last covered bar, and only within the cadence
      when one is given; else nothing. */
  ghost predicate Reads(dense: seq<Funding>, grid: seq<int>, ts: int, idx: int, cadenceMs: Option<int>, r: Reading)
    requires idx < |grid|
  {
    if HasFunding(dense, ts) then r.Present? && HeldAt(dense, ts, r.point) && exists i :: 0 <= i < |dense| && dense[i] == Funding(ts, r.point.rate) && forall j :: i < j < |dense| ==> dense[j].ts != ts
    else if idx > 0 && HasFunding(dense, grid[idx - 1]) && (cadenceMs.Some? ==> ts - grid[idx - 1] <= cadenceMs.value)
    then r.Stale? && HeldAt(dense, ts, r.point)
    else r == Missing
  }

  lemma FundingReadingLaw(dense: seq<Funding>, grid: seq<int>, ts: int, idx: int, cadenceMs: Option<int>)
    requires idx < |grid| && Ascending(grid) && (idx >= 0 ==> grid[idx] == ts)
    ensures Reads(dense, grid, ts, idx, cadenceMs, ReadingAt(dense, Column(dense, grid), grid, ts, idx, cadenceMs))
  {
    LastSnapshotWins(dense, ts);
    if HasFunding(dense, ts) {
      SparseEqualsDense(dense, grid, ts);
      HeldIsLatest(dense, grid, ts);
    } else if idx > 0 && HasFunding(dense, grid[idx - 1]) {
      SparseEqualsDense(dense, grid, grid[idx - 1]);
      var early := LastAtOrBefore(Column(dense, grid), grid[idx - 1]).value;
      assert early in Column(dense, grid) && early.ts <= ts;
      HeldIsLatest(dense, grid, ts);
    }
  }

  /** The points of a funding window: one per minute, absent exactly where the reading there is missing. */
  ghost predicate FundingSlotsOf(dense: seq<Funding>, grid: seq<int>, idx: int, lookback: int, points: seq<Option<Funding>>)
    requires idx < |grid|
  {
    if idx < 0 || lookback <= 0 then points == []
    else
      |points| == Min(lookback, idx + 1) &&
      forall i :: 0 <= i < |points| ==> SlotReads(dense, grid, idx - |points| + 1 + i, points[i])
  }

  ghost predicate SlotReads(dense: seq<Funding>, grid: seq<int>, j: nat, slot: Option<Funding>)
    requires j < |grid|
  {
    if slot.None? then Reads(dense, grid, grid[j], j, None, Missing)
    else Reads(dense, grid, grid[j], j, None, Present(slot.value)) || Reads(dense, grid, grid[j], j, None, Stale(slot.value))
  }

  /** Funding: the reading of the bar's own minute, and windows whose last slot is the point of that reading. */
  lemma FundingLaw(tape: Tape, t: nat, ts: int, lookback: int)
    requires Ascending(tape.grid)
    ensures var idx := GridIndex(tape.grid, t, ts);
            match tape.funding
            case None => MarketAnswer(tape, t, ts, FundingAsOf) == NotOffered && MarketAnswer(tape, t, ts, FundingWindow(lookback)) == NotOffered
            case Some(dense) =>
              MarketAnswer(tape, t, ts, FundingAsOf).FundingRead? && MarketAnswer(tape, t, ts, FundingWindow(lookback)).FundingPoints? &&
              var reading := MarketAnswer(tape, t, ts, FundingAsOf).reading;
              var points := MarketAnswer(tape, t, ts, FundingWindow(lookback)).points;
              Reads(dense, tape.grid, ts, idx, None, reading) && FundingSlotsOf(dense, tape.grid, idx, lookback, points) &&
              (points != [] ==> points[|points| - 1] == if reading.Missing? then None else Some(reading.point))
  {
    GridIndexLaw(tape.grid, t, ts);
    hide GridIndex;
    hide Reads, ReadingAt, FundingSlots, SlotReads;
    if tape.funding.Some? {
      var idx := GridIndex(tape.grid, t, ts);
      FundingReadingLaw(tape.funding.value, tape.grid, ts, idx, None);
      FundingWindowLaw(tape.funding.value, tape.grid, idx, lookback);
    }
  }

  lemma FundingWindowLaw(dense: seq<Funding>, grid: seq<int>, idx: int, lookback: int)
    requires idx < |grid| && Ascending(grid)
    ensures var points := FundingSlots(dense, grid, idx, lookback);
            FundingSlotsOf(dense, grid, idx, lookback, points) && (points != [] ==> points[|points| - 1] == FundingSlot(dense, grid, idx))
  {
    hide FundingSlot, SlotReads;
    var points := FundingSlots(dense, grid, idx, lookback);
    if idx >= 0 && lookback > 0 {
      forall i | 0 <= i < |points| ensures SlotReads(dense, grid, idx - |points| + 1 + i, points[i]) {
        SlotLaw(dense, grid, idx - |points| + 1 + i);
      }
    }
  }

  lemma SlotLaw(dense: seq<Funding>, grid: seq<int>, j: nat)
    requires j < |grid| && Ascending(grid)
    ensures SlotReads(dense, grid, j, FundingSlot(dense, grid, j))
  {
    hide Reads, ReadingAt;
    FundingReadingLaw(dense, grid, grid[j], j, None);
  }

  /** A hook is offered market data exactly when there is a tape that carries some kind of it. */
  lemma OfferedLaw(view: View, t: nat, q: Query)
    requires t < |view.candles| && AsksMarket(q)
    ensures AnswerAt(view, t, q) ==
            match view.tape
            case None => NotOffered
            case Some(tape) =>
              if tape.oi.None? && tape.liq.None? && tape.funding.None? && tape.taker.None? then NotOffered
              else MarketAnswer(tape, t, view.candles[t].ts, q)
  {
  }

  /** `point` is a snapshot not later than `ts` with the rate of the latest covered minute at or before `ts`. */
  ghost predicate HeldAt(dense: seq<Funding>, ts: int, point: Funding) {
    point.ts <= ts && point in dense &&
    exists m :: point.ts <= m <= ts && SnapAt(dense, m) == Some(Funding(m, point.rate)) && forall x :: m < x <= ts ==> !HasFunding(dense, x)
  }

  lemma HeldIsLatest(dense: seq<Funding>, grid: seq<int>, ts: int)
    requires LastAtOrBefore(Column(dense, grid), ts).Some?
    ensures HeldAt(dense, ts, LastAtOrBefore(Column(dense, grid), ts).value)
  {
    var timeline := Timeline(dense, grid);
    HeldRate(dense, timeline, |timeline|, ts);
    LatestIsLatest(dense, timeline, |timeline|, ts);
    var m := LatestCovered(dense, timeline, |timeline|, ts).value.ts;
    var point := LastAtOrBefore(Column(dense, grid), ts).value;
    PointsAreSnapshots(dense, timeline, |timeline|);
    assert forall x :: HasFunding(dense, x) ==> Covered(dense, x) && x in timeline;
    assert forall x :: m < x <= ts ==> !HasFunding(dense, x);
    assert HasFunding(dense, point.ts);
    assert SnapAt(dense, m) == Some(Funding(m, point.rate));
  }

  lemma {:induction false} PointsAreSnapshots(dense: seq<Funding>, timeline: seq<int>, k: nat)
    requires k <= |timeline|
    ensures forall p :: p in ChangePoints(dense, timeline, k) ==> p in dense
  {
    if k > 0 {
      PointsAreSnapshots(dense, timeline, k - 1);
    }
  }

  lemma {:induction false} LatestIsLatest(dense: seq<Funding>, timeline: seq<int>, k: nat, t: int)
    requires StrictlyAscending(timeline) && k <= |timeline|
    ensures var r := LatestCovered(dense, timeline, k, t);
            r.Some? ==> r.value.ts <= t && SnapAt(dense, r.value.ts) == r &&
                        forall i :: 0 <= i < k && r.value.ts < timeline[i] <= t ==> !Covered(dense, timeline[i])
  {
    if k > 0 {
      LatestIsLatest(dense, timeline, k - 1, t);
    }
  }
}
