/**
 * The chart data path of src/main.rs after a provider answers: the choice
 * between the date-window fetch and the day-count fallback, and
 * `filter_histories_by_time_window`, which keeps only the points inside
 * the window and then drops series left without points.
 */
module HistoryWindow {
  import opened Wrappers
  import opened Errors
  import opened Text
  import opened Sequences
  import opened Provider

  /** A point lies in the window: not after `end` and, when there is a start, not before it. */
  predicate InWindow(p: PricePoint, start: Option<int>, end: int) {
    p.timestamp <= end && (start.None? || p.timestamp >= start.value)
  }

  function InWindowOf(start: Option<int>, end: int): PricePoint -> bool {
    p => InWindow(p, start, end)
  }

  predicate HasPoints(h: PriceHistory) {
    h.points != []
  }

  /** The series with its points narrowed to the window, as the first `retain` leaves it. */
  function TrimHistory(h: PriceHistory, start: Option<int>, end: int): (t: PriceHistory)
    ensures t.(points := h.points) == h
  {
    h.(points := Filter(h.points, InWindowOf(start, end)))
  }

  /** Every series narrowed to the window, in order. */
  function TrimAll(hs: seq<PriceHistory>, start: Option<int>, end: int): (r: seq<PriceHistory>)
    ensures |r| == |hs|
    ensures forall i :: 0 <= i < |hs| ==> r[i] == TrimHistory(hs[i], start, end)
  {
    seq(|hs|, i requires 0 <= i < |hs| => TrimHistory(hs[i], start, end))
  }

  /** What `filter_histories_by_time_window` leaves in the vector. */
  function Windowed(hs: seq<PriceHistory>, start: Option<int>, end: int): seq<PriceHistory> {
    Filter(TrimAll(hs, start, end), HasPoints)
  }

  /** `points.retain(in_window)`, one point at a time. */
  method RetainInWindow(points: seq<PricePoint>, start: Option<int>, end: int) returns (kept: seq<PricePoint>)
    ensures kept == Filter(points, InWindowOf(start, end))
  {
    kept := [];
    var i := 0;
    while i < |points|
      invariant 0 <= i <= |points|
      invariant kept == Filter(points[..i], InWindowOf(start, end))
    {
      assert points[..i + 1][..i] == points[..i];
      var p := points[i];
      if p.timestamp <= end && (start.None? || p.timestamp >= start.value) {
        kept := kept + [p];
      }
      i := i + 1;
    }
    assert points[..i] == points;
  }

  /** The `iter_mut` loop: each series' points narrowed to the window, in place. */
  method NarrowEach(histories: seq<PriceHistory>, start: Option<int>, end: int) returns (hs: seq<PriceHistory>)
    ensures hs == TrimAll(histories, start, end)
  {
    hs := histories;
    for i := 0 to |hs|
      invariant |hs| == |histories|
      invariant forall j :: 0 <= j < i ==> hs[j] == TrimHistory(histories[j], start, end)
      invariant forall j :: i <= j < |hs| ==> hs[j] == histories[j]
    {
      var points := RetainInWindow(hs[i].points, start, end);
      hs := hs[i := hs[i].(points := points)];
    }
  }

  /** `histories.retain(|h| !h.points.is_empty())`, one series at a time. */
  method RetainWithPoints(hs: seq<PriceHistory>) returns (result: seq<PriceHistory>)
    ensures result == Filter(hs, HasPoints)
  {
    result := [];
    for i := 0 to |hs|
      invariant result == Filter(hs[..i], HasPoints)
    {
      assert hs[..i + 1][..i] == hs[..i];
      if hs[i].points != [] {
        result := result + [hs[i]];
      }
    }
    assert hs[..|hs|] == hs;
  }

  /**
   * `filter_histories_by_time_window`: the `iter_mut` loop narrows each
   * series' points to the window, then `retain` drops the series left empty.
   */
  method FilterHistoriesByTimeWindow(histories: seq<PriceHistory>, start: Option<int>, end: int)
    returns (result: seq<PriceHistory>)
    ensures result == Windowed(histories, start, end)
  {
    var hs := NarrowEach(histories, start, end);
    result := RetainWithPoints(hs);
  }

  // ---------------------------------------------------------------------
  // Properties of the window filter
  // ---------------------------------------------------------------------

  /** Every remaining series has points, and every remaining point lies in the window. */
  lemma WindowedInWindow(hs: seq<PriceHistory>, start: Option<int>, end: int)
    ensures forall k :: 0 <= k < |Windowed(hs, start, end)| ==> Windowed(hs, start, end)[k].points != []
    ensures forall k, j :: 0 <= k < |Windowed(hs, start, end)| && 0 <= j < |Windowed(hs, start, end)[k].points| ==>
      InWindow(Windowed(hs, start, end)[k].points[j], start, end)
  {
    var w := Windowed(hs, start, end);
    var t := TrimAll(hs, start, end);
    FilterMultiset(t, HasPoints);
    forall k, j | 0 <= k < |w| && 0 <= j < |w[k].points|
      ensures InWindow(w[k].points[j], start, end)
    {
      assert w[k] in multiset(w);
      assert w[k] in t;
      var i :| 0 <= i < |t| && t[i] == w[k];
      assert InWindowOf(start, end)(t[i].points[j]);
    }
  }

  /**
   * The remaining series are the narrowed input series that still have
   * points, in input order: the k-th is the narrowed series at position
   * `idx[k]` of the input, the positions increase, and every input series
   * with a point in the window is among them.
   */
  lemma WindowedOrder(hs: seq<PriceHistory>, start: Option<int>, end: int)
    ensures var w := Windowed(hs, start, end);
      var idx := Hits(TrimAll(hs, start, end), KeepIf(HasPoints));
      && |idx| == |w|
      && (forall k :: 0 <= k < |w| ==> idx[k] < |hs| && w[k] == TrimHistory(hs[idx[k]], start, end))
      && (forall k, l :: 0 <= k < l < |idx| ==> idx[k] < idx[l])
      && (forall i :: 0 <= i < |hs| && TrimHistory(hs[i], start, end).points != [] ==> i in idx)
  {
    var t := TrimAll(hs, start, end);
    FilterIsFilterMap(t, HasPoints);
    FilterMapAtHits(t, KeepIf(HasPoints));
    forall i | 0 <= i < |hs| && TrimHistory(hs[i], start, end).points != []
      ensures KeepIf(HasPoints)(t[i]).Some?
    {
      assert HasPoints(t[i]);
    }
  }

  /**
   * The points of a series keep their order and lose exactly those outside
   * the window: each point occurs in the narrowed series as often as in the
   * original when it lies in the window, and not at all otherwise.
   */
  lemma TrimHistoryPoints(h: PriceHistory, start: Option<int>, end: int)
    ensures forall p ::
      multiset(TrimHistory(h, start, end).points)[p] == (if InWindow(p, start, end) then multiset(h.points)[p] else 0)
    ensures var idx := Hits(h.points, KeepIf(InWindowOf(start, end)));
      var pts := TrimHistory(h, start, end).points;
      && |idx| == |pts|
      && (forall k :: 0 <= k < |pts| ==> idx[k] < |h.points| && pts[k] == h.points[idx[k]])
      && (forall k, l :: 0 <= k < l < |idx| ==> idx[k] < idx[l])
  {
    FilterMultiset(h.points, InWindowOf(start, end));
    FilterIsFilterMap(h.points, InWindowOf(start, end));
    FilterMapAtHits(h.points, KeepIf(InWindowOf(start, end)));
  }

  /** A series with at least one point in the window survives the filter. */
  lemma WindowedKeepsSeriesWithPoints(hs: seq<PriceHistory>, start: Option<int>, end: int, i: nat, j: nat)
    requires i < |hs| && j < |hs[i].points| && InWindow(hs[i].points[j], start, end)
    ensures TrimHistory(hs[i], start, end) in Windowed(hs, start, end)
    ensures hs[i].points[j] in TrimHistory(hs[i], start, end).points
  {
    var p := hs[i].points[j];
    TrimHistoryPoints(hs[i], start, end);
    assert p in multiset(hs[i].points);
    assert p in multiset(TrimHistory(hs[i], start, end).points);
    var t := TrimAll(hs, start, end);
    FilterMultiset(t, HasPoints);
    assert t[i] in multiset(t);
  }

  /** Narrowing an already narrowed series changes nothing. */
  lemma TrimHistoryIdempotent(h: PriceHistory, start: Option<int>, end: int)
    ensures TrimHistory(TrimHistory(h, start, end), start, end) == TrimHistory(h, start, end)
  {
    FilterIdempotent(h.points, InWindowOf(start, end));
  }

  /** Applying the filter a second time changes nothing. */
  lemma WindowedIdempotent(hs: seq<PriceHistory>, start: Option<int>, end: int)
    ensures Windowed(Windowed(hs, start, end), start, end) == Windowed(hs, start, end)
  {
    var w := Windowed(hs, start, end);
    WindowedInWindow(hs, start, end);
    forall k | 0 <= k < |w|
      ensures TrimHistory(w[k], start, end) == w[k]
    {
      FilterAllKept(w[k].points, InWindowOf(start, end));
    }
    assert TrimAll(w, start, end) == w;
    FilterAllKept(w, HasPoints);
  }

  // ---------------------------------------------------------------------
  // The window fetch and its fallback
  // ---------------------------------------------------------------------

  /** A window fetch error that sends `run` to the day-count fetch. */
  predicate TriggersFallback(e: Error) {
    e.Config? && Contains(e.message, WindowUnsupported)
  }

  /**
   * The match on the window fetch: its histories when it succeeds; the
   * day-count fetch's outcome when it fails with a Config error naming the
   * missing window support; and any other failure unchanged.
   */
  function ChartHistories(window: Result<seq<PriceHistory>>, dayCount: Result<seq<PriceHistory>>)
    : (r: Result<seq<PriceHistory>>)
    ensures window.Ok? ==> r == window
    ensures window.Err? && TriggersFallback(window.error) ==> r == dayCount
    ensures window.Err? && !TriggersFallback(window.error) ==> r == window
  {
    match window
    case Ok(h) => Ok(h)
    case Err(e) => if TriggersFallback(e) then dayCount else Err(e)
  }

  /** The day-count outcome is used only after the window fetch failed with the fallback error. */
  lemma FallbackOnlyOnWindowError(window: Result<seq<PriceHistory>>, dayCount: Result<seq<PriceHistory>>)
    requires ChartHistories(window, dayCount) != window
    ensures window.Err? && window.error.Config? && Contains(window.error.message, WindowUnsupported)
    ensures ChartHistories(window, dayCount) == dayCount
  {
  }

  /** A provider without window support always falls back to the day-count fetch. */
  lemma DefaultWindowFallsBack(id: string, dayCount: Result<seq<PriceHistory>>)
    ensures ChartHistories(Err(DefaultWindowError(id)), dayCount) == dayCount
  {
    DefaultWindowErrorTriggersFallback(id);
  }

  /**
   * The other default capability errors do not trigger the fallback (for an
   * id that does not itself contain the trigger text): they reach the user unchanged.
   */
  lemma DefaultErrorsPassThrough(id: string, dayCount: Result<seq<PriceHistory>>)
    requires !Contains(id, WindowUnsupported)
    ensures ChartHistories(Err(DefaultHistoryError(id)), dayCount) == Err(DefaultHistoryError(id))
    ensures ChartHistories(Err(DefaultSearchError(id)), dayCount) == Err(DefaultSearchError(id))
  {
    DefaultHistoryErrorFallback(id);
    DefaultSearchErrorFallback(id);
  }

  /** After filtering, an empty chart is `NoResults`. */
  function WindowedOrNoResults(hs: seq<PriceHistory>, start: Option<int>, end: int): (r: Result<seq<PriceHistory>>)
    ensures r.Ok? ==> r.value == Windowed(hs, start, end) && r.value != []
    ensures r.Err? <==> Windowed(hs, start, end) == []
    ensures r.Err? ==> r.error == NoResults
  {
    var w := Windowed(hs, start, end);
    if w == [] then Err(NoResults) else Ok(w)
  }

  /**
   * The chart path from the two fetch outcomes: fetch errors pass through
   * (after the fallback decision), and otherwise the filtered histories or
   * `NoResults`.
   */
  function ChartOutcome(window: Result<seq<PriceHistory>>, dayCount: Result<seq<PriceHistory>>,
                        start: Option<int>, end: int): Result<seq<PriceHistory>>
  {
    match ChartHistories(window, dayCount)
    case Err(e) => Err(e)
    case Ok(hs) => WindowedOrNoResults(hs, start, end)
  }

  /** A successful chart contains only series with points, all of them inside the window. */
  lemma ChartOutcomeInWindow(window: Result<seq<PriceHistory>>, dayCount: Result<seq<PriceHistory>>,
                             start: Option<int>, end: int)
    requires ChartOutcome(window, dayCount, start, end).Ok?
    ensures var hs := ChartOutcome(window, dayCount, start, end).value;
      && hs != []
      && (forall k :: 0 <= k < |hs| ==> hs[k].points != [])
      && (forall k, j :: 0 <= k < |hs| && 0 <= j < |hs[k].points| ==> InWindow(hs[k].points[j], start, end))
  {
    WindowedInWindow(ChartHistories(window, dayCount).value, start, end);
  }
}
