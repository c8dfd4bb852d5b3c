/** Half-open time windows in integer milliseconds: what the sweeps of
    src/usage-accounting-core.ts compute, stated millisecond by millisecond. */
module Windows {
  import opened Options
  import opened Sorting
  import opened Sums

  datatype Window = Window(start: int, end: int)

  function Max(a: int, b: int): int { if a < b then b else a }
  function Min(a: int, b: int): int { if a < b then a else b }

  // ----- The pointwise meaning of a list of windows -----

  predicate Within(t: int, lo: int, hi: int) { lo <= t < hi }

  ghost function Span(lo: int, hi: int): set<int> { set t | lo <= t < hi && Within(t, lo, hi) }

  ghost function Covered(ws: seq<Window>): set<int> {
    if ws == [] then {} else Span(ws[0].start, ws[0].end) + Covered(ws[1..])
  }

  /** The number of windows open at `t`. */
  ghost function Open(ws: seq<Window>, t: int): nat {
    if ws == [] then 0 else (if ws[0].start <= t < ws[0].end then 1 else 0) + Open(ws[1..], t)
  }

  function TotalLength(ws: seq<Window>): int {
    if ws == [] then 0 else ws[0].end - ws[0].start + TotalLength(ws[1..])
  }

  ghost predicate NotReversed(ws: seq<Window>) {
    forall w :: w in ws ==> w.start <= w.end
  }

  lemma {:induction false} SpanSize(lo: int, hi: int)
    ensures |Span(lo, hi)| == Max(0, hi - lo)
    decreases hi - lo
  {
    if lo < hi {
      SpanSize(lo, hi - 1);
      assert Span(lo, hi) == Span(lo, hi - 1) + {hi - 1};
    } else {
      assert Span(lo, hi) == {};
    }
  }

  lemma {:induction false} CoveredIff(ws: seq<Window>, t: int)
    ensures t in Covered(ws) <==> exists w :: w in ws && w.start <= t < w.end
  {
    if ws != [] {
      CoveredIff(ws[1..], t);
      assert forall w :: w in ws <==> w == ws[0] || w in ws[1..];
    }
  }

  lemma {:induction false} CoveredIffOpen(ws: seq<Window>, t: int)
    ensures t in Covered(ws) <==> Open(ws, t) > 0
  {
    if ws != [] { CoveredIffOpen(ws[1..], t); }
  }

  lemma CoveredSame(a: seq<Window>, b: seq<Window>)
    requires forall w: Window :: w.start < w.end ==> (w in a <==> w in b)
    ensures Covered(a) == Covered(b)
  {
    forall t ensures t in Covered(a) <==> t in Covered(b) {
      CoveredIff(a, t);
      CoveredIff(b, t);
    }
  }

  lemma {:induction false} CoveredConcat(a: seq<Window>, b: seq<Window>)
    ensures Covered(a + b) == Covered(a) + Covered(b)
  {
    if a == [] {
      assert a + b == b;
    } else {
      assert (a + b)[1..] == a[1..] + b;
      CoveredConcat(a[1..], b);
    }
  }

  // ----- unionDuration -----

  function Positive(ws: seq<Window>): (r: seq<Window>)
    ensures forall w :: w in r <==> w in ws && w.start < w.end
  {
    if ws == [] then []
    else
      assert forall w :: w in ws <==> w == ws[0] || w in ws[1..];
      if ws[0].start < ws[0].end then [ws[0]] + Positive(ws[1..]) else Positive(ws[1..])
  }

  predicate StartsNoLater(a: Window, b: Window) { a.start <= b.start }

  ghost function FromEpoch(s: set<int>): set<int> { set t | t in s && 0 <= t }

  /** The sweep's state against the milliseconds seen so far: the current stretch
      [lo, hi) is covered, nothing past it is, and `done` counts the rest. */
  ghost predicate Stretch(seen: set<int>, done: int, lo: int, hi: int) {
    && 0 <= lo <= hi
    && Span(lo, hi) <= seen
    && (forall t :: t in seen ==> 0 <= t < hi)
    && done + hi - lo == |seen|
  }

  /** A window starting inside or at the end of the stretch extends it. */
  lemma MergeStretch(seen: set<int>, done: int, lo: int, hi: int, w: Window)
    requires Stretch(seen, done, lo, hi)
    requires lo <= w.start || lo == 0
    requires w.start < w.end && w.start <= hi
    ensures Stretch(seen + FromEpoch(Span(w.start, w.end)), done, lo, Max(hi, w.end))
  {
    hide Span, FromEpoch;
    NewPart(seen, lo, hi, w);
    GrowStretch(seen, done, lo, hi, Max(hi, w.end));
  }

  /** What the window adds lies past the stretch. */
  lemma NewPart(seen: set<int>, lo: int, hi: int, w: Window)
    requires 0 <= lo <= hi && Span(lo, hi) <= seen
    requires (lo <= w.start || lo == 0) && w.start < w.end && w.start <= hi
    ensures seen + FromEpoch(Span(w.start, w.end)) == seen + Span(hi, Max(hi, w.end))
  {
    forall t ensures t in seen + FromEpoch(Span(w.start, w.end)) <==> t in seen + Span(hi, Max(hi, w.end)) {
      if t in Span(w.start, w.end) && 0 <= t < hi { assert t in Span(lo, hi); }
    }
  }

  lemma GrowStretch(seen: set<int>, done: int, lo: int, hi: int, further: int)
    requires Stretch(seen, done, lo, hi) && hi <= further
    ensures Stretch(seen + Span(hi, further), done, lo, further)
  {
    assert Span(lo, further) == Span(lo, hi) + Span(hi, further);
    SpanSize(hi, further);
    assert seen !! Span(hi, further);
  }

  /** A window starting past the stretch closes it and opens the next. */
  lemma NewStretch(seen: set<int>, done: int, lo: int, hi: int, w: Window)
    requires Stretch(seen, done, lo, hi)
    requires hi < w.start < w.end
    ensures Stretch(seen + FromEpoch(Span(w.start, w.end)), done + hi - lo, w.start, w.end)
  {
    SpanSize(w.start, w.end);
    assert FromEpoch(Span(w.start, w.end)) == Span(w.start, w.end);
    assert seen !! Span(w.start, w.end);
  }

  lemma EmptyStretch()
    ensures FromEpoch(Covered([])) == {} && Stretch({}, 0, 0, 0)
  {
    assert Span(0, 0) == {};
  }

  lemma StretchTotal(seen: set<int>, done: int, lo: int, hi: int)
    requires Stretch(seen, done, lo, hi)
    ensures lo <= hi && done + hi - lo == |seen|
  {
  }

  lemma FromEpochConcat(a: seq<Window>, w: Window)
    ensures FromEpoch(Covered(a + [w])) == FromEpoch(Covered(a)) + FromEpoch(Span(w.start, w.end))
  {
    CoveredConcat(a, [w]);
    assert Covered([w]) == Span(w.start, w.end);
  }

  /** The windows that cover something, in the order the sweep takes them. */
  function Ordered(windows: seq<Window>): (r: seq<Window>)
    ensures forall w :: w in r ==> w.start < w.end
    ensures forall i, j :: 0 <= i < j < |r| ==> r[i].start <= r[j].start
    ensures Covered(r) == Covered(windows)
  {
    var r := SortBy(Positive(windows), StartsNoLater);
    SortBySorted(Positive(windows), StartsNoLater);
    SamePermutationElements(r, Positive(windows));
    CoveredSame(r, windows);
    r
  }

  /** Because the sweep starts from the stretch [0, 0), it counts the covered
      milliseconds from the epoch on, whatever the windows are. */
  method UnionDuration(windows: seq<Window>) returns (total: int)
    ensures total == |FromEpoch(Covered(windows))|
  {
    hide Stretch, FromEpoch, Span, Covered, Ordered;
    var ordered := Ordered(windows);
    EmptyStretch();
    assert ordered[..0] == [];
    var duration, currentStart, currentEnd := 0, 0, 0;
    ghost var seen: set<int> := {};
    for i := 0 to |ordered|
      invariant seen == FromEpoch(Covered(ordered[..i]))
      invariant Stretch(seen, duration, currentStart, currentEnd)
      invariant forall k :: i <= k < |ordered| ==> currentStart <= ordered[k].start || currentStart == 0
    {
      var window := ordered[i];
      StretchTotal(seen, duration, currentStart, currentEnd);
      assert ordered[..i + 1] == ordered[..i] + [window];
      FromEpochConcat(ordered[..i], window);
      if window.start > currentEnd {
        NewStretch(seen, duration, currentStart, currentEnd, window);
        duration := duration + Max(0, currentEnd - currentStart);
        currentStart := window.start;
        currentEnd := window.end;
      } else {
        MergeStretch(seen, duration, currentStart, currentEnd, window);
        currentEnd := Max(currentEnd, window.end);
      }
      seen := seen + FromEpoch(Span(window.start, window.end));
      StretchTotal(seen, duration, currentStart, currentEnd);
    }
    StretchTotal(seen, duration, currentStart, currentEnd);
    assert ordered[..|ordered|] == ordered;
    total := duration + Max(0, currentEnd - currentStart);
  }

  /** The sweep gives the covered time exactly when no window covers time before
      the epoch. */
  lemma UnionDurationExact(windows: seq<Window>)
    ensures |FromEpoch(Covered(windows))| == |Covered(windows)|
       <==> forall w :: w in windows && w.start < w.end ==> 0 <= w.start
  {
    var all, kept := Covered(windows), FromEpoch(Covered(windows));
    if forall w :: w in windows && w.start < w.end ==> 0 <= w.start {
      forall t | t in all ensures 0 <= t { CoveredIff(windows, t); }
      assert kept == all;
    } else {
      var w :| w in windows && w.start < w.end && w.start < 0;
      CoveredIff(windows, w.start);
      assert kept <= all - {w.start};
      SubsetSize(kept, all - {w.start});
    }
  }

  /** A window across the epoch: two milliseconds covered, one counted. */
  lemma BeforeEpochUncounted()
    ensures var ws := [Window(-1, 1)]; |Covered(ws)| == 2 && |FromEpoch(Covered(ws))| == 1
  {
    var w := Window(-1, 1);
    assert [w][1..] == [] && Covered([w]) == Span(-1, 1);
    SpanSize(-1, 1);
    SpanSize(0, 1);
    assert FromEpoch(Span(-1, 1)) == Span(0, 1);
  }

  // ----- union <= sum of lengths <= peak * union -----

  ghost function Marked(s: set<int>, lo: int, hi: int): nat
    decreases hi - lo
  {
    if lo >= hi then 0 else Marked(s, lo, hi - 1) + (if hi - 1 in s then 1 else 0)
  }

  ghost function OpenTime(ws: seq<Window>, lo: int, hi: int): nat
    decreases hi - lo
  {
    if lo >= hi then 0 else OpenTime(ws, lo, hi - 1) + Open(ws, hi - 1)
  }

  lemma {:induction false} MarkedSize(s: set<int>, lo: int, hi: int)
    requires forall t :: t in s ==> lo <= t < hi
    ensures Marked(s, lo, hi) == |s|
    decreases hi - lo
  {
    if lo < hi {
      MarkedSize(s - {hi - 1}, lo, hi - 1);
      MarkedLocal(s, s - {hi - 1}, lo, hi - 1);
    } else {
      assert forall t :: t !in s;
    }
  }

  lemma {:induction false} MarkedLocal(a: set<int>, b: set<int>, lo: int, hi: int)
    requires forall t :: lo <= t < hi ==> (t in a <==> t in b)
    ensures Marked(a, lo, hi) == Marked(b, lo, hi)
    decreases hi - lo
  {
    if lo < hi { MarkedLocal(a, b, lo, hi - 1); }
  }

  lemma {:induction false} OpenTimeCons(ws: seq<Window>, lo: int, hi: int)
    requires ws != []
    ensures OpenTime(ws, lo, hi) == Marked(Span(ws[0].start, ws[0].end), lo, hi) + OpenTime(ws[1..], lo, hi)
    decreases hi - lo
  {
    if lo < hi { OpenTimeCons(ws, lo, hi - 1); }
  }

  lemma {:induction false} OpenTimeEmpty(lo: int, hi: int)
    ensures OpenTime([], lo, hi) == 0
    decreases hi - lo
  {
    if lo < hi { OpenTimeEmpty(lo, hi - 1); }
  }

  /** Counting window by window or millisecond by millisecond is the same. */
  lemma {:induction false} DoubleCount(ws: seq<Window>, lo: int, hi: int)
    requires forall w :: w in ws ==> lo <= w.start <= w.end <= hi
    ensures OpenTime(ws, lo, hi) == TotalLength(ws)
  {
    if ws == [] {
      OpenTimeEmpty(lo, hi);
    } else {
      OpenTimeCons(ws, lo, hi);
      MarkedSize(Span(ws[0].start, ws[0].end), lo, hi);
      SpanSize(ws[0].start, ws[0].end);
      DoubleCount(ws[1..], lo, hi);
    }
  }

  lemma {:induction false} OpenTimeBounds(ws: seq<Window>, peak: nat, lo: int, hi: int)
    requires forall t :: Open(ws, t) <= peak
    ensures Marked(Covered(ws), lo, hi) <= OpenTime(ws, lo, hi) <= peak * Marked(Covered(ws), lo, hi)
    decreases hi - lo
  {
    if lo < hi {
      OpenTimeBounds(ws, peak, lo, hi - 1);
      CoveredIffOpen(ws, hi - 1);
      var m := Marked(Covered(ws), lo, hi - 1);
      assert peak * (m + 1) == peak * m + peak;
    }
  }

  lemma UnionSumPeak(ws: seq<Window>, peak: nat, lo: int, hi: int)
    requires forall w :: w in ws ==> lo <= w.start <= w.end <= hi
    requires forall t :: Open(ws, t) <= peak
    ensures |Covered(ws)| <= TotalLength(ws) <= peak * |Covered(ws)|
  {
    forall t | t in Covered(ws) ensures lo <= t < hi { CoveredIff(ws, t); }
    MarkedSize(Covered(ws), lo, hi);
    DoubleCount(ws, lo, hi);
    OpenTimeBounds(ws, peak, lo, hi);
  }

  // ----- clippedWindow and the pairwise intersections of capacityMetrics -----

  /** The part of [started, ended) inside the period, when it is not empty. */
  function Clipped(started: Option<int>, ended: Option<int>, lo: int, hi: int): (r: Option<Window>)
    ensures r.Some? ==> lo <= r.value.start < r.value.end <= hi
    ensures r.Some? ==> started.Some? && ended.Some?
    ensures started.Some? && ended.Some? ==>
      (if r.Some? then Span(r.value.start, r.value.end) else {}) == Span(lo, hi) * Span(started.value, ended.value)
  {
    if started.None? || ended.None? then None
    else
      var start := Max(lo, started.value);
      var end := Min(hi, ended.value);
      assert Span(lo, hi) * Span(started.value, ended.value) == Span(start, end);
      if end > start then Some(Window(start, end)) else None
  }

  function Meet(c: Window, hs: seq<Window>): (r: seq<Window>)
    ensures forall w :: w in r ==> c.start <= w.start && w.end <= c.end
  {
    if hs == [] then []
    else
      var start, end := Max(c.start, hs[0].start), Min(c.end, hs[0].end);
      (if end > start then [Window(start, end)] else []) + Meet(c, hs[1..])
  }

  function Meets(cs: seq<Window>, hs: seq<Window>): seq<Window> {
    if cs == [] then [] else Meet(cs[0], hs) + Meets(cs[1..], hs)
  }

  lemma {:induction false} MeetCovered(c: Window, hs: seq<Window>)
    ensures Covered(Meet(c, hs)) == Span(c.start, c.end) * Covered(hs)
  {
    if hs != [] {
      var start, end := Max(c.start, hs[0].start), Min(c.end, hs[0].end);
      var first := if end > start then [Window(start, end)] else [];
      MeetCovered(c, hs[1..]);
      CoveredConcat(first, Meet(c, hs[1..]));
      assert Covered(first) == Span(start, end);
      assert Span(start, end) == Span(c.start, c.end) * Span(hs[0].start, hs[0].end);
    }
  }

  lemma {:induction false} MeetsCovered(cs: seq<Window>, hs: seq<Window>)
    ensures Covered(Meets(cs, hs)) == Covered(cs) * Covered(hs)
  {
    if cs != [] {
      MeetCovered(cs[0], hs);
      MeetsCovered(cs[1..], hs);
      CoveredConcat(Meet(cs[0], hs), Meets(cs[1..], hs));
    }
  }

  /** Idle time is the healthy time that no connection covers, and the
      subtraction behind it never goes below zero. */
  method HealthyIdle(connections: seq<Window>, healthy: seq<Window>) returns (idle: int)
    ensures idle == |FromEpoch(Covered(healthy) - Covered(connections))|
  {
    var healthyMs := UnionDuration(healthy);
    var healthyOccupiedMs := UnionDuration(Meets(connections, healthy));
    MeetsCovered(connections, healthy);
    ghost var h, c := FromEpoch(Covered(healthy)), FromEpoch(Covered(connections) * Covered(healthy));
    assert c <= h;
    assert h - c == FromEpoch(Covered(healthy) - Covered(connections));
    assert |h - c| == |h| - |c|;
    assert healthyMs - healthyOccupiedMs >= 0;
    idle := Max(0, healthyMs - healthyOccupiedMs);
  }
}
