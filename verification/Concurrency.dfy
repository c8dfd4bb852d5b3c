/** The two event sweeps over connection windows: the peak and the time-weighted
    percentile of the number of open windows. */
module Concurrency {
  import opened Sorting
  import opened Windows
  import opened Sums

  datatype Event = Event(at: int, delta: int)

  /** Windows begun minus windows ended at `t`. */
  ghost function Level(ws: seq<Window>, t: int): int {
    if ws == [] then 0
    else (if ws[0].start <= t then 1 else 0) - (if ws[0].end <= t then 1 else 0) + Level(ws[1..], t)
  }

  lemma {:induction false} LevelIsOpen(ws: seq<Window>, t: int)
    requires NotReversed(ws)
    ensures Level(ws, t) == Open(ws, t)
  {
    if ws != [] {
      assert ws[0] in ws;
      LevelIsOpen(ws[1..], t);
    }
  }

  function Edges(ws: seq<Window>): seq<Event> {
    if ws == [] then [] else [Event(ws[0].start, 1), Event(ws[0].end, -1)] + Edges(ws[1..])
  }

  /** The comparator of both sweeps: by time, ends before starts. */
  predicate NoLater(a: Event, b: Event) { a.at < b.at || (a.at == b.at && a.delta <= b.delta) }

  ghost function SumUpTo(es: seq<Event>, t: int): int {
    if es == [] then 0 else (if es[0].at <= t then es[0].delta else 0) + SumUpTo(es[1..], t)
  }

  ghost function Total(es: seq<Event>): int {
    if es == [] then 0 else es[0].delta + Total(es[1..])
  }

  lemma {:induction false} SumUpToConcat(a: seq<Event>, b: seq<Event>, t: int)
    ensures SumUpTo(a + b, t) == SumUpTo(a, t) + SumUpTo(b, t)
  {
    if a == [] {
      assert a + b == b;
    } else {
      assert (a + b)[1..] == a[1..] + b;
      SumUpToConcat(a[1..], b, t);
    }
  }

  lemma {:induction false} TotalAppend(a: seq<Event>, e: Event)
    ensures Total(a + [e]) == Total(a) + e.delta
  {
    if a == [] {
      assert a + [e] == [e];
    } else {
      assert (a + [e])[1..] == a[1..] + [e];
      TotalAppend(a[1..], e);
    }
  }

  lemma {:induction false} SumUpToInsert(e: Event, s: seq<Event>, t: int)
    ensures SumUpTo(Insert(e, s, NoLater), t) == SumUpTo([e] + s, t)
  {
    SumUpToConcat([e], s, t);
    if s == [] || NoLater(e, s[0]) {
    } else {
      SumUpToInsert(e, s[1..], t);
      SumUpToConcat([e], s[1..], t);
    }
  }

  lemma {:induction false} SumUpToSort(s: seq<Event>, t: int)
    ensures SumUpTo(SortBy(s, NoLater), t) == SumUpTo(s, t)
  {
    if s != [] {
      SumUpToSort(s[1..], t);
      SumUpToInsert(s[0], SortBy(s[1..], NoLater), t);
      SumUpToConcat([s[0]], SortBy(s[1..], NoLater), t);
    }
  }

  lemma {:induction false} EdgesLevel(ws: seq<Window>, t: int)
    ensures SumUpTo(Edges(ws), t) == Level(ws, t)
  {
    if ws != [] {
      EdgesLevel(ws[1..], t);
      var first := [Event(ws[0].start, 1), Event(ws[0].end, -1)];
      SumUpToConcat(first, Edges(ws[1..]), t);
      assert first[1..] == [Event(ws[0].end, -1)];
    }
  }

  lemma {:induction false} AllWithin(es: seq<Event>, t: int)
    requires forall e :: e in es ==> e.at <= t
    ensures SumUpTo(es, t) == Total(es)
  {
    if es != [] {
      assert es[0] in es;
      AllWithin(es[1..], t);
    }
  }

  lemma {:induction false} RisingAfter(es: seq<Event>, t: int)
    requires forall e :: e in es && e.at <= t ==> 0 <= e.delta
    ensures SumUpTo(es, t) >= 0
  {
    if es != [] {
      assert es[0] in es;
      RisingAfter(es[1..], t);
    }
  }

  lemma {:induction false} NoneWithin(es: seq<Event>, t: int)
    requires forall e :: e in es ==> t < e.at
    ensures SumUpTo(es, t) == 0
  {
    if es != [] {
      assert es[0] in es;
      NoneWithin(es[1..], t);
    }
  }

  /** Between two neighbouring events the level is the running total. */
  lemma PrefixLevel(es: seq<Event>, k: nat, t: int)
    requires k <= |es|
    requires forall i :: 0 <= i < k ==> es[i].at <= t
    requires forall i :: k <= i < |es| ==> t < es[i].at
    ensures SumUpTo(es, t) == Total(es[..k])
  {
    assert es == es[..k] + es[k..];
    SumUpToConcat(es[..k], es[k..], t);
    AllWithin(es[..k], t);
    NoneWithin(es[k..], t);
  }

  /** After a start event, the level at its time is at least the running total:
      everything still to come at that time is a start too. */
  lemma StartReached(es: seq<Event>, k: nat)
    requires Sorted(es, NoLater) && k < |es| && es[k].delta > 0
    ensures SumUpTo(es, es[k].at) >= Total(es[..k + 1])
  {
    var t := es[k].at;
    assert es == es[..k + 1] + es[k + 1..];
    SumUpToConcat(es[..k + 1], es[k + 1..], t);
    AllWithin(es[..k + 1], t);
    RisingAfter(es[k + 1..], t);
  }

  /** The events of the windows in sweep order, with the level they add up to. */
  function Sweep(events: seq<Event>): (r: seq<Event>)
    ensures Sorted(r, NoLater)
    ensures forall e :: e in r <==> e in events
    ensures forall t :: SumUpTo(r, t) == SumUpTo(events, t)
  {
    SortBySorted(events, NoLater);
    SamePermutationElements(SortBy(events, NoLater), events);
    assert forall t :: SumUpTo(SortBy(events, NoLater), t) == SumUpTo(events, t) by {
      forall t ensures SumUpTo(SortBy(events, NoLater), t) == SumUpTo(events, t) { SumUpToSort(events, t); }
    }
    SortBy(events, NoLater)
  }

  /** How many leading events of a sweep happen at or before `t`. */
  lemma SplitAt(es: seq<Event>, t: int) returns (k: nat)
    requires Sorted(es, NoLater)
    ensures k <= |es|
    ensures forall i :: 0 <= i < k ==> es[i].at <= t
    ensures forall i :: k <= i < |es| ==> t < es[i].at
  {
    k := 0;
    while k < |es| && es[k].at <= t
      invariant k <= |es|
      invariant forall i :: 0 <= i < k ==> es[i].at <= t
    {
      k := k + 1;
    }
  }

  /** The peak is the greatest level over all time, and 0 when none is positive. */
  method PeakConcurrency(windows: seq<Window>) returns (peak: int)
    ensures 0 <= peak
    ensures forall t :: Level(windows, t) <= peak
    ensures peak == 0 || exists t :: Level(windows, t) == peak
  {
    var events := Sweep(Edges(windows));
    hide SumUpTo, Level, Edges, Sweep;
    var current := 0;
    peak := 0;
    assert events[..0] == [] && Total([]) == 0;
    hide Total;
    for i := 0 to |events|
      invariant current == Total(events[..i])
      invariant 0 <= peak
      invariant forall k :: 0 <= k <= i ==> Total(events[..k]) <= peak
      invariant peak == 0 || exists t :: SumUpTo(events, t) >= peak
    {
      assert events[..i + 1] == events[..i] + [events[i]];
      TotalAppend(events[..i], events[i]);
      current := current + events[i].delta;
      if current > peak {
        StartReached(events, i);
        assert SumUpTo(events, events[i].at) >= current;
      }
      peak := Max(peak, current);
    }
    forall t ensures Level(windows, t) <= peak { LevelAtMost(windows, events, t, peak); }
    if peak != 0 {
      ghost var t :| SumUpTo(events, t) >= peak;
      EdgesLevel(windows, t);
      assert Level(windows, t) == peak;
    }
  }

  /** A bound on every running total of the sweep bounds the level. */
  lemma LevelAtMost(windows: seq<Window>, events: seq<Event>, t: int, peak: int)
    requires events == Sweep(Edges(windows))
    requires forall k :: 0 <= k <= |events| ==> Total(events[..k]) <= peak
    ensures Level(windows, t) <= peak
  {
    hide SumUpTo, Level, Edges, Total;
    EdgesLevel(windows, t);
    var k := SplitAt(events, t);
    PrefixLevel(events, k, t);
  }

  // ----- concurrencyPercentile -----

  ghost function AtLevel(es: seq<Event>, lo: int, hi: int, level: int): set<int> {
    set t | lo <= t < hi && SumUpTo(es, t) == level
  }

  ghost function AmongLevels(es: seq<Event>, lo: int, hi: int, levels: set<int>): set<int> {
    set t | lo <= t < hi && SumUpTo(es, t) in levels
  }

  /** The milliseconds of the period at which at most `level` windows are open. */
  ghost function UpToLevel(ws: seq<Window>, lo: int, hi: int, level: int): set<int> {
    set t | lo <= t < hi && Open(ws, t) <= level
  }

  /** `level` is the least one whose time, with that of all lower levels, reaches
      the share. */
  ghost predicate IsPercentile(ws: seq<Window>, lo: int, hi: int, share: real, level: int) {
    && |UpToLevel(ws, lo, hi, level)| as real >= (hi - lo) as real * share
    && forall lower :: lower < level ==> (|UpToLevel(ws, lo, hi, lower)| as real) < (hi - lo) as real * share
  }

  /** The durations map after sweeping up to `until`. */
  ghost predicate Measured(es: seq<Event>, lo: int, until: int, durations: map<int, int>) {
    forall level :: (if level in durations then durations[level] else 0) == |AtLevel(es, lo, until, level)|
  }

  ghost predicate PositiveTimes(durations: map<int, int>) {
    forall level :: level in durations ==> 0 < durations[level]
  }

  lemma MeasureStep(es: seq<Event>, lo: int, k: nat, previousAt: int, at: int, durations: map<int, int>)
    requires Measured(es, lo, previousAt, durations) && PositiveTimes(durations)
    requires lo <= previousAt < at && k <= |es|
    requires forall i :: 0 <= i < k ==> es[i].at <= previousAt
    requires forall i :: k <= i < |es| ==> at <= es[i].at
    ensures var current := Total(es[..k]);
            var was := if current in durations then durations[current] else 0;
            var next := durations[current := was + at - previousAt];
            Measured(es, lo, at, next) && PositiveTimes(next)
  {
    var current := Total(es[..k]);
    var was := if current in durations then durations[current] else 0;
    forall t | previousAt <= t < at ensures SumUpTo(es, t) == current { PrefixLevel(es, k, t); }
    SpanSize(previousAt, at);
    forall level
      ensures |AtLevel(es, lo, at, level)|
        == |AtLevel(es, lo, previousAt, level)| + (if level == current then at - previousAt else 0)
    {
      if level == current {
        assert AtLevel(es, lo, at, level) == AtLevel(es, lo, previousAt, level) + Span(previousAt, at);
      } else {
        assert AtLevel(es, lo, at, level) == AtLevel(es, lo, previousAt, level);
      }
    }
  }

  ghost function Elements(s: seq<int>): set<int> { set k | k in s }

  lemma Inhabited(keys: set<int>)
    ensures keys == {} || exists k :: k in keys
  {
    if !exists k :: k in keys { assert keys == {}; }
  }

  method Least(keys: set<int>) returns (least: int)
    requires keys != {}
    ensures least in keys && forall k :: k in keys ==> least <= k
  {
    Inhabited(keys);
    least :| least in keys;
    var rest := keys - {least};
    while rest != {}
      invariant rest <= keys && least in keys
      invariant forall k :: k in keys && k !in rest ==> least <= k
      decreases rest
    {
      Inhabited(rest);
      var k :| k in rest;
      rest := rest - {k};
      if k < least { least := k; }
    }
  }

  /** A set of keys in ascending order. */
  method Ascending(keys: set<int>) returns (r: seq<int>)
    ensures Elements(r) == keys
    ensures forall i, j :: 0 <= i < j < |r| ==> r[i] < r[j]
  {
    r := [];
    var rest := keys;
    while rest != {}
      invariant rest <= keys
      invariant Elements(r) == keys - rest
      invariant forall i, j :: 0 <= i < j < |r| ==> r[i] < r[j]
      invariant forall i, k :: 0 <= i < |r| && k in rest ==> r[i] < k
      decreases rest
    {
      var least := Least(rest);
      assert Elements(r + [least]) == Elements(r) + {least};
      r := r + [least];
      rest := rest - {least};
    }
  }

  lemma NothingMeasured(es: seq<Event>, lo: int)
    ensures Measured(es, lo, lo, map[]) && PositiveTimes(map[])
  {
    forall level ensures |AtLevel(es, lo, lo, level)| == 0 { assert AtLevel(es, lo, lo, level) == {}; }
  }

  lemma EventsOrdered(es: seq<Event>, k: nat, l: nat)
    requires Sorted(es, NoLater) && k < l < |es|
    ensures es[k].at <= es[l].at
  {
    assert NoLater(es[k], es[l]);
  }

  method SweepDurations(es: seq<Event>, lo: int, hi: int) returns (durations: map<int, int>)
    requires Sorted(es, NoLater) && es != [] && lo <= hi
    requires forall e :: e in es ==> lo <= e.at <= hi
    requires es[|es| - 1].at == hi
    ensures Measured(es, lo, hi, durations) && PositiveTimes(durations)
  {
    durations := map[];
    var current, previousAt := 0, lo;
    NothingMeasured(es, lo);
    assert es[..0] == [] && Total([]) == 0;
    hide Measured, PositiveTimes, Total, Sorted;
    forall k, l | 0 <= k < l < |es| ensures es[k].at <= es[l].at { EventsOrdered(es, k, l); }
    for i := 0 to |es|
      invariant current == Total(es[..i])
      invariant previousAt == if i == 0 then lo else es[i - 1].at
      invariant lo <= previousAt
      invariant forall k :: 0 <= k < i ==> es[k].at <= previousAt
      invariant Measured(es, lo, previousAt, durations) && PositiveTimes(durations)
    {
      var event := es[i];
      assert event in es;
      if event.at > previousAt {
        MeasureStep(es, lo, i, previousAt, event.at, durations);
        durations := durations[current :=
          (if current in durations then durations[current] else 0) + event.at - previousAt];
      }
      assert es[..i + 1] == es[..i] + [event];
      TotalAppend(es[..i], event);
      current := current + event.delta;
      previousAt := event.at;
    }
  }

  lemma AmongStep(es: seq<Event>, lo: int, hi: int, durations: map<int, int>, levels: set<int>, level: int)
    requires Measured(es, lo, hi, durations) && level in durations && level !in levels
    ensures |AmongLevels(es, lo, hi, levels + {level})| == |AmongLevels(es, lo, hi, levels)| + durations[level]
  {
    assert AmongLevels(es, lo, hi, levels + {level}) == AmongLevels(es, lo, hi, levels) + AtLevel(es, lo, hi, level);
    assert AmongLevels(es, lo, hi, levels) !! AtLevel(es, lo, hi, level);
  }

  /** Every level that occurs in the period has an entry. */
  lemma LevelOccurs(es: seq<Event>, lo: int, hi: int, durations: map<int, int>, t: int)
    requires Measured(es, lo, hi, durations) && lo <= t < hi
    ensures SumUpTo(es, t) in durations
  {
    assert t in AtLevel(es, lo, hi, SumUpTo(es, t));
  }

  /** The durations recorded add up to the whole period. */
  lemma WholePeriod(es: seq<Event>, lo: int, hi: int, durations: map<int, int>)
    requires Measured(es, lo, hi, durations) && lo <= hi
    ensures |AmongLevels(es, lo, hi, durations.Keys)| == hi - lo
  {
    forall t | lo <= t < hi ensures SumUpTo(es, t) in durations.Keys { LevelOccurs(es, lo, hi, durations, t); }
    SpanSize(lo, hi);
    assert AmongLevels(es, lo, hi, durations.Keys) == Span(lo, hi);
  }

  /** The times at levels among the first keys are those at or below the last. */
  lemma PrefixOfLevels(
    ws: seq<Window>, es: seq<Event>, lo: int, hi: int, durations: map<int, int>, keys: seq<int>, j: nat, level: int)
    requires Measured(es, lo, hi, durations) && forall t :: SumUpTo(es, t) == Open(ws, t)
    requires Elements(keys) == durations.Keys
    requires j <= |keys|
    requires forall i :: 0 <= i < j ==> keys[i] <= level
    requires forall i :: j <= i < |keys| ==> level < keys[i]
    ensures UpToLevel(ws, lo, hi, level) == AmongLevels(es, lo, hi, Elements(keys[..j]))
  {
    forall t | lo <= t < hi ensures Open(ws, t) <= level <==> SumUpTo(es, t) in keys[..j] {
      LevelOccurs(es, lo, hi, durations, t);
      var i :| 0 <= i < |keys| && keys[i] == SumUpTo(es, t);
      if i < j { assert keys[..j][i] == keys[i]; }
    }
  }

  lemma FirstReached(
    ws: seq<Window>, es: seq<Event>, lo: int, hi: int, durations: map<int, int>, keys: seq<int>, j: nat, share: real)
    requires Measured(es, lo, hi, durations) && forall t :: SumUpTo(es, t) == Open(ws, t)
    requires Elements(keys) == durations.Keys
    requires forall i, k :: 0 <= i < k < |keys| ==> keys[i] < keys[k]
    requires lo < hi && 0.0 < share && j < |keys|
    requires |AmongLevels(es, lo, hi, Elements(keys[..j]))| as real < (hi - lo) as real * share
    requires |AmongLevels(es, lo, hi, Elements(keys[..j + 1]))| as real >= (hi - lo) as real * share
    ensures IsPercentile(ws, lo, hi, share, keys[j])
  {
    PrefixOfLevels(ws, es, lo, hi, durations, keys, j + 1, keys[j]);
    PrefixOfLevels(ws, es, lo, hi, durations, keys, j, keys[j] - 1);
    forall lower | lower < keys[j] ensures |UpToLevel(ws, lo, hi, lower)| as real < (hi - lo) as real * share {
      SubsetSize(UpToLevel(ws, lo, hi, lower), UpToLevel(ws, lo, hi, keys[j] - 1));
    }
  }

  /** One step of the walk: the next level's time joins the times below it. */
  lemma WalkStep(es: seq<Event>, lo: int, hi: int, durations: map<int, int>, keys: seq<int>, j: nat)
    requires Measured(es, lo, hi, durations) && Elements(keys) == durations.Keys
    requires forall i, k :: 0 <= i < k < |keys| ==> keys[i] < keys[k]
    requires j < |keys|
    ensures keys[j] in durations
    ensures |AmongLevels(es, lo, hi, Elements(keys[..j + 1]))|
      == |AmongLevels(es, lo, hi, Elements(keys[..j]))| + durations[keys[j]]
  {
    assert keys[j] in Elements(keys);
    assert keys[j] !in Elements(keys[..j]);
    AmongStep(es, lo, hi, durations, Elements(keys[..j]), keys[j]);
    assert keys[..j + 1] == keys[..j] + [keys[j]];
    assert Elements(keys[..j + 1]) == Elements(keys[..j]) + {keys[j]};
  }

  lemma WalkCovers(es: seq<Event>, lo: int, hi: int, durations: map<int, int>, keys: seq<int>, share: real)
    requires Measured(es, lo, hi, durations) && Elements(keys) == durations.Keys
    requires lo <= hi && share <= 1.0
    ensures |AmongLevels(es, lo, hi, Elements(keys[..|keys|]))| as real >= (hi - lo) as real * share
  {
    assert keys[..|keys|] == keys;
    WholePeriod(es, lo, hi, durations);
    assert (hi - lo) as real * share <= (hi - lo) as real;
  }

  /** Walks the levels upwards until the share is reached. */
  method Reach(
    ghost windows: seq<Window>, ghost events: seq<Event>, lo: int, hi: int, durations: map<int, int>, share: real)
    returns (level: int)
    requires Measured(events, lo, hi, durations)
    requires forall t :: SumUpTo(events, t) == Open(windows, t)
    requires lo < hi && 0.0 < share <= 1.0
    ensures IsPercentile(windows, lo, hi, share, level)
  {
    var target := (hi - lo) as real * share;
    var keys := Ascending(durations.Keys);
    var cumulative := 0;
    assert AmongLevels(events, lo, hi, Elements(keys[..0])) == {};
    WalkCovers(events, lo, hi, durations, keys, share);
    var j := 0;
    while j < |keys|
      invariant 0 <= j <= |keys|
      invariant cumulative == |AmongLevels(events, lo, hi, Elements(keys[..j]))|
      invariant cumulative as real < target
    {
      WalkStep(events, lo, hi, durations, keys, j);
      cumulative := cumulative + durations[keys[j]];
      if cumulative as real >= target {
        FirstReached(windows, events, lo, hi, durations, keys, j, share);
        return keys[j];
      }
      j := j + 1;
    }
    level := 0;
  }

  /** With windows inside the period, the result is the time-weighted percentile. */
  method ConcurrencyPercentile(windows: seq<Window>, lo: int, hi: int, share: real) returns (level: int)
    requires forall w :: w in windows ==> lo <= w.start <= w.end <= hi
    requires lo < hi && 0.0 < share <= 1.0
    ensures IsPercentile(windows, lo, hi, share, level)
  {
    var events := Sweep([Event(lo, 0), Event(hi, 0)] + Edges(windows));
    SweepShape(windows, lo, hi, events);
    var durations := SweepDurations(events, lo, hi);
    level := Reach(windows, events, lo, hi, durations, share);
  }

  lemma SweepShape(windows: seq<Window>, lo: int, hi: int, events: seq<Event>)
    requires forall w :: w in windows ==> lo <= w.start <= w.end <= hi
    requires lo <= hi && Sorted(events, NoLater)
    requires forall e :: e in events <==> e in [Event(lo, 0), Event(hi, 0)] + Edges(windows)
    requires forall t :: SumUpTo(events, t) == SumUpTo([Event(lo, 0), Event(hi, 0)] + Edges(windows), t)
    ensures forall e :: e in events ==> lo <= e.at <= hi
    ensures events != [] && events[|events| - 1].at == hi
    ensures forall t :: SumUpTo(events, t) == Open(windows, t)
  {
    EdgesInside(windows, lo, hi);
    LastAtEnd(events, lo, hi, Edges(windows));
    forall t ensures SumUpTo(events, t) == Open(windows, t) {
      MarksAddNothing(Edges(windows), lo, hi, t);
      EdgesLevel(windows, t);
      LevelIsOpen(windows, t);
    }
  }

  lemma MarksAddNothing(es: seq<Event>, lo: int, hi: int, t: int)
    ensures SumUpTo([Event(lo, 0), Event(hi, 0)] + es, t) == SumUpTo(es, t)
  {
    var marks := [Event(lo, 0), Event(hi, 0)];
    SumUpToConcat(marks, es, t);
    assert marks[1..] == [Event(hi, 0)];
  }

  lemma LastAtEnd(events: seq<Event>, lo: int, hi: int, edges: seq<Event>)
    requires lo <= hi && Sorted(events, NoLater)
    requires forall e :: e in edges ==> lo <= e.at <= hi
    requires forall e :: e in events <==> e in [Event(lo, 0), Event(hi, 0)] + edges
    ensures forall e :: e in events ==> lo <= e.at <= hi
    ensures events != [] && events[|events| - 1].at == hi
  {
    var all := [Event(lo, 0), Event(hi, 0)] + edges;
    assert all[1] in all;
    forall e | e in events ensures lo <= e.at <= hi {
      assert e in all;
    }
    var i :| 0 <= i < |events| && events[i] == Event(hi, 0);
    assert events[|events| - 1] in events;
    assert i == |events| - 1 || NoLater(events[i], events[|events| - 1]);
  }

  lemma {:induction false} EdgesInside(ws: seq<Window>, lo: int, hi: int)
    requires forall w :: w in ws ==> lo <= w.start <= w.end <= hi
    ensures forall e :: e in Edges(ws) ==> lo <= e.at <= hi
  {
    if ws != [] {
      assert ws[0] in ws;
      EdgesInside(ws[1..], lo, hi);
    }
  }

  /** No percentile exceeds the peak. */
  lemma PercentileAtMostPeak(ws: seq<Window>, lo: int, hi: int, share: real, level: int, peak: int)
    requires lo < hi && 0.0 < share <= 1.0
    requires IsPercentile(ws, lo, hi, share, level)
    requires forall t :: Open(ws, t) <= peak
    ensures level <= peak
  {
    hide UpToLevel, Open, IsPercentile;
    AllQuiet(ws, lo, hi, peak);
    ShareFits((hi - lo) as real, share);
    if peak < level { Unreached(ws, lo, hi, share, level, peak); }
  }

  lemma AllQuiet(ws: seq<Window>, lo: int, hi: int, peak: int)
    requires lo < hi && forall t :: Open(ws, t) <= peak
    ensures |UpToLevel(ws, lo, hi, peak)| == hi - lo
  {
    SpanSize(lo, hi);
    assert UpToLevel(ws, lo, hi, peak) == Span(lo, hi);
  }

  lemma Unreached(ws: seq<Window>, lo: int, hi: int, share: real, level: int, lower: int)
    requires IsPercentile(ws, lo, hi, share, level) && lower < level
    ensures (|UpToLevel(ws, lo, hi, lower)| as real) < (hi - lo) as real * share
  {
    hide UpToLevel;
  }

  lemma ShareFits(whole: real, share: real)
    requires 0.0 <= whole && share <= 1.0
    ensures whole * share <= whole
  {
  }
}
