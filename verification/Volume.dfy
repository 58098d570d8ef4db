/** The volume signal: the current hour against the hours before it. */
module Volume {
  import opened Basics
  import Calendar
  import opened Beacon

  datatype Estado = Estado(hourIndex: Option<int>, hourCount: nat, completed: seq<nat>)

  function Saturated(n: nat): nat { Min(n, U32_MAX) }

  function HourOf(ts: int): int { ts / Calendar.HOUR_MS }

  function Clamp(x: int, lo: int, hi: int): int { Max(lo, Min(x, hi)) }

  function ZeroHours(k: nat): (r: seq<nat>) ensures |r| == k { seq(k, _ => 0) }

  /** What one query leaves. */
  function Counted(v: Estado, ts: int, history: nat): Estado {
    var index := HourOf(ts);
    match v.hourIndex
    case Some(current) =>
      if current == index then v.(hourCount := Saturated(v.hourCount + 1))
      else
        var gap := Clamp(index - current - 1, 0, 24);
        Estado(Some(index), 1, LastN(v.completed + [v.hourCount] + ZeroHours(gap), history))
    case None => v.(hourIndex := Some(index), hourCount := Saturated(v.hourCount + 1))
  }

  function Active(hours: seq<nat>): (r: seq<int>)
    ensures |r| <= |hours|
  {
    if hours == [] then [] else (if hours[0] > 0 then [hours[0]] else []) + Active(hours[1..])
  }

  /** Far above the median of the hours in which the device spoke. */
  predicate Fires(v: Estado, t: Thresholds) {
    var active := Active(v.completed);
    |v.completed| >= 3 && |active| >= 3
    && v.hourCount > Max(Min(SortInts(active)[|active| / 2] * t.volumeFactor, U32_MAX), t.volumeFloor)
  }

  class Device {
    var hourIndex: Option<int>
    var hourCount: nat
    var completedHours: seq<nat>

    function State(): Estado
      reads this
    {
      Estado(hourIndex, hourCount, completedHours)
    }

    /** The hour there was joins those before it, the idle ones up to now go after, and the oldest leave. */
    method NextHour(current: int, index: int, history: nat)
      modifies `completedHours, `hourIndex, `hourCount
      ensures hourIndex == Some(index) && hourCount == 0
      ensures completedHours
           == LastN(old(completedHours) + [old(hourCount)] + ZeroHours(Clamp(index - current - 1, 0, 24)), history)
    {
      completedHours := completedHours + [hourCount];
      var gap := Clamp(index - current - 1, 0, 24);
      ghost var before := completedHours;
      for i := 0 to gap
        invariant completedHours == before + ZeroHours(i)
        modifies `completedHours
      {
        completedHours := completedHours + [0];
      }
      ghost var all := completedHours;
      while |completedHours| > history
        invariant LastN(completedHours, history) == LastN(all, history)
        modifies `completedHours
      {
        completedHours := completedHours[1..];
      }
      hourIndex := Some(index);
      hourCount := 0;
    }

    /** Counts the query in its hour; true when the hour is far above the median. */
    method Query(ts: int, t: Thresholds) returns (fires: bool)
      modifies this
      ensures State() == Counted(old(State()), ts, t.volumeHistoryHours)
      ensures fires == Fires(State(), t)
    {
      var index := ts / Calendar.HOUR_MS;
      match hourIndex {
        case Some(current) =>
          if current != index { NextHour(current, index, t.volumeHistoryHours); }
        case None => hourIndex := Some(index);
      }
      hourCount := Saturated(hourCount + 1);
      if |completedHours| < 3 {
        return false;
      }
      var active := Active(completedHours);
      if |active| < 3 {
        return false;
      }
      var sorted := SortInts(active);
      var median := sorted[|sorted| / 2];
      var limit := Max(Min(median * t.volumeFactor, U32_MAX), t.volumeFloor);
      fires := hourCount > limit;
    }
  }

  // ----- the same, from the whole series -----

  predicate Nondecreasing(series: seq<int>) { forall i, j | 0 <= i < j < |series| :: series[i] <= series[j] }

  /** Queries of the series in hour `h`. */
  function InHour(series: seq<int>, h: int): nat {
    if series == [] then 0
    else InHour(series[..|series| - 1], h) + (if HourOf(series[|series| - 1]) == h then 1 else 0)
  }

  function StateAfter(series: seq<int>, history: nat): Estado {
    if series == [] then Estado(None, 0, [])
    else Counted(StateAfter(series[..|series| - 1], history), series[|series| - 1], history)
  }

  /** The true histogram of the last hours before `current`, from the first query's hour on. */
  function Histogram(series: seq<int>, current: int, hours: nat): (r: seq<nat>)
    ensures |r| == hours
  {
    seq<nat>(hours, k requires 0 <= k < hours => Saturated(InHour(series, current - hours + k)))
  }

  function Elapsed(series: seq<int>): nat
    requires series != [] && Nondecreasing(series)
  {
    HourOf(series[|series| - 1]) - HourOf(series[0])
  }

  lemma {:induction false} NothingOutside(series: seq<int>, h: int)
    requires forall i | 0 <= i < |series| :: HourOf(series[i]) != h
    ensures InHour(series, h) == 0
  {
    if series != [] { NothingOutside(series[..|series| - 1], h); }
  }

  lemma HoursInOrder(a: int, b: int)
    requires a <= b
    ensures HourOf(a) <= HourOf(b)
  {
  }

  /** Later hours hold nothing yet. */
  lemma NothingLater(series: seq<int>, h: int)
    requires series != [] && Nondecreasing(series) && h > HourOf(series[|series| - 1])
    ensures InHour(series, h) == 0
  {
    forall i | 0 <= i < |series| ensures HourOf(series[i]) != h {
      HoursInOrder(series[i], series[|series| - 1]);
    }
    NothingOutside(series, h);
  }

  /** Completed hours are the last of the true histogram, idle hours and the clamped gap included. */
  lemma {:induction false} HoursAreTheHistogram(series: seq<int>, history: nat)
    requires series != [] && Nondecreasing(series) && history <= 24
    ensures var current := HourOf(series[|series| - 1]);
            StateAfter(series, history)
            == Estado(Some(current), Saturated(InHour(series, current)),
                      Histogram(series, current, Min(history, Elapsed(series))))
  {
    var k := |series| - 1;
    var before, ts := series[..k], series[k];
    assert series == before + [ts];
    if k == 0 {
      assert InHour(before, HourOf(ts)) == 0;
    } else {
      HoursAreTheHistogram(before, history);
      HoursInOrder(before[k - 1], ts);
      HoursInOrder(series[0], before[k - 1]);
      NextHour(before, ts, history);
    }
  }

  lemma OneMore(before: seq<int>, ts: int, h: int)
    ensures InHour(before + [ts], h) == InHour(before, h) + (if HourOf(ts) == h then 1 else 0)
  {
    assert (before + [ts])[..|before|] == before;
  }

  /** Another query of the current hour leaves the hours before it alone. */
  lemma SameHour(before: seq<int>, ts: int, n: nat)
    ensures Histogram(before + [ts], HourOf(ts), n) == Histogram(before, HourOf(ts), n)
  {
    var index := HourOf(ts);
    forall j | 0 <= j < n
      ensures Histogram(before + [ts], index, n)[j] == Histogram(before, index, n)[j]
    {
      OneMore(before, ts, index - n + j);
    }
  }

  lemma HistogramLast(series: seq<int>, current: int, all: nat, n: nat)
    requires n <= all
    ensures LastN(Histogram(series, current, all), n) == Histogram(series, current, n)
  {
  }

  /** The hours between two queries held nothing. */
  lemma IdleHours(before: seq<int>, ts: int, k: nat)
    requires before != [] && Nondecreasing(before) && k < HourOf(ts) - HourOf(before[|before| - 1])
    ensures Histogram(before + [ts], HourOf(ts), k) == ZeroHours(k)
  {
    var idle := Histogram(before + [ts], HourOf(ts), k);
    forall j | 0 <= j < k ensures idle[j] == 0 {
      var h := HourOf(ts) - k + j;
      OneMore(before, ts, h);
      NothingLater(before, h);
      assert idle[j] == Saturated(InHour(before + [ts], h));
    }
  }

  lemma HistogramSplit(series: seq<int>, current: int, a: nat, b: nat)
    ensures Histogram(series, current, a + b) == Histogram(series, current - b, a) + Histogram(series, current, b)
  {
  }

  /** The completed hours with the current one, seen from the later query. */
  lemma CurrentCompletes(before: seq<int>, ts: int, current: int, n: nat)
    requires current < HourOf(ts)
    ensures Histogram(before, current, n) + [Saturated(InHour(before, current))]
         == Histogram(before + [ts], current + 1, n + 1)
  {
    var head := Histogram(before, current, n) + [Saturated(InHour(before, current))];
    var seen := Histogram(before + [ts], current + 1, n + 1);
    forall j | 0 <= j < n + 1 ensures head[j] == seen[j] {
      var h := current - n + j;
      OneMore(before, ts, h);
      assert seen[j] == Saturated(InHour(before + [ts], h));
    }
  }

  lemma ManyZeros(head: seq<nat>, history: nat)
    requires history <= 24
    ensures LastN(head + ZeroHours(24), history) == ZeroHours(history)
  {
  }

  lemma ShortGap(before: seq<int>, ts: int, current: int, history: nat, n: nat)
    requires before != [] && Nondecreasing(before) && current == HourOf(before[|before| - 1]) < HourOf(ts)
    ensures var gap := HourOf(ts) - current - 1;
            LastN(Histogram(before + [ts], current + 1, n + 1) + ZeroHours(gap), history)
            == Histogram(before + [ts], HourOf(ts), Min(history, n + 1 + gap))
  {
    var gap := HourOf(ts) - current - 1;
    IdleHours(before, ts, gap);
    HistogramSplit(before + [ts], HourOf(ts), n + 1, gap);
    HistogramLast(before + [ts], HourOf(ts), n + 1 + gap, Min(history, n + 1 + gap));
  }

  lemma LongGap(before: seq<int>, ts: int, current: int, history: nat, head: seq<nat>)
    requires before != [] && Nondecreasing(before) && current == HourOf(before[|before| - 1])
    requires HourOf(ts) - current - 1 > 24 >= history
    ensures LastN(head + ZeroHours(24), history) == Histogram(before + [ts], HourOf(ts), history)
  {
    IdleHours(before, ts, history);
    ManyZeros(head, history);
  }

  /** A query of a later hour completes the current one and the idle ones between. */
  lemma LaterHour(before: seq<int>, ts: int, current: int, history: nat, n: nat, m: nat, completed: seq<nat>)
    requires before != [] && Nondecreasing(before) && history <= 24
    requires current == HourOf(before[|before| - 1]) < HourOf(ts)
    requires n <= history && m == Min(history, n + (HourOf(ts) - current))
    requires completed == Histogram(before, current, n) + [Saturated(InHour(before, current))]
    ensures LastN(completed + ZeroHours(Clamp(HourOf(ts) - current - 1, 0, 24)), history)
         == Histogram(before + [ts], HourOf(ts), m)
  {
    CurrentCompletes(before, ts, current, n);
    if HourOf(ts) - current - 1 <= 24 {
      ShortGap(before, ts, current, history, n);
    } else {
      LongGap(before, ts, current, history, completed);
    }
  }

  lemma NextHour(before: seq<int>, ts: int, history: nat)
    requires before != [] && Nondecreasing(before + [ts]) && history <= 24
    requires Nondecreasing(before) && HourOf(before[|before| - 1]) <= HourOf(ts)
    requires StateAfter(before, history)
          == Estado(Some(HourOf(before[|before| - 1])), Saturated(InHour(before, HourOf(before[|before| - 1]))),
                    Histogram(before, HourOf(before[|before| - 1]), Min(history, Elapsed(before))))
    ensures Counted(StateAfter(before, history), ts, history)
         == Estado(Some(HourOf(ts)), Saturated(InHour(before + [ts], HourOf(ts))),
                   Histogram(before + [ts], HourOf(ts), Min(history, Elapsed(before + [ts]))))
  {
    var current, index := HourOf(before[|before| - 1]), HourOf(ts);
    var n := Min(history, Elapsed(before));
    OneMore(before, ts, index);
    HoursInOrder(before[0], before[|before| - 1]);
    if current == index {
      SameHour(before, ts, n);
    } else {
      NothingLater(before, index);
      LaterHour(before, ts, current, history, n, Min(history, Elapsed(before + [ts])),
                Histogram(before, current, n) + [Saturated(InHour(before, current))]);
    }
  }

  /** The signal is its definition over the whole history: three active hours among the last ones. */
  lemma VolumeIsItsDefinition(series: seq<int>, t: Thresholds)
    requires series != [] && Nondecreasing(series) && t.volumeHistoryHours <= 24
    ensures var current := HourOf(series[|series| - 1]);
            var active := Active(Histogram(series, current, Min(t.volumeHistoryHours, Elapsed(series))));
            Fires(StateAfter(series, t.volumeHistoryHours), t)
            <==> |active| >= 3 && Saturated(InHour(series, current))
                 > Max(SortInts(active)[|active| / 2] * t.volumeFactor, t.volumeFloor)
  {
    HoursAreTheHistogram(series, t.volumeHistoryHours);
  }

  predicate Forgets(series: seq<int>, history: nat) {
    series != [] && Nondecreasing(series)
    && StateAfter(series, history).completed
       != Histogram(series, HourOf(series[|series| - 1]), Min(history, Elapsed(series)))
  }

  /** Twenty-four is the most: with a longer history the clamped gap forgets idle hours. */
  lemma LongerHistoryForgets(history: nat)
    requires history > 24
    ensures exists series: seq<int> :: Forgets(series, history)
  {
    var late := (history + 1) * Calendar.HOUR_MS;
    var series := [0, late];
    assert series[..1] == [0] && [0][..0] == [];
    assert HourOf(late) == history + 1;
    assert StateAfter([0], history) == Estado(Some(0), 1, []);
    var completed := StateAfter(series, history).completed;
    assert completed == LastN([] + [1] + ZeroHours(24), history);
    assert completed[0] == 1;
    assert InHour(series, 1) == 0;
    assert Histogram(series, history + 1, history)[0] == Saturated(InHour(series, history + 1 - history + 0));
    assert history + 1 - history + 0 == 1;
    assert Forgets(series, history);
  }
}
