/** The off-hours signal: a query at an hour of the day never seen before. */
module OffHours {
  import opened Basics
  import Calendar
  import opened Beacon

  datatype Perfil = Perfil(counts: seq<nat>, firstTs: Option<int>, total: nat)

  function Fresh(): Perfil { Perfil(seq(24, _ => 0), None, 0) }

  function HourOfDay(ts: int): (h: int)
    ensures 0 <= h < 24
  {
    ts % Calendar.DAY_MS / Calendar.HOUR_MS
  }

  predicate Learned(p: Perfil, now: int, learnDays: int) {
    p.firstTs.Some? && now - p.firstTs.value >= learnDays * Calendar.DAY_MS
  }

  function Recorded(p: Perfil, ts: int): Perfil
    requires |p.counts| == 24
  {
    var h := HourOfDay(ts);
    Perfil(p.counts[h := Min(p.counts[h] + 1, U32_MAX)], if p.firstTs.None? then Some(ts) else p.firstTs, p.total + 1)
  }

  predicate Unusual(p: Perfil, ts: int, learnDays: int)
    requires |p.counts| == 24
  {
    Learned(p, ts, learnDays) && p.counts[HourOfDay(ts)] == 0
  }

  class HoursProfile {
    const counts: array<nat>
    var firstTs: Option<int>
    var total: nat

    ghost predicate Valid()
      reads this
    {
      counts.Length == 24
    }

    ghost function State(): Perfil
      reads this, counts
    {
      Perfil(counts[..], firstTs, total)
    }

    constructor ()
      ensures Valid() && State() == Fresh() && fresh(counts)
    {
      counts := new nat[24](_ => 0);
      firstTs, total := None, 0;
    }

    /** Records the query's hour; true when it is unusual and the profile is learned. */
    method OffHours(ts: int, learnDays: int) returns (unusual: bool)
      requires Valid()
      modifies this, counts
      ensures Valid() && State() == Recorded(old(State()), ts)
      ensures unusual == Unusual(old(State()), ts, learnDays)
    {
      var h := ts % Calendar.DAY_MS / Calendar.HOUR_MS;
      unusual := firstTs.Some? && ts - firstTs.value >= learnDays * Calendar.DAY_MS && counts[h] == 0;
      if firstTs.None? {
        firstTs := Some(ts);
      }
      counts[h] := Min(counts[h] + 1, U32_MAX);
      total := total + 1;
    }
  }

  function ProfileAfter(series: seq<int>): (p: Perfil)
    ensures |p.counts| == 24
  {
    if series == [] then Fresh() else Recorded(ProfileAfter(series[..|series| - 1]), series[|series| - 1])
  }

  /** How many queries of the series fired. */
  function Firings(series: seq<int>, learnDays: int): nat {
    if series == [] then 0
    else
      var before := series[..|series| - 1];
      Firings(before, learnDays) + (if Unusual(ProfileAfter(before), series[|series| - 1], learnDays) then 1 else 0)
  }

  function Filled(counts: seq<nat>): nat {
    if counts == [] then 0 else Filled(counts[..|counts| - 1]) + (if counts[|counts| - 1] > 0 then 1 else 0)
  }

  lemma {:induction false} FilledUpdate(counts: seq<nat>, h: nat, n: nat)
    requires h < |counts| && n > 0
    ensures Filled(counts[h := n]) == Filled(counts) + (if counts[h] == 0 then 1 else 0)
    ensures Filled(counts) <= |counts|
  {
    var k := |counts| - 1;
    if h == k {
      assert counts[h := n][..k] == counts[..k];
      FilledBound(counts);
    } else {
      assert counts[h := n][..k] == counts[..k][h := n];
      FilledUpdate(counts[..k], h, n);
    }
  }

  lemma {:induction false} FilledBound(counts: seq<nat>)
    ensures Filled(counts) <= |counts|
  {
    if counts != [] { FilledBound(counts[..|counts| - 1]); }
  }

  /** Every firing fills a slot that never empties, and the first query fills one without firing. */
  lemma {:induction false} FiringsFillSlots(series: seq<int>, learnDays: int)
    ensures series == [] ==> Filled(ProfileAfter(series).counts) == 0
    ensures series != [] ==> ProfileAfter(series).firstTs.Some?
    ensures series != [] ==> Firings(series, learnDays) + 1 <= Filled(ProfileAfter(series).counts)
  {
    if series == [] {
      NothingFilled(24);
    } else {
      var before, ts := series[..|series| - 1], series[|series| - 1];
      FiringsFillSlots(before, learnDays);
      var p := ProfileAfter(before);
      FilledUpdate(p.counts, HourOfDay(ts), Min(p.counts[HourOfDay(ts)] + 1, U32_MAX));
      if before == [] { assert p.counts[HourOfDay(ts)] == 0; }
    }
  }

  lemma {:induction false} NothingFilled(n: nat)
    ensures Filled(seq(n, _ => 0)) == 0
  {
    if n > 0 {
      assert seq(n, _ => 0)[..n - 1] == seq(n - 1, _ => 0);
      NothingFilled(n - 1);
    }
  }

  /** The signal fires at most 23 times in any run from a fresh profile. */
  lemma AtMost23Firings(series: seq<int>, learnDays: int)
    ensures Firings(series, learnDays) <= 23
  {
    FiringsFillSlots(series, learnDays);
    FilledBound(ProfileAfter(series).counts);
  }

  function Total(counts: seq<nat>): nat {
    if counts == [] then 0 else Total(counts[..|counts| - 1]) + counts[|counts| - 1]
  }

  lemma {:induction false} TotalUpdate(counts: seq<nat>, h: nat, n: nat)
    requires h < |counts|
    ensures Total(counts[h := n]) + counts[h] == Total(counts) + n
  {
    var k := |counts| - 1;
    if h == k {
      assert counts[h := n][..k] == counts[..k];
    } else {
      assert counts[h := n][..k] == counts[..k][h := n];
      TotalUpdate(counts[..k], h, n);
    }
  }

  lemma {:induction false} NothingCounted(n: nat)
    ensures Total(seq(n, _ => 0)) == 0
  {
    if n > 0 {
      assert seq(n, _ => 0)[..n - 1] == seq(n - 1, _ => 0);
      NothingCounted(n - 1);
    }
  }

  /** Some hour already counted all it can when another query of it came. */
  predicate Lost(series: seq<int>) {
    series != [] && (Lost(series[..|series| - 1])
      || ProfileAfter(series[..|series| - 1]).counts[HourOfDay(series[|series| - 1])] == U32_MAX)
  }

  /** The total is the sum of the hours exactly until one saturates. */
  lemma {:induction false} TotalIsSum(series: seq<int>)
    ensures Total(ProfileAfter(series).counts) <= ProfileAfter(series).total == |series|
    ensures Total(ProfileAfter(series).counts) == ProfileAfter(series).total <==> !Lost(series)
    ensures forall h | 0 <= h < 24 :: ProfileAfter(series).counts[h] <= U32_MAX
  {
    if series == [] {
      NothingCounted(24);
    } else {
      var before, ts := series[..|series| - 1], series[|series| - 1];
      TotalIsSum(before);
      var p := ProfileAfter(before);
      TotalUpdate(p.counts, HourOfDay(ts), Min(p.counts[HourOfDay(ts)] + 1, U32_MAX));
    }
  }
}
