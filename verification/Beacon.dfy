/** Per-device history behind the signals (crates/classify/src/signals.rs): the beacon. */
module Beacon {
  import opened Basics
  import Calendar

  const SAME_CONTACT_MS: int := 2000
  const BEACON_WINDOW: nat := 64
  const MAX_NAMES_PER_DEVICE: nat := 5000

  datatype Thresholds = Thresholds(
    beaconMinSpanMs: int, beaconTolerancePercent: int, beaconMinSamples: nat, profileLearnDays: int,
    volumeFactor: nat, volumeFloor: nat, volumeHistoryHours: nat)

  function Last(s: seq<int>): int
    requires s != []
  {
    s[|s| - 1]
  }

  /** A query so close to the one before is the same contact asked another way. */
  predicate SameContact(previous: int, ts: int) { ts - previous < SAME_CONTACT_MS }

  /** The contacts of a series of query times, folded. */
  function Contacts(times: seq<int>): (c: seq<int>)
    ensures times != [] ==> c != []
    ensures forall i | 0 <= i < |c| - 1 :: c[i + 1] - c[i] >= SAME_CONTACT_MS
  {
    if times == [] then []
    else
      var c := Contacts(times[..|times| - 1]);
      if c != [] && SameContact(Last(c), Last(times)) then c else c + [Last(times)]
  }

  function Intervals(times: seq<int>): (r: seq<int>)
    ensures times != [] ==> |r| == |times| - 1
  {
    if times == [] then [] else seq(|times| - 1, i requires 0 <= i < |times| - 1 => times[i + 1] - times[i])
  }

  // ----- sorting, as `sort_unstable` leaves it -----

  predicate Ascending(s: seq<int>) { forall i, j | 0 <= i < j < |s| :: s[i] <= s[j] }

  function Insert(x: int, s: seq<int>): (r: seq<int>)
    requires Ascending(s)
    ensures multiset(r) == multiset(s) + multiset{x} && |r| == |s| + 1
    ensures Ascending(r) && forall y | y in r :: y == x || y in s
  {
    if s == [] then [x]
    else if x <= s[0] then
      assert forall y | y in s :: s[0] <= y;
      Before(x, s);
      [x] + s
    else
      assert s == [s[0]] + s[1..];
      var r := Insert(x, s[1..]);
      Before(s[0], r);
      [s[0]] + r
  }

  lemma Before(x: int, s: seq<int>)
    requires Ascending(s) && forall y | y in s :: x <= y
    ensures Ascending([x] + s)
  {
    forall i, j | 0 <= i < j < |s| + 1 ensures ([x] + s)[i] <= ([x] + s)[j] {
      assert s[j - 1] in s;
    }
  }

  function SortInts(s: seq<int>): (r: seq<int>)
    ensures Ascending(r) && multiset(r) == multiset(s) && |r| == |s|
  {
    if s == [] then [] else assert s == [s[0]] + s[1..]; Insert(s[0], SortInts(s[1..]))
  }

  lemma SameElements(s: seq<int>)
    ensures forall x :: x in SortInts(s) <==> x in s
  {
    forall x ensures x in SortInts(s) <==> x in s {
      assert x in SortInts(s) <==> x in multiset(SortInts(s));
    }
  }

  /** The intervals between the contacts of one series, in order. */
  method ContactIntervals(times: seq<int>) returns (intervals: seq<int>)
    ensures intervals == SortInts(Intervals(Contacts(times)))
  {
    var contacts: seq<int> := [];
    for i := 0 to |times|
      invariant contacts == Contacts(times[..i])
    {
      assert times[..i + 1][..i] == times[..i];
      if !(contacts != [] && SameContact(Last(contacts), times[i])) {
        contacts := contacts + [times[i]];
      }
    }
    assert times[..|times|] == times;
    intervals := SortInts(Intervals(contacts));
  }

  /** The upper median. */
  function MedianOfSorted(s: seq<int>): Option<int> {
    if s == [] then None else Some(s[|s| / 2])
  }

  function Minutes(median: int): int
    requires median > 0
  {
    Max((median + 30_000) / 60_000, 1)
  }

  function Tolerance(median: int, t: Thresholds): int {
    TruncDiv(median * t.beaconTolerancePercent, 100)
  }

  /** Median interval in whole minutes, when every interval is near it and the span is long enough. */
  function RegularPeriod(times: seq<int>, t: Thresholds): Option<nat>
    requires t.beaconMinSamples >= 1
  {
    if |times| < t.beaconMinSamples then None
    else if Last(times) - times[0] < t.beaconMinSpanMs then None
    else
      var intervals := SortInts(Intervals(times));
      match MedianOfSorted(intervals)
      case None => None
      case Some(median) =>
        if median <= 0 then None
        else if exists i | 0 <= i < |intervals| :: Abs(intervals[i] - median) > Tolerance(median, t) then None
        else if Minutes(median) > U32_MAX then None
        else Some(Minutes(median))
  }

  /** The windows tried, longest first. */
  function Windows(all: nat, t: Thresholds): seq<nat> { [all, 16, 8, t.beaconMinSamples] }

  predicate Tried(w: nat, all: nat, t: Thresholds) { w in Windows(all, t) && t.beaconMinSamples <= w <= all }

  function WindowPeriod(all: seq<int>, w: nat, t: Thresholds): Option<nat>
    requires t.beaconMinSamples >= 1
  {
    if w > |all| || w < t.beaconMinSamples then None else RegularPeriod(all[|all| - w..], t)
  }

  function FirstSome(xs: seq<Option<nat>>): Option<nat> {
    if xs == [] then None else if xs[0].Some? then xs[0] else FirstSome(xs[1..])
  }

  function Periods(all: seq<int>, t: Thresholds): (r: seq<Option<nat>>)
    requires t.beaconMinSamples >= 1
    ensures |r| == 4
  {
    var ws := Windows(|all|, t);
    seq(4, i requires 0 <= i < 4 => WindowPeriod(all, ws[i], t))
  }

  /** The period of the first window that has one. */
  function FirstPeriod(all: seq<int>, t: Thresholds): Option<nat>
    requires t.beaconMinSamples >= 1
  {
    FirstSome(Periods(all, t))
  }

  lemma {:induction false} FirstSomeFinds(xs: seq<Option<nat>>)
    ensures FirstSome(xs).Some? <==> exists i | 0 <= i < |xs| :: xs[i].Some?
    ensures FirstSome(xs).Some? ==> FirstSome(xs) in xs
    ensures xs != [] && xs[0].Some? ==> FirstSome(xs) == xs[0]
  {
    if xs != [] {
      FirstSomeFinds(xs[1..]);
      if exists i | 0 <= i < |xs| :: xs[i].Some? {
        var i :| 0 <= i < |xs| && xs[i].Some?;
        assert i == 0 || xs[1..][i - 1].Some?;
      }
    }
  }

  // ----- the table of names -----

  function Evicted(recent: map<string, seq<int>>, name: string, ts: int): map<string, seq<int>> {
    if |recent| >= MAX_NAMES_PER_DEVICE && name !in recent
    then map k | k in recent && recent[k] != [] && Last(recent[k]) >= ts - 2 * Calendar.HOUR_MS :: recent[k]
    else recent
  }

  function Folded(times: seq<int>, ts: int): seq<int> {
    if times != [] && SameContact(Last(times), ts) then times else LastN(times + [ts], BEACON_WINDOW)
  }

  function Asked(recent: map<string, seq<int>>, name: string, ts: int): map<string, seq<int>> {
    var kept := Evicted(recent, name, ts);
    kept[name := Folded(if name in kept then kept[name] else [], ts)]
  }

  /** Tries the windows in turn. */
  method TryWindows(times: seq<int>, t: Thresholds) returns (period: Option<nat>)
    requires t.beaconMinSamples >= 1
    ensures period == FirstPeriod(times, t)
  {
    var ws := Windows(|times|, t);
    ghost var ps := Periods(times, t);
    for i := 0 to 4
      invariant FirstSome(ps) == FirstSome(ps[i..])
    {
      assert ps[i..][1..] == ps[i + 1..];
      if ws[i] > |times| || ws[i] < t.beaconMinSamples {
        continue;
      }
      period := RegularPeriod(times[|times| - ws[i]..], t);
      if period.Some? {
        return;
      }
    }
    period := None;
  }

  /** Pops from the front what does not fit the window. */
  method Trim(times: seq<int>) returns (r: seq<int>)
    ensures r == LastN(times, BEACON_WINDOW)
  {
    r := times;
    while |r| > BEACON_WINDOW
      invariant |r| <= |times| && r == times[|times| - |r|..] && LastN(r, BEACON_WINDOW) == LastN(times, BEACON_WINDOW)
    {
      r := r[1..];
    }
  }

  class Names {
    var recent: map<string, seq<int>>

    /** Records a query and says the beacon period in minutes, if its recent contacts are regular. */
    method Ask(name: string, ts: int, t: Thresholds) returns (period: Option<nat>)
      requires t.beaconMinSamples >= 1
      modifies this
      ensures recent == Asked(old(recent), name, ts)
      ensures period == Answer(old(recent), name, ts, t)
    {
      if |recent| >= MAX_NAMES_PER_DEVICE && name !in recent {
        var cutoff := ts - 2 * Calendar.HOUR_MS;
        recent := map k | k in recent && recent[k] != [] && Last(recent[k]) >= cutoff :: recent[k];
      }
      var times := if name in recent then recent[name] else [];
      if times != [] && SameContact(Last(times), ts) {
        assert recent[name := times] == recent;
        return None;
      }
      times := Trim(times + [ts]);
      recent := recent[name := times];
      period := TryWindows(times, t);
    }
  }

  /** What one query answers: nothing while it is the same contact, else the first regular window's period. */
  function Answer(recent: map<string, seq<int>>, name: string, ts: int, t: Thresholds): Option<nat>
    requires t.beaconMinSamples >= 1
  {
    var kept := Evicted(recent, name, ts);
    if name in kept && kept[name] != [] && SameContact(Last(kept[name]), ts) then None
    else
      var times := Asked(recent, name, ts)[name];
      FirstPeriod(times, t)
  }

  // ----- the window against the whole history of a name -----

  datatype Query = Query(name: string, ts: int)

  /** The table after a run of queries. */
  function TableAfter(qs: seq<Query>): map<string, seq<int>> {
    if qs == [] then map[]
    else
      var q := qs[|qs| - 1];
      Asked(TableAfter(qs[..|qs| - 1]), q.name, q.ts)
  }

  function TimesOf(qs: seq<Query>, name: string): seq<int> {
    if qs == [] then []
    else
      var q := qs[|qs| - 1];
      TimesOf(qs[..|qs| - 1], name) + (if q.name == name then [q.ts] else [])
  }

  /** The eviction of old names never took this one out. */
  predicate NeverDropped(qs: seq<Query>, name: string) {
    forall i | 0 <= i < |qs| :: name in TableAfter(qs[..i]) ==> name in TableAfter(qs[..i + 1])
  }

  lemma NeverDroppedBefore(qs: seq<Query>, name: string)
    requires qs != [] && NeverDropped(qs, name)
    ensures NeverDropped(qs[..|qs| - 1], name)
  {
    var p := qs[..|qs| - 1];
    forall i | 0 <= i < |p| ensures name in TableAfter(p[..i]) ==> name in TableAfter(p[..i + 1]) {
      assert p[..i] == qs[..i] && p[..i + 1] == qs[..i + 1];
    }
  }

  /** What a name keeps is the last 64 contacts of everything ever asked of it, for any clock. */
  lemma {:induction false} WindowIsLastContacts(qs: seq<Query>, name: string)
    requires NeverDropped(qs, name)
    ensures name in TableAfter(qs) <==> TimesOf(qs, name) != []
    ensures name in TableAfter(qs) ==> TableAfter(qs)[name] == LastN(Contacts(TimesOf(qs, name)), BEACON_WINDOW)
  {
    if qs != [] {
      var k := |qs| - 1;
      NeverDroppedBefore(qs, name);
      WindowIsLastContacts(qs[..k], name);
      assert qs[..k + 1] == qs;
      if qs[k].name == name {
        OneMoreContact(TableAfter(qs[..k]), name, qs[k].ts, TimesOf(qs[..k], name));
      } else {
        assert TimesOf(qs, name) == TimesOf(qs[..k], name);
      }
    }
  }

  lemma OneMoreContact(recent: map<string, seq<int>>, name: string, ts: int, times: seq<int>)
    requires name in recent <==> times != []
    requires name in recent ==> recent[name] == LastN(Contacts(times), BEACON_WINDOW)
    ensures Asked(recent, name, ts)[name] == LastN(Contacts(times + [ts]), BEACON_WINDOW)
  {
    assert (times + [ts])[..|times|] == times;
    FoldIsContact(Contacts(times), ts);
    if times == [] {
      assert name !in Evicted(recent, name, ts) && Contacts(times) == [];
    }
  }

  lemma FoldIsContact(c: seq<int>, ts: int)
    ensures Folded(LastN(c, BEACON_WINDOW), ts)
         == LastN(if c != [] && SameContact(Last(c), ts) then c else c + [ts], BEACON_WINDOW)
  {
  }

  /** Contacts are at least two seconds apart, so the median of any window of them is too. */
  lemma MedianOfContacts(c: seq<int>)
    requires |c| >= 2 && forall i | 0 <= i < |c| - 1 :: c[i + 1] - c[i] >= SAME_CONTACT_MS
    ensures MedianOfSorted(SortInts(Intervals(c))).Some?
         && MedianOfSorted(SortInts(Intervals(c))).value >= SAME_CONTACT_MS
  {
    var s := SortInts(Intervals(c));
    SameElements(Intervals(c));
    assert s[|s| / 2] in s;
    assert s[|s| / 2] in Intervals(c);
  }

  // ----- what a reported period means -----

  function Sum(s: seq<int>): int {
    if s == [] then 0 else Sum(s[..|s| - 1]) + s[|s| - 1]
  }

  lemma {:induction false} SpanIsSum(times: seq<int>)
    requires times != []
    ensures Sum(Intervals(times)) == Last(times) - times[0]
  {
    if |times| > 1 {
      var k := |times| - 1;
      SpanIsSum(times[..k]);
      assert Intervals(times)[..k - 1] == Intervals(times[..k]);
    }
  }

  lemma {:induction false} SumBetween(s: seq<int>, lo: int, hi: int)
    requires forall i | 0 <= i < |s| :: lo <= s[i] <= hi
    ensures |s| * lo <= Sum(s) <= |s| * hi
  {
    if s != [] {
      var k := |s| - 1;
      SumBetween(s[..k], lo, hi);
      assert (k + 1) * lo == k * lo + lo;
      assert (k + 1) * hi == k * hi + hi;
    }
  }

  lemma SpanNear(times: seq<int>, m: int, tol: int)
    requires times != [] && forall i | 0 <= i < |times| - 1 :: Abs(Intervals(times)[i] - m) <= tol
    ensures Abs(Last(times) - times[0] - (|times| - 1) * m) <= (|times| - 1) * tol
  {
    SpanIsSum(times);
    SumBetween(Intervals(times), m - tol, m + tol);
    var k := |times| - 1;
    assert k * (m - tol) == k * m - k * tol && k * (m + tol) == k * m + k * tol;
  }

  /** A period comes from contacts that keep to it: rounded median, and a span it accounts for. */
  lemma PeriodIsRegular(times: seq<int>, t: Thresholds)
    requires t.beaconMinSamples >= 1 && RegularPeriod(times, t).Some?
    ensures exists median: int ::
      && median > 0 && median in Intervals(times)
      && RegularPeriod(times, t) == Some(Minutes(median))
      && Last(times) - times[0] >= t.beaconMinSpanMs
      && Abs(Last(times) - times[0] - (|times| - 1) * median) <= (|times| - 1) * Tolerance(median, t)
  {
    var iv := Intervals(times);
    var s := SortInts(iv);
    var median := s[|s| / 2];
    SameElements(iv);
    assert median in s;
    forall i | 0 <= i < |iv| ensures Abs(iv[i] - median) <= Tolerance(median, t) {
      assert iv[i] in s;
      var j :| 0 <= j < |s| && s[j] == iv[i];
    }
    SpanNear(times, median, Tolerance(median, t));
  }

  /** The period answered is the period of one of the windows tried. */
  lemma PeriodOfSomeWindow(all: seq<int>, t: Thresholds)
    requires t.beaconMinSamples >= 1 && FirstPeriod(all, t).Some?
    ensures exists w | w in Windows(|all|, t) ::
      t.beaconMinSamples <= w <= |all| && RegularPeriod(all[|all| - w..], t) == FirstPeriod(all, t)
  {
    var ps := Periods(all, t);
    FirstSomeFinds(ps);
    var i :| 0 <= i < |ps| && ps[i] == FirstSome(ps);
    assert Windows(|all|, t)[i] in Windows(|all|, t);
  }

  predicate Periodic(times: seq<int>, d: int) {
    forall i | 0 <= i < |times| - 1 :: times[i + 1] - times[i] == d
  }

  lemma PeriodicSorted(times: seq<int>, d: int)
    requires 2 <= |times| && Periodic(times, d)
    ensures var s := SortInts(Intervals(times));
            |s| == |times| - 1 && forall i | 0 <= i < |s| :: s[i] == d
    ensures Last(times) - times[0] == (|times| - 1) * d
  {
    var s := SortInts(Intervals(times));
    SameElements(Intervals(times));
    forall i | 0 <= i < |s| ensures s[i] == d { assert s[i] in s; }
    SpanNear(times, d, 0);
  }

  lemma PeriodicWindow(times: seq<int>, d: int, t: Thresholds)
    requires 2 <= |times| && 1 <= t.beaconMinSamples <= |times| && Periodic(times, d) && d > 0
    requires t.beaconTolerancePercent >= 0 && (|times| - 1) * d >= t.beaconMinSpanMs
    ensures RegularPeriod(times, t) == if Minutes(d) <= U32_MAX then Some(Minutes(d)) else None
  {
    PeriodicSorted(times, d);
    ToleranceNatural(d, t);
    var s := SortInts(Intervals(times));
    assert s[|s| / 2] == d;
  }

  lemma ToleranceNatural(d: int, t: Thresholds)
    requires d > 0 && t.beaconTolerancePercent >= 0
    ensures Tolerance(d, t) >= 0
  {
    assert d * t.beaconTolerancePercent >= 0;
  }

  /** An exactly periodic window among those tried, long enough, always gives a period. */
  lemma PeriodicIsReported(all: seq<int>, w: nat, d: int, t: Thresholds)
    requires t.beaconMinSamples >= 1 && 2 <= w && Tried(w, |all|, t)
    requires Periodic(all[|all| - w..], d) && d > 0 && Minutes(d) <= U32_MAX
    requires t.beaconTolerancePercent >= 0 && (w - 1) * d >= t.beaconMinSpanMs
    ensures FirstPeriod(all, t).Some?
    ensures w == |all| ==> FirstPeriod(all, t) == Some(Minutes(d))
  {
    var times := all[|all| - w..];
    assert |times| == w;
    PeriodicWindow(times, d, t);
    var ps := Periods(all, t);
    var i :| 0 <= i < 4 && Windows(|all|, t)[i] == w;
    assert ps[i] == WindowPeriod(all, w, t);
    assert w == |all| ==> ps[0] == WindowPeriod(all, w, t);
    FirstSomeFinds(ps);
  }

  /** So one query answers exactly what the whole series of its name does, folded and cut to 64 contacts. */
  lemma AnswerIsOfTheHistory(qs: seq<Query>, q: Query, t: Thresholds)
    requires t.beaconMinSamples >= 1 && NeverDropped(qs, q.name)
    ensures var before, after := Contacts(TimesOf(qs, q.name)), Contacts(TimesOf(qs + [q], q.name));
            Answer(TableAfter(qs), q.name, q.ts, t)
            == if after == before then None else FirstPeriod(LastN(after, BEACON_WINDOW), t)
  {
    var recent, times := TableAfter(qs), TimesOf(qs, q.name);
    WindowIsLastContacts(qs, q.name);
    OneMoreContact(recent, q.name, q.ts, times);
    assert (qs + [q])[..|qs|] == qs && (times + [q.ts])[..|times|] == times;
    assert TimesOf(qs + [q], q.name) == times + [q.ts];
    assert q.name in Evicted(recent, q.name, q.ts) <==> q.name in recent;
    if times != [] {
      assert Last(LastN(Contacts(times), BEACON_WINDOW)) == Last(Contacts(times));
    }
  }
}
