/**
  The timestamp preprocessor: find every `YYYY-MM-DD HH:MM:SS` in pasted
  text, parse each into an instant, sort the instants, take the gaps between
  consecutive instants in hours, and keep the plausible gaps (strictly
  between one week and three and a half Julian years) rounded to whole hours.
  Instants are whole seconds since 0001-01-01 00:00:00 (proleptic Gregorian).
 */
module Timestamps {
  import opened Wrappers
  import opened Rounding

  // ---------------------------------------------------------------------
  // Finding the timestamps: re.findall(r'\d{4}-\d{2}-\d{2} \d{2}:\d{2}:\d{2}', text)

  const Width: nat := 19

  predicate IsDigit(c: char) {
    '0' <= c <= '9'
  }

  /** n decimal digits start at position i of s. */
  predicate DigitsAt(s: string, i: nat, n: nat)
    requires i + n <= |s|
  {
    forall k :: i <= k < i + n ==> IsDigit(s[k])
  }

  /** The pattern matches the 19 characters of s starting at i. */
  predicate ShapeAt(s: string, i: nat) {
    && i + Width <= |s|
    && DigitsAt(s, i, 4) && s[i + 4] == '-'
    && DigitsAt(s, i + 5, 2) && s[i + 7] == '-'
    && DigitsAt(s, i + 8, 2) && s[i + 10] == ' '
    && DigitsAt(s, i + 11, 2) && s[i + 13] == ':'
    && DigitsAt(s, i + 14, 2) && s[i + 16] == ':'
    && DigitsAt(s, i + 17, 2)
  }

  /** A match, cut out of the text, matches on its own. */
  lemma ShapeCut(s: string, p: nat)
    requires ShapeAt(s, p)
    ensures ShapeAt(s[p..p + Width], 0)
  {
    var t := s[p..p + Width];
    assert forall k :: 0 <= k < Width ==> t[k] == s[p + k];
  }

  /**
    The start positions of the matches findall reports when it scans from i:
    left to right, and after each match it resumes right behind it.
   */
  function MatchesFrom(s: string, i: nat): (ps: seq<nat>)
    decreases |s| - i
  {
    if i + Width > |s| then []
    else if ShapeAt(s, i) then [i] + MatchesFrom(s, i + Width)
    else MatchesFrom(s, i + 1)
  }

  /** Every reported position is a match at or after i. */
  lemma {:induction false} MatchesSound(s: string, i: nat)
    ensures forall k :: 0 <= k < |MatchesFrom(s, i)| ==> i <= MatchesFrom(s, i)[k] && ShapeAt(s, MatchesFrom(s, i)[k])
    decreases |s| - i
  {
    if i + Width <= |s| {
      var ps := MatchesFrom(s, i);
      if ShapeAt(s, i) {
        var qs := MatchesFrom(s, i + Width);
        MatchesSound(s, i + Width);
        assert ps == [i] + qs;
        forall k | 0 < k < |ps|
          ensures i <= ps[k] && ShapeAt(s, ps[k])
        {
          assert ps[k] == qs[k - 1];
        }
      } else {
        MatchesSound(s, i + 1);
      }
    }
  }

  /** Reported matches do not overlap: each starts at least 19 characters after the one before. */
  lemma {:induction false} MatchesApart(s: string, i: nat)
    ensures forall k :: 0 <= k < |MatchesFrom(s, i)| ==> i <= MatchesFrom(s, i)[k]
    ensures forall k :: 0 <= k < |MatchesFrom(s, i)| - 1 ==> MatchesFrom(s, i)[k] + Width <= MatchesFrom(s, i)[k + 1]
    decreases |s| - i
  {
    if i + Width <= |s| {
      var ps := MatchesFrom(s, i);
      if ShapeAt(s, i) {
        var qs := MatchesFrom(s, i + Width);
        MatchesApart(s, i + Width);
        assert ps == [i] + qs;
        forall k | 0 < k < |ps|
          ensures i + Width <= ps[k]
        {
          assert ps[k] == qs[k - 1];
        }
        forall k | 0 <= k < |ps| - 1
          ensures ps[k] + Width <= ps[k + 1]
        {
          assert ps[k + 1] == qs[k];
          if k > 0 {
            assert ps[k] == qs[k - 1];
          }
        }
      } else {
        MatchesApart(s, i + 1);
      }
    }
  }

  /**
    Every place where the pattern matches at or after i is reported or
    overlaps a reported match that starts no later: findall is greedy.
   */
  lemma {:induction false} MatchesCover(s: string, i: nat, p: nat)
    requires i <= p && ShapeAt(s, p)
    ensures exists k :: 0 <= k < |MatchesFrom(s, i)| && MatchesFrom(s, i)[k] <= p < MatchesFrom(s, i)[k] + Width
    decreases |s| - i
  {
    var ps := MatchesFrom(s, i);
    if ShapeAt(s, i) {
      var qs := MatchesFrom(s, i + Width);
      assert ps == [i] + qs;
      if p < i + Width {
        assert 0 < |ps| && ps[0] <= p < ps[0] + Width;
      } else {
        MatchesCover(s, i + Width, p);
        var k :| 0 <= k < |qs| && qs[k] <= p < qs[k] + Width;
        assert k + 1 < |ps| && ps[k + 1] <= p < ps[k + 1] + Width;
      }
    } else {
      assert p != i && ps == MatchesFrom(s, i + 1);
      MatchesCover(s, i + 1, p);
      var k :| 0 <= k < |ps| && ps[k] <= p < ps[k] + Width;
    }
  }

  /** `re.findall(...)`: the matched substrings, in order. */
  function FindAll(s: string): (found: seq<string>)
    ensures |found| == |MatchesFrom(s, 0)|
    ensures forall k :: 0 <= k < |found| ==> |found[k]| == Width && ShapeAt(found[k], 0)
    ensures forall k :: 0 <= k < |found| ==>
      MatchesFrom(s, 0)[k] + Width <= |s| && found[k] == s[MatchesFrom(s, 0)[k]..MatchesFrom(s, 0)[k] + Width]
  {
    var ps := MatchesFrom(s, 0);
    MatchesSound(s, 0);
    forall k | 0 <= k < |ps| ensures ShapeAt(s[ps[k]..ps[k] + Width], 0) {
      ShapeCut(s, ps[k]);
    }
    seq(|ps|, k requires 0 <= k < |ps| => s[ps[k]..ps[k] + Width])
  }

  /** findall finds nothing exactly when the pattern matches nowhere. */
  lemma FindAllEmpty(s: string)
    ensures FindAll(s) == [] <==> forall p: nat :: p < |s| ==> !ShapeAt(s, p)
  {
    var ps := MatchesFrom(s, 0);
    if ps != [] {
      MatchesSound(s, 0);
      assert ShapeAt(s, ps[0]) && ps[0] < |s|;
    } else {
      forall p: nat | p < |s| ensures !ShapeAt(s, p) {
        if ShapeAt(s, p) {
          MatchesCover(s, 0, p);
        }
      }
    }
  }

  // ---------------------------------------------------------------------
  // Parsing one timestamp: datetime.strptime(ds, '%Y-%m-%d %H:%M:%S')

  datatype DateTime = DateTime(year: int, month: int, day: int, hour: int, minute: int, second: int)

  /** The value of a string of decimal digits. */
  function Number(s: string): (n: nat)
    requires forall k :: 0 <= k < |s| ==> IsDigit(s[k])
  {
    if s == [] then 0
    else
      assert IsDigit(s[|s| - 1]);
      Number(s[..|s| - 1]) * 10 + (s[|s| - 1] as int - '0' as int)
  }

  /** The six fields of a string of the fixed shape. */
  function Fields(ts: string): DateTime
    requires ShapeAt(ts, 0)
  {
    DateTime(Number(ts[0..4]), Number(ts[5..7]), Number(ts[8..10]),
             Number(ts[11..13]), Number(ts[14..16]), Number(ts[17..19]))
  }

  predicate IsLeap(y: int) {
    y % 4 == 0 && (y % 100 != 0 || y % 400 == 0)
  }

  function DaysInMonth(y: int, m: int): int
    requires 1 <= m <= 12
  {
    if m == 2 then (if IsLeap(y) then 29 else 28)
    else if m == 4 || m == 6 || m == 9 || m == 11 then 30
    else 31
  }

  /**
    What strptime and the datetime constructor accept: years 1 to 9999, a
    real calendar day, hours below 24, minutes and seconds below 60 (the
    format admits seconds 60 and 61, which the constructor then rejects).
   */
  predicate ValidDateTime(d: DateTime) {
    && 1 <= d.year <= 9999
    && 1 <= d.month <= 12
    && 1 <= d.day <= DaysInMonth(d.year, d.month)
    && 0 <= d.hour < 24
    && 0 <= d.minute < 60
    && 0 <= d.second < 60
  }

  function DaysBeforeYear(y: int): int
    requires y >= 1
  {
    var p := y - 1;
    p * 365 + p / 4 - p / 100 + p / 400
  }

  function DaysBeforeMonth(y: int, m: int): int
    requires 1 <= m <= 12
  {
    var cumulative := [0, 31, 59, 90, 120, 151, 181, 212, 243, 273, 304, 334];
    cumulative[m - 1] + (if m > 2 && IsLeap(y) then 1 else 0)
  }

  /** Seconds since 0001-01-01 00:00:00 of a valid date and time. */
  function ToSeconds(d: DateTime): int
    requires ValidDateTime(d)
  {
    var days := DaysBeforeYear(d.year) + DaysBeforeMonth(d.year, d.month) + d.day - 1;
    ((days * 24 + d.hour) * 60 + d.minute) * 60 + d.second
  }

  /** The calendar order of date-times: by year, then month, day, hour, minute, second. */
  predicate Before(a: DateTime, b: DateTime) {
    if a.year != b.year then a.year < b.year
    else if a.month != b.month then a.month < b.month
    else if a.day != b.day then a.day < b.day
    else if a.hour != b.hour then a.hour < b.hour
    else if a.minute != b.minute then a.minute < b.minute
    else a.second < b.second
  }

  /** Days since 0001-01-01 of a valid date. */
  function DayNumber(d: DateTime): int
    requires ValidDateTime(d)
  {
    DaysBeforeYear(d.year) + DaysBeforeMonth(d.year, d.month) + d.day - 1
  }

  /** A month ends where the next one begins. */
  lemma MonthStep(y: int, m: int)
    requires 1 <= m < 12
    ensures DaysBeforeMonth(y, m) + DaysInMonth(y, m) == DaysBeforeMonth(y, m + 1)
  {
  }

  /** A month ends no later than any later month begins. */
  lemma {:induction false} MonthEnd(y: int, m: int, m': int)
    requires 1 <= m < m' <= 12
    ensures DaysBeforeMonth(y, m) + DaysInMonth(y, m) <= DaysBeforeMonth(y, m')
    decreases m' - m
  {
    MonthStep(y, m);
    if m + 1 < m' {
      MonthEnd(y, m + 1, m');
    }
  }

  /** A year has 365 days, 366 in a leap year. */
  lemma YearStep(y: int)
    requires y >= 1
    ensures DaysBeforeYear(y + 1) == DaysBeforeYear(y) + (if IsLeap(y) then 366 else 365)
  {
    var p := y - 1;
    assert (p + 1) / 4 - p / 4 == (if y % 4 == 0 then 1 else 0);
    assert (p + 1) / 100 - p / 100 == (if y % 100 == 0 then 1 else 0);
    assert (p + 1) / 400 - p / 400 == (if y % 400 == 0 then 1 else 0);
  }

  /** Every day of year y comes before the first day of any later year. */
  lemma {:induction false} YearEnd(y: int, y': int)
    requires 1 <= y < y'
    ensures DaysBeforeYear(y) + (if IsLeap(y) then 366 else 365) <= DaysBeforeYear(y')
    decreases y' - y
  {
    YearStep(y);
    if y + 1 < y' {
      YearEnd(y + 1, y');
      YearStep(y + 1);
    }
  }

  /** A valid date lies inside its year. */
  lemma InsideYear(d: DateTime)
    requires ValidDateTime(d)
    ensures DayNumber(d) < DaysBeforeYear(d.year) + (if IsLeap(d.year) then 366 else 365)
  {
    if d.month < 12 {
      MonthEnd(d.year, d.month, 12);
    }
  }

  /** Earlier dates have smaller day numbers. */
  lemma DayNumberOrder(a: DateTime, b: DateTime)
    requires ValidDateTime(a) && ValidDateTime(b)
    requires a.year < b.year || (a.year == b.year && (a.month < b.month || (a.month == b.month && a.day < b.day)))
    ensures DayNumber(a) < DayNumber(b)
  {
    if a.year < b.year {
      InsideYear(a);
      YearEnd(a.year, b.year);
    } else if a.month < b.month {
      MonthEnd(a.year, a.month, b.month);
    }
  }

  /** Instants keep the calendar order, so sorting the instants sorts the date-times. */
  lemma ToSecondsOrder(a: DateTime, b: DateTime)
    requires ValidDateTime(a) && ValidDateTime(b) && Before(a, b)
    ensures ToSeconds(a) < ToSeconds(b)
  {
    assert ToSeconds(a) == DayNumber(a) * 86400 + (a.hour * 60 + a.minute) * 60 + a.second;
    assert ToSeconds(b) == DayNumber(b) * 86400 + (b.hour * 60 + b.minute) * 60 + b.second;
    if a.year != b.year || a.month != b.month || a.day != b.day {
      DayNumberOrder(a, b);
    }
  }

  /** The same time of day on the next calendar day; the year 9999 has no next year. */
  function NextDay(d: DateTime): DateTime
    requires ValidDateTime(d)
  {
    if d.day < DaysInMonth(d.year, d.month) then d.(day := d.day + 1)
    else if d.month < 12 then d.(month := d.month + 1, day := 1)
    else d.(year := d.year + 1, month := 1, day := 1)
  }

  /**
    Consecutive calendar days, across month and year ends and leap days, are
    86400 seconds apart, so the difference of two instants is the timedelta
    between the date-times, in seconds.
   */
  lemma NextDayGap(d: DateTime)
    requires ValidDateTime(d) && d.year < 9999
    ensures ValidDateTime(NextDay(d)) && Before(d, NextDay(d))
    ensures ToSeconds(NextDay(d)) == ToSeconds(d) + 86400
  {
    var e := NextDay(d);
    assert ToSeconds(d) == DayNumber(d) * 86400 + (d.hour * 60 + d.minute) * 60 + d.second;
    assert ToSeconds(e) == DayNumber(e) * 86400 + (e.hour * 60 + e.minute) * 60 + e.second;
    if d.day == DaysInMonth(d.year, d.month) {
      if d.month < 12 {
        MonthStep(d.year, d.month);
      } else {
        YearStep(d.year);
      }
    }
  }

  /** 2024 is a leap year: from 28 February to 1 March is two days. */
  lemma LeapDayGap()
    ensures ToSeconds(DateTime(2024, 3, 1, 0, 0, 0)) - ToSeconds(DateTime(2024, 2, 28, 0, 0, 0)) == 2 * 86400
  {
  }

  /** `datetime.strptime(ts, '%Y-%m-%d %H:%M:%S')`; None where it raises ValueError. */
  function ParseTimestamp(ts: string): (r: Option<int>)
    ensures r.Some? <==> |ts| == Width && ShapeAt(ts, 0) && ValidDateTime(Fields(ts))
  {
    if |ts| == Width && ShapeAt(ts, 0) && ValidDateTime(Fields(ts)) then Some(ToSeconds(Fields(ts)))
    else None
  }

  /** The list comprehension over all found strings; None if any of them raises. */
  function ParseAll(ds: seq<string>): (r: Option<seq<int>>)
    ensures r.Some? <==> forall k :: 0 <= k < |ds| ==> ParseTimestamp(ds[k]).Some?
    ensures r.Some? ==> |r.value| == |ds|
    ensures r.Some? ==> forall k :: 0 <= k < |ds| ==> r.value[k] == ParseTimestamp(ds[k]).value
  {
    if ds == [] then Some([])
    else
      match (ParseTimestamp(ds[0]), ParseAll(ds[1..]))
      case (Some(t), Some(rest)) => Some([t] + rest)
      case _ => None
  }

  // ---------------------------------------------------------------------
  // Sorting the instants: datetimes.sort()

  predicate Sorted(s: seq<int>) {
    forall i, j :: 0 <= i < j < |s| ==> s[i] <= s[j]
  }

  function Insert(x: int, s: seq<int>): (r: seq<int>)
    requires Sorted(s)
    ensures Sorted(r) && multiset(r) == multiset(s) + multiset{x}
  {
    if s == [] || x <= s[0] then [x] + s
    else
      var rest := Insert(x, s[1..]);
      assert s == [s[0]] + s[1..];
      BoundedCons(s[0], rest, s[1..], x);
      [s[0]] + rest
  }

  /** Putting y in front of a permutation of t + [x] keeps it sorted when y is below all of them. */
  lemma BoundedCons(y: int, r: seq<int>, t: seq<int>, x: int)
    requires Sorted([y] + t) && y < x
    requires Sorted(r) && multiset(r) == multiset(t) + multiset{x}
    ensures Sorted([y] + r)
  {
    forall k | 0 <= k < |r|
      ensures y <= r[k]
    {
      assert r[k] in multiset(r);
      if r[k] != x {
        assert r[k] in multiset(t);
        var i :| 0 <= i < |t| && t[i] == r[k];
        assert ([y] + t)[0] == y && ([y] + t)[i + 1] == t[i];
      }
    }
  }

  /** `list.sort()`: the ascending permutation. */
  function Sort(s: seq<int>): (r: seq<int>)
    ensures Sorted(r) && multiset(r) == multiset(s)
  {
    if s == [] then []
    else
      assert s == [s[0]] + s[1..];
      Insert(s[0], Sort(s[1..]))
  }

  /** A sorted sequence is determined by its elements. */
  lemma {:induction false} SortedUnique(a: seq<int>, b: seq<int>)
    requires Sorted(a) && Sorted(b) && multiset(a) == multiset(b)
    ensures a == b
  {
    assert |a| == |b| by { assert |multiset(a)| == |multiset(b)|; }
    if a != [] {
      SortedHeads(a, b);
      SameTails(a, b);
      SortedUnique(a[1..], b[1..]);
      assert a == [a[0]] + a[1..] && b == [b[0]] + b[1..];
    }
  }

  /** Taking away the same first element leaves the same elements. */
  lemma SameTails(a: seq<int>, b: seq<int>)
    requires a != [] && b != [] && a[0] == b[0] && multiset(a) == multiset(b)
    ensures multiset(a[1..]) == multiset(b[1..])
  {
    assert a == [a[0]] + a[1..] && b == [b[0]] + b[1..];
    assert multiset(a[1..]) == multiset(a) - multiset{a[0]};
    assert multiset(b[1..]) == multiset(b) - multiset{b[0]};
  }

  /** Two sorted sequences with the same elements start with the same one: their least. */
  lemma SortedHeads(a: seq<int>, b: seq<int>)
    requires Sorted(a) && Sorted(b) && multiset(a) == multiset(b) && a != [] && b != []
    ensures a[0] == b[0]
  {
    assert a[0] in multiset(b) && b[0] in multiset(a);
    var i :| 0 <= i < |b| && b[i] == a[0];
    var j :| 0 <= j < |a| && a[j] == b[0];
    assert b[0] <= b[i] && a[0] <= a[j];
  }

  /** Sorting forgets the order the instants were pasted in. */
  lemma SortOrderIndependent(a: seq<int>, b: seq<int>)
    requires multiset(a) == multiset(b)
    ensures Sort(a) == Sort(b)
  {
    SortedUnique(Sort(a), Sort(b));
  }

  // ---------------------------------------------------------------------
  // Gaps between consecutive instants, in hours

  const SecondsPerHour: real := 3600.0

  /** The gap, in hours, from each instant to the next. */
  function Deltas(ts: seq<int>): (hs: seq<real>)
  {
    if |ts| < 2 then []
    else seq(|ts| - 1, i requires 0 <= i < |ts| - 1 => (ts[i + 1] - ts[i]) as real / SecondsPerHour)
  }

  /** After sorting, no gap is negative. */
  lemma DeltasNonNegative(ts: seq<int>)
    requires Sorted(ts)
    ensures forall i :: 0 <= i < |Deltas(ts)| ==> Deltas(ts)[i] >= 0.0
  {
  }

  function Sum(hs: seq<real>): real {
    if hs == [] then 0.0 else hs[0] + Sum(hs[1..])
  }

  /** The gaps add up to the time from the first instant to the last. */
  lemma {:induction false} DeltasTelescope(ts: seq<int>)
    requires |ts| >= 1
    ensures Sum(Deltas(ts)) == (ts[|ts| - 1] - ts[0]) as real / SecondsPerHour
  {
    if |ts| >= 2 {
      DeltasTelescope(ts[1..]);
      DeltasCons(ts);
    }
  }

  /** The first gap, then the gaps of the rest. */
  lemma DeltasCons(ts: seq<int>)
    requires |ts| >= 2
    ensures Deltas(ts) == [(ts[1] - ts[0]) as real / SecondsPerHour] + Deltas(ts[1..])
  {
    var a := Deltas(ts);
    var b := [(ts[1] - ts[0]) as real / SecondsPerHour] + Deltas(ts[1..]);
    assert |a| == |b|;
    forall i | 0 <= i < |a|
      ensures a[i] == b[i]
    {
      if i > 0 {
        assert b[i] == Deltas(ts[1..])[i - 1];
        assert ts[1..][i - 1] == ts[i] && ts[1..][i] == ts[i + 1];
      }
    }
  }

  /** The loop of the source that builds the list of gaps. */
  method HourDeltas(ts: seq<int>) returns (hours: seq<real>)
    ensures hours == Deltas(ts)
  {
    hours := [];
    var i := 1;
    while i < |ts|
      invariant 1 <= i <= |ts| || (|ts| == 0 && i == 1)
      invariant |hours| == i - 1
      invariant forall k :: 0 <= k < i - 1 ==> hours[k] == (ts[k + 1] - ts[k]) as real / SecondsPerHour
    {
      var delta := ts[i] - ts[i - 1];
      hours := hours + [delta as real / SecondsPerHour];
      i := i + 1;
    }
  }

  // ---------------------------------------------------------------------
  // Keeping the plausible gaps

  /** TTF_MIN_HOURS = 1 * 7 * 24: one week. */
  const TtfMinHours: real := (1 * 7 * 24) as real
  /** TTF_MAX_HOURS = 3.5 * 365.25 * 24: three and a half Julian years. */
  const TtfMaxHours: real := 3.5 * 365.25 * 24.0

  lemma BandLimits()
    ensures TtfMinHours == 168.0 && TtfMaxHours == 30681.0
  {
  }

  predicate Plausible(h: real) {
    TtfMinHours < h < TtfMaxHours
  }

  /** No gap lies inside the plausibility band. */
  predicate NonePlausible(hs: seq<real>) {
    forall k :: 0 <= k < |hs| ==> !Plausible(hs[k])
  }

  /** `[int(round(h, 0)) for h in hours if TTF_MIN_HOURS < h < TTF_MAX_HOURS]` */
  function Retained(hs: seq<real>): (r: seq<int>)
    ensures |r| <= |hs|
    ensures forall k :: 0 <= k < |r| ==> 168 <= r[k] <= 30681
    ensures r == [] <==> forall k :: 0 <= k < |hs| ==> !Plausible(hs[k])
  {
    if hs == [] then []
    else
      var rest := Retained(hs[1..]);
      assert forall k :: 1 <= k < |hs| ==> hs[k] == hs[1..][k - 1];
      if Plausible(hs[0]) then [RoundHalfEven(hs[0])] + rest else rest
  }

  /** Filtering keeps the order: it works piece by piece. */
  lemma {:induction false} RetainedAppend(a: seq<real>, b: seq<real>)
    ensures Retained(a + b) == Retained(a) + Retained(b)
  {
    if a != [] {
      var ab := a + b;
      assert ab[0] == a[0] && ab[1..] == a[1..] + b;
      RetainedAppend(a[1..], b);
      RetainedCons(ab);
      RetainedCons(a);
    } else {
      assert a + b == b;
    }
  }

  /** The first gap, kept or not, then the rest. */
  lemma RetainedCons(hs: seq<real>)
    requires hs != []
    ensures Retained(hs) == (if Plausible(hs[0]) then [RoundHalfEven(hs[0])] else []) + Retained(hs[1..])
  {
  }

  /** A gap inside the band is kept, rounded, in its place. */
  lemma {:induction false} RetainedAllPlausible(hs: seq<real>)
    requires forall k :: 0 <= k < |hs| ==> Plausible(hs[k])
    ensures |Retained(hs)| == |hs|
    ensures forall k :: 0 <= k < |hs| ==> Retained(hs)[k] == RoundHalfEven(hs[k])
  {
    if hs != [] {
      RetainedAllPlausible(hs[1..]);
    }
  }

  // ---------------------------------------------------------------------
  // The whole preprocessing step

  datatype PreprocessError =
    | InsufficientData      // fewer than two timestamps found
    | MalformedTimestamp    // a match that strptime rejects (an uncaught ValueError)
    | NoPlausibleFailures   // no gap inside the plausibility band

  /** What the step hands on: the kept whole-hour gaps and the sorted instants. */
  datatype Prepared = Prepared(failures: seq<int>, instants: seq<int>)

  /** Sort the instants, take the gaps, keep the plausible ones. */
  function FromInstants(instants: seq<int>): (r: Result<Prepared, PreprocessError>)
    ensures r.Err? ==> r.error == NoPlausibleFailures
    ensures r.Err? <==> NonePlausible(Deltas(Sort(instants)))
    ensures r.Ok? ==> r.value.failures == Retained(Deltas(r.value.instants))
    ensures r.Ok? ==>
      && Sorted(r.value.instants)
      && multiset(r.value.instants) == multiset(instants)
      && |r.value.instants| == |instants|
      && 1 <= |r.value.failures| < |instants|
      && forall k :: 0 <= k < |r.value.failures| ==> 168 <= r.value.failures[k] <= 30681
  {
    var sorted := Sort(instants);
    assert |sorted| == |instants| by { assert |multiset(sorted)| == |multiset(instants)|; }
    var kept := Retained(Deltas(sorted));
    if kept == [] then Err(NoPlausibleFailures) else Ok(Prepared(kept, sorted))
  }

  /** The whole preprocessing of the pasted text. */
  function Prepare(raw: string): (r: Result<Prepared, PreprocessError>)
    ensures r == Err(InsufficientData) <==> |FindAll(raw)| < 2
    ensures r == Err(MalformedTimestamp) <==>
      |FindAll(raw)| >= 2 && exists k :: 0 <= k < |FindAll(raw)| && ParseTimestamp(FindAll(raw)[k]).None?
    ensures r == Err(NoPlausibleFailures) <==>
      && |FindAll(raw)| >= 2 && ParseAll(FindAll(raw)).Some?
      && NonePlausible(Deltas(Sort(ParseAll(FindAll(raw)).value)))
    ensures r.Ok? ==>
      && ParseAll(FindAll(raw)).Some?
      && Sorted(r.value.instants)
      && multiset(r.value.instants) == multiset(ParseAll(FindAll(raw)).value)
      && r.value.failures == Retained(Deltas(r.value.instants))
      && |r.value.instants| == |FindAll(raw)|
      && 1 <= |r.value.failures| < |r.value.instants|
      && forall k :: 0 <= k < |r.value.failures| ==> 168 <= r.value.failures[k] <= 30681
  {
    var found := FindAll(raw);
    if |found| < 2 then Err(InsufficientData)
    else
      match ParseAll(found)
      case None => Err(MalformedTimestamp)
      case Some(instants) => FromInstants(instants)
  }

  /**
    Two pastes holding the same instants, in whatever order and amid
    whatever other text, are preprocessed alike.
   */
  lemma PrepareOrderIndependent(raw1: string, raw2: string, a: seq<int>, b: seq<int>)
    requires ParseAll(FindAll(raw1)) == Some(a) && ParseAll(FindAll(raw2)) == Some(b)
    requires multiset(a) == multiset(b)
    ensures Prepare(raw1) == Prepare(raw2)
  {
    assert |a| == |b| by { assert |multiset(a)| == |multiset(b)|; }
    SortOrderIndependent(a, b);
    assert FromInstants(a) == FromInstants(b);
  }
}
