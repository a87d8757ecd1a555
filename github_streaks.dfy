/** The two streak scans of the GitHub statistics handler
    (app/api/github/route.ts). The calendar arrives as weeks of days and is
    flattened into one sequence of days; the reference date `today` is the
    caller's `YYYY-MM-DD` string (the handler takes it from the wall clock). */
module GithubStreaks {

  /** One day of the contribution calendar. */
  datatype Day = Day(date: string, count: int)

  /** One week of the calendar, as the upstream API groups it. */
  datatype Week = Week(days: seq<Day>)

  /** `weeks.flatMap(w => w.contributionDays)`: the days of every week, in order. */
  function Flatten(weeks: seq<Week>): seq<Day>
  {
    if weeks == [] then [] else Flatten(weeks[..|weeks| - 1]) + weeks[|weeks| - 1].days
  }

  // ---------------------------------------------------------------------
  // Date comparison

  /** JavaScript's `a < b` on strings: lexicographic by character. */
  predicate Before(a: string, b: string)
  {
    if a == [] then b != []
    else if b == [] then false
    else if a[0] != b[0] then a[0] < b[0]
    else Before(a[1..], b[1..])
  }

  /** `<` on strings is a strict total order: irreflexive, transitive, and
      total on distinct strings. */
  lemma {:induction false} BeforeIrreflexive(a: string)
    ensures !Before(a, a)
  {
    if a != [] { BeforeIrreflexive(a[1..]); }
  }

  lemma {:induction false} BeforeTransitive(a: string, b: string, c: string)
    requires Before(a, b) && Before(b, c)
    ensures Before(a, c)
  {
    if a != [] && b != [] && c != [] && a[0] == b[0] == c[0] {
      BeforeTransitive(a[1..], b[1..], c[1..]);
    }
  }

  lemma {:induction false} BeforeTotal(a: string, b: string)
    requires a != b
    ensures Before(a, b) || Before(b, a)
  {
    if a != [] && b != [] && a[0] == b[0] {
      assert a == [a[0]] + a[1..] && b == [b[0]] + b[1..];
      BeforeTotal(a[1..], b[1..]);
    }
  }

  /** `day.date > today`: the day lies after the reference date. */
  predicate IsFuture(d: Day, today: string)
  {
    Before(today, d.date)
  }

  /** Dates never decrease along the calendar. */
  predicate DatesAscending(days: seq<Day>)
  {
    forall i, j :: 0 <= i < j < |days| ==> !Before(days[j].date, days[i].date)
  }

  // ---------------------------------------------------------------------
  // Longest streak

  function Max(a: nat, b: nat): (m: nat)
    ensures m >= a && m >= b && (m == a || m == b)
  {
    if a > b then a else b
  }

  /** The `len` days from index `lo` on are all active (positive count). */
  ghost predicate ActiveRun(days: seq<Day>, lo: nat, len: nat)
  {
    lo + len <= |days| && forall k :: lo <= k < lo + len ==> days[k].count > 0
  }

  /** A run of active days cannot contain an idle day. */
  lemma RunAvoids(days: seq<Day>, lo: nat, len: nat, z: nat)
    requires ActiveRun(days, lo, len)
    requires z < |days| && days[z].count <= 0
    ensures lo + len <= z || z < lo
  {
  }

  /** `n` is the length of the longest run of consecutive active days:
      some run has that length and none is longer. */
  ghost predicate IsLongestRun(days: seq<Day>, n: nat)
  {
    && (exists lo: nat :: ActiveRun(days, lo, n))
    && (forall lo: nat, len: nat :: ActiveRun(days, lo, len) ==> len <= n)
  }

  /** The forward scan of route.ts:82-90: `temp` counts the active days
      since the last idle one; an idle day folds it into the maximum. */
  method LongestStreak(days: seq<Day>) returns (longest: nat)
    ensures IsLongestRun(days, longest)
    ensures longest <= |days|
  {
    longest := 0;
    var temp: nat := 0;
    ghost var bestLo: nat := 0;
    for i := 0 to |days|
      invariant temp <= i && ActiveRun(days, i - temp, temp)
      invariant i - temp == 0 || days[i - temp - 1].count <= 0
      invariant ActiveRun(days, bestLo, longest) && bestLo + longest <= i
      invariant forall lo: nat, len: nat :: lo + len <= i && ActiveRun(days, lo, len) ==> len <= Max(longest, temp)
    {
      if days[i].count > 0 {
        temp := temp + 1;
        forall lo: nat, len: nat | lo + len <= i + 1 && ActiveRun(days, lo, len)
          ensures len <= Max(longest, temp)
        {
          if i + 1 - temp > 0 {
            RunAvoids(days, lo, len, i - temp);
          }
        }
      } else {
        if temp > longest { bestLo := i - temp; }
        longest := Max(longest, temp);
        temp := 0;
        forall lo: nat, len: nat | lo + len <= i + 1 && ActiveRun(days, lo, len)
          ensures len <= Max(longest, temp)
        {
          RunAvoids(days, lo, len, i);
        }
      }
    }
    if temp > longest { bestLo := |days| - temp; }
    longest := Max(longest, temp);
  }

  /** The longest streak is determined by the calendar alone. */
  lemma LongestRunUnique(days: seq<Day>, a: nat, b: nat)
    requires IsLongestRun(days, a) && IsLongestRun(days, b)
    ensures a == b
  {
    var la: nat :| ActiveRun(days, la, a);
    var lb: nat :| ActiveRun(days, lb, b);
  }

  /** A calendar with no active day has a longest streak of 0. */
  lemma LongestOfIdleCalendar(days: seq<Day>, n: nat)
    requires forall k :: 0 <= k < |days| ==> days[k].count <= 0
    requires IsLongestRun(days, n)
    ensures n == 0
  {
    var lo: nat :| ActiveRun(days, lo, n);
    if lo < |days| {
      RunAvoids(days, lo, n, lo);
    }
  }

  /** A calendar whose every day is active has a longest streak of its length. */
  lemma LongestOfActiveCalendar(days: seq<Day>, n: nat)
    requires forall k :: 0 <= k < |days| ==> days[k].count > 0
    requires IsLongestRun(days, n)
    ensures n == |days|
  {
    assert ActiveRun(days, 0, |days|);
    var lo: nat :| ActiveRun(days, lo, n);
  }

  // ---------------------------------------------------------------------
  // Current streak

  function Last(s: seq<Day>): Day
    requires s != []
  {
    s[|s| - 1]
  }

  function Init(s: seq<Day>): seq<Day>
    requires s != []
  {
    s[..|s| - 1]
  }

  /** The days dated on or before `today`, in calendar order. */
  function Past(days: seq<Day>, today: string): (p: seq<Day>)
    ensures |p| <= |days|
    ensures forall k :: 0 <= k < |p| ==> !IsFuture(p[k], today)
  {
    if days == [] then []
    else Past(Init(days), today) + (if IsFuture(Last(days), today) then [] else [Last(days)])
  }

  /** `s` without its trailing idle (count <= 0) days. */
  function DropIdle(s: seq<Day>): (r: seq<Day>)
    ensures |r| <= |s| && r == s[..|r|]
    ensures forall k :: |r| <= k < |s| ==> s[k].count <= 0
    ensures r == [] || Last(r).count > 0
  {
    if s == [] || Last(s).count > 0 then s else DropIdle(Init(s))
  }

  /** The number of active days at the end of `s`. */
  function TrailingActive(s: seq<Day>): (n: nat)
    ensures n <= |s|
    ensures forall k :: |s| - n <= k < |s| ==> s[k].count > 0
    ensures n < |s| ==> s[|s| - n - 1].count <= 0
  {
    if s == [] || Last(s).count <= 0 then 0 else 1 + TrailingActive(Init(s))
  }

  /** What the backward scan of route.ts:93-108 computes: among the days
      dated on or before today, skip the trailing idle days, then count the
      run of active days that precedes them. */
  function CurrentRun(days: seq<Day>, today: string): (n: nat)
    ensures n <= |Past(days, today)| <= |days|
  {
    TrailingActive(DropIdle(Past(days, today)))
  }

  lemma PastStep(days: seq<Day>, today: string, i: nat)
    requires i < |days|
    ensures Past(days[..i + 1], today)
      == Past(days[..i], today) + (if IsFuture(days[i], today) then [] else [days[i]])
  {
    assert Init(days[..i + 1]) == days[..i];
  }

  /** A day after today leaves the streak of the days up to it unchanged. */
  lemma ScanFuture(days: seq<Day>, today: string, i: nat)
    requires i < |days| && IsFuture(days[i], today)
    ensures Past(days[..i + 1], today) == Past(days[..i], today)
  {
    PastStep(days, today, i);
  }

  /** An active day on or before today extends the trailing run by one. */
  lemma ScanActive(days: seq<Day>, today: string, i: nat)
    requires i < |days| && !IsFuture(days[i], today) && days[i].count > 0
    ensures CurrentRun(days[..i + 1], today) == 1 + TrailingActive(Past(days[..i], today))
    ensures TrailingActive(Past(days[..i + 1], today)) == 1 + TrailingActive(Past(days[..i], today))
  {
    PastStep(days, today, i);
    var p := Past(days[..i], today);
    var q := p + [days[i]];
    assert Init(q) == p;
    assert DropIdle(q) == q;
  }

  /** An idle day on or before today is skipped by the trailing-idle cut
      and ends any trailing run. */
  lemma ScanIdle(days: seq<Day>, today: string, i: nat)
    requires i < |days| && !IsFuture(days[i], today) && days[i].count <= 0
    ensures CurrentRun(days[..i + 1], today) == CurrentRun(days[..i], today)
    ensures TrailingActive(Past(days[..i + 1], today)) == 0
  {
    PastStep(days, today, i);
    var p := Past(days[..i], today);
    var q := p + [days[i]];
    assert Init(q) == p;
    assert DropIdle(q) == DropIdle(p);
  }

  /** What the backward scan knows once it has looked at the days after
      index `i`: before the first active day, nothing is counted and the
      streak is that of `days[..i + 1]`; after it, the streak is `current`
      plus the active run still ahead at the end of `days[..i + 1]`. */
  ghost predicate Scanned(days: seq<Day>, today: string, i: int, current: nat, foundEnd: bool)
    requires -1 <= i < |days|
  {
    if foundEnd then CurrentRun(days, today) == current + TrailingActive(Past(days[..i + 1], today))
    else current == 0 && CurrentRun(days, today) == CurrentRun(days[..i + 1], today)
  }

  /** One iteration of the backward scan at index `i`, case by case. */
  lemma ScanStep(days: seq<Day>, today: string, i: nat, current: nat, foundEnd: bool)
    requires i < |days| && Scanned(days, today, i, current, foundEnd)
    ensures IsFuture(days[i], today) ==> Scanned(days, today, i - 1, current, foundEnd)
    ensures !IsFuture(days[i], today) && days[i].count > 0 ==> Scanned(days, today, i - 1, current + 1, true)
    ensures !IsFuture(days[i], today) && days[i].count <= 0 && !foundEnd ==> Scanned(days, today, i - 1, 0, false)
    ensures !IsFuture(days[i], today) && days[i].count <= 0 && foundEnd ==> CurrentRun(days, today) == current
  {
    if IsFuture(days[i], today) {
      ScanFuture(days, today, i);
    } else if days[i].count > 0 {
      ScanActive(days, today, i);
    } else {
      ScanIdle(days, today, i);
    }
  }

  /** Once every day has been looked at, the count is the streak. */
  lemma ScanDone(days: seq<Day>, today: string, current: nat, foundEnd: bool)
    requires Scanned(days, today, -1, current, foundEnd)
    ensures current == CurrentRun(days, today)
  {
    assert days[..0] == [];
  }

  /** The backward scan of route.ts:93-108. Days after today are skipped;
      idle days are skipped until an active day has been seen; the first idle
      day after that ends the scan. The exception for an idle "today" at the
      very end (route.ts:104) is reached only once an active day has been
      seen, which is never on the first iteration, the only one with
      `i == days.length - 1`: the branch is dead and the verifier shows it. */
  method CurrentStreak(days: seq<Day>, today: string) returns (current: nat)
    ensures current == CurrentRun(days, today)
  {
    current := 0;
    var foundEnd := false;
    var i := |days| - 1;
    assert days[..i + 1] == days;
    while i >= 0
      invariant -1 <= i < |days|
      invariant foundEnd ==> i < |days| - 1
      invariant Scanned(days, today, i, current, foundEnd)
    {
      var stop;
      current, foundEnd, stop := ScanDay(days, today, i, current, foundEnd);
      if stop {
        return;
      }
      i := i - 1;
    }
    ScanDone(days, today, current, foundEnd);
  }

  /** One iteration of the backward scan, at index `i`: a future day is
      skipped (`continue`), an active day is counted, an idle day is skipped
      before the first active day and otherwise ends the scan (`break`). */
  method ScanDay(days: seq<Day>, today: string, i: nat, current: nat, foundEnd: bool)
    returns (current': nat, foundEnd': bool, stop: bool)
    requires i < |days| && (foundEnd ==> i < |days| - 1)
    requires Scanned(days, today, i, current, foundEnd)
    ensures stop ==> current' == CurrentRun(days, today)
    ensures !stop ==> Scanned(days, today, i - 1, current', foundEnd')
  {
    var day := days[i];
    ScanStep(days, today, i, current, foundEnd);
    current', foundEnd', stop := current, foundEnd, false;
    if IsFuture(day, today) {
      return;
    }
    if day.count > 0 {
      current' := current + 1;
      foundEnd' := true;
    } else if foundEnd {
      if i == |days| - 1 && day.date == today && day.count == 0 {
        assert false;
        return;
      }
      stop := true;
    }
  }

  // ---------------------------------------------------------------------
  // Properties of the current streak

  /** No day of `s` is active. */
  predicate AllIdle(s: seq<Day>)
  {
    forall k :: 0 <= k < |s| ==> s[k].count <= 0
  }

  /** No day of `days` on or before today is active. */
  predicate PastIdle(days: seq<Day>, today: string)
  {
    forall k :: 0 <= k < |days| && !IsFuture(days[k], today) ==> days[k].count <= 0
  }

  lemma {:induction false} DropIdleEmptyIff(s: seq<Day>)
    ensures DropIdle(s) == [] <==> AllIdle(s)
  {
    if s != [] && Last(s).count <= 0 {
      DropIdleEmptyIff(Init(s));
      AllIdleAppend(Init(s), [Last(s)]);
      assert Init(s) + [Last(s)] == s;
    }
  }

  lemma AllIdleAppend(s: seq<Day>, x: seq<Day>)
    ensures AllIdle(s + x) <==> AllIdle(s) && AllIdle(x)
  {
    if AllIdle(s) && AllIdle(x) {
      forall k | 0 <= k < |s + x| ensures (s + x)[k].count <= 0 {
        if k < |s| { assert (s + x)[k] == s[k]; } else { assert (s + x)[k] == x[k - |s|]; }
      }
    }
    if AllIdle(s + x) {
      forall k | 0 <= k < |s| ensures s[k].count <= 0 {
        assert (s + x)[k] == s[k];
      }
      forall k | 0 <= k < |x| ensures x[k].count <= 0 {
        assert (s + x)[k + |s|] == x[k];
      }
    }
  }

  lemma PastIdleStep(days: seq<Day>, today: string)
    requires days != []
    ensures PastIdle(days, today)
        <==> PastIdle(Init(days), today) && (IsFuture(Last(days), today) || Last(days).count <= 0)
  {
    var init := Init(days);
    if PastIdle(days, today) {
      forall k | 0 <= k < |init| && !IsFuture(init[k], today) ensures init[k].count <= 0 {
        assert init[k] == days[k];
      }
    }
    if PastIdle(init, today) && (IsFuture(Last(days), today) || Last(days).count <= 0) {
      forall k | 0 <= k < |days| && !IsFuture(days[k], today) ensures days[k].count <= 0 {
        if k < |init| { assert days[k] == init[k]; }
      }
    }
  }

  /** The filtered days are all idle exactly when every day on or before
      today is idle. */
  lemma {:induction false} PastIdleIff(days: seq<Day>, today: string)
    ensures AllIdle(Past(days, today)) <==> PastIdle(days, today)
  {
    if days != [] {
      var init := Init(days);
      var d := Last(days);
      var tail := if IsFuture(d, today) then [] else [d];
      PastIdleIff(init, today);
      assert Past(days, today) == Past(init, today) + tail;
      AllIdleAppend(Past(init, today), tail);
      if !IsFuture(d, today) {
        assert tail[0] == d;
      }
      PastIdleStep(days, today);
    }
  }

  /** The current streak is 0 exactly when no day on or before today is active. */
  lemma CurrentZeroIff(days: seq<Day>, today: string)
    ensures CurrentRun(days, today) == 0
        <==> forall k :: 0 <= k < |days| && !IsFuture(days[k], today) ==> days[k].count <= 0
  {
    var p := Past(days, today);
    PastIdleIff(days, today);
    DropIdleEmptyIff(p);
    var r := DropIdle(p);
    if r != [] {
      assert TrailingActive(r) > 0;
    }
  }

  /** An idle day at the end of the calendar never changes the current
      streak, whatever its date: it is skipped, not counted as a break. */
  lemma IdleDayIsSkipped(days: seq<Day>, d: Day, today: string)
    requires d.count <= 0
    ensures CurrentRun(days + [d], today) == CurrentRun(days, today)
  {
    AppendStep(days, d, today);
    var p := Past(days, today);
    if !IsFuture(d, today) {
      assert Past(days + [d], today) == p + [d];
      DropIdleSkipsIdle(p, d);
    } else {
      assert Past(days + [d], today) == p;
    }
  }

  lemma DropIdleSkipsIdle(p: seq<Day>, d: Day)
    requires d.count <= 0
    ensures DropIdle(p + [d]) == DropIdle(p)
  {
    var q := p + [d];
    assert Last(q) == d && Init(q) == p;
  }

  /** A day after today at the end of the calendar is ignored. */
  lemma FutureDayIsIgnored(days: seq<Day>, d: Day, today: string)
    requires IsFuture(d, today)
    ensures CurrentRun(days + [d], today) == CurrentRun(days, today)
  {
    AppendStep(days, d, today);
    assert Past(days + [d], today) == Past(days, today);
  }

  lemma AppendStep(days: seq<Day>, d: Day, today: string)
    ensures Past(days + [d], today) == Past(days, today) + (if IsFuture(d, today) then [] else [d])
  {
    assert Init(days + [d]) == days;
  }

  /** When no day lies after today, the filter keeps every day. */
  lemma {:induction false} PastOfPastDays(days: seq<Day>, today: string)
    requires forall k :: 0 <= k < |days| ==> !IsFuture(days[k], today)
    ensures Past(days, today) == days
  {
    if days != [] {
      var init := Init(days);
      forall k | 0 <= k < |init| ensures !IsFuture(init[k], today) {
        assert init[k] == days[k];
      }
      PastOfPastDays(init, today);
      assert init + [Last(days)] == days;
    }
  }

  /** A calendar of active days, none after today, is one streak. */
  lemma {:induction false} CurrentOfActiveCalendar(days: seq<Day>, today: string)
    requires forall k :: 0 <= k < |days| ==> days[k].count > 0 && !IsFuture(days[k], today)
    ensures CurrentRun(days, today) == |days|
  {
    PastOfPastDays(days, today);
    TrailingActiveOfActive(days);
  }

  lemma {:induction false} TrailingActiveOfActive(s: seq<Day>)
    requires forall k :: 0 <= k < |s| ==> s[k].count > 0
    ensures DropIdle(s) == s && TrailingActive(s) == |s|
  {
    if s != [] {
      TrailingActiveOfActive(Init(s));
    }
  }

  /** With ascending dates, the days on or before today form a prefix. */
  lemma {:induction false} PastIsPrefix(days: seq<Day>, today: string)
    requires DatesAscending(days)
    ensures Past(days, today) == days[..|Past(days, today)|]
    ensures forall k :: |Past(days, today)| <= k < |days| ==> IsFuture(days[k], today)
  {
    if days != [] {
      var n := |days| - 1;
      var init := Init(days);
      assert DatesAscending(init) by {
        forall i, j | 0 <= i < j < |init| ensures !Before(init[j].date, init[i].date) {
          assert init[i] == days[i] && init[j] == days[j];
        }
      }
      PastIsPrefix(init, today);
      var p := Past(init, today);
      if !IsFuture(days[n], today) && |p| < n {
        // days[|p|] lies after today, yet days[n], no earlier, does not
        assert IsFuture(init[|p|], today);
        assert days[|p|] == init[|p|];
        if days[n].date != days[|p|].date {
          BeforeTotal(days[n].date, days[|p|].date);
          BeforeTransitive(today, days[|p|].date, days[n].date);
        }
        assert false;
      }
    }
  }

  /** With ascending dates, the current streak is a run of consecutive
      active days, so it is never longer than the longest streak. */
  lemma CurrentAtMostLongest(days: seq<Day>, today: string, longest: nat)
    requires DatesAscending(days)
    requires IsLongestRun(days, longest)
    ensures CurrentRun(days, today) <= longest
  {
    PastIsPrefix(days, today);
    var p := Past(days, today);
    var r := DropIdle(p);
    var t := TrailingActive(r);
    assert r == days[..|r|];
    forall k | |r| - t <= k < |r| ensures days[k].count > 0 {
      assert r[k] == days[k];
    }
    assert ActiveRun(days, |r| - t, t);
  }

  lemma {:induction false} TrailingActiveAfterIdle(s: seq<Day>, t: seq<Day>)
    requires s != [] && Last(s).count <= 0
    requires forall k :: 0 <= k < |t| ==> t[k].count > 0
    ensures TrailingActive(s + t) == |t|
  {
    if t == [] {
      assert s + t == s;
    } else {
      assert Init(s + t) == s + Init(t);
      TrailingActiveAfterIdle(s, Init(t));
    }
  }

  /** The sample calendar with counts `1,1,0,1,1,1,0` on the given dates. */
  function SampleCalendar(dates: seq<string>): seq<Day>
    requires |dates| == 7
  {
    [Day(dates[0], 1), Day(dates[1], 1), Day(dates[2], 0), Day(dates[3], 1),
     Day(dates[4], 1), Day(dates[5], 1), Day(dates[6], 0)]
  }

  /** Its longest streak is 3. */
  lemma SampleLongest(dates: seq<string>)
    requires |dates| == 7
    ensures IsLongestRun(SampleCalendar(dates), 3)
  {
    var days := SampleCalendar(dates);
    assert ActiveRun(days, 3, 3) by {
      assert days[3].count == days[4].count == days[5].count == 1;
    }
    assert days[2].count == 0 && days[6].count == 0;
    forall lo: nat, len: nat | ActiveRun(days, lo, len) ensures len <= 3 {
      RunAvoids(days, lo, len, 2);
      RunAvoids(days, lo, len, 6);
    }
  }

  /** With no day after today (today may be the date of the last, idle day)
      its current streak is 3 as well: the trailing idle day is skipped
      rather than breaking the streak. */
  lemma SampleCurrent(dates: seq<string>, today: string)
    requires |dates| == 7
    requires forall k :: 0 <= k < 7 ==> !Before(today, dates[k])
    ensures CurrentRun(SampleCalendar(dates), today) == 3
  {
    var head := [Day(dates[0], 1), Day(dates[1], 1), Day(dates[2], 0)]
              + [Day(dates[3], 1), Day(dates[4], 1), Day(dates[5], 1)];
    assert SampleCalendar(dates) == head + [Day(dates[6], 0)];
    IdleDayIsSkipped(head, Day(dates[6], 0), today);
    SampleHeadCurrent(dates, today);
  }

  /** The first six sample days, none after today, end in a run of three. */
  lemma SampleHeadCurrent(dates: seq<string>, today: string)
    requires |dates| == 7
    requires forall k :: 0 <= k < 7 ==> !Before(today, dates[k])
    ensures CurrentRun([Day(dates[0], 1), Day(dates[1], 1), Day(dates[2], 0)]
                       + [Day(dates[3], 1), Day(dates[4], 1), Day(dates[5], 1)], today) == 3
  {
    var front := [Day(dates[0], 1), Day(dates[1], 1), Day(dates[2], 0)];
    var run := [Day(dates[3], 1), Day(dates[4], 1), Day(dates[5], 1)];
    var head := front + run;
    forall k | 0 <= k < |head| ensures !IsFuture(head[k], today) {
      assert head[k].date == dates[k];
    }
    PastOfPastDays(head, today);
    assert DropIdle(head) == head;
    TrailingActiveAfterIdle(front, run);
  }
}
