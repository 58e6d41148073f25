/**
 * The client's tutorial form: the weekly dates between a start and an end date, and the form's
 * initial values, for a new tutorial (today and now) or for a tutorial being edited (its dates
 * sorted, the first as start date and the last as end date). A date is a day number and a time a
 * number of milliseconds.
 */
module TutorialForm {
  import opened Wrappers

  const DaysPerWeek := 7

  /** The dates from `current` on, one week apart, that are not after `end`. */
  function WeeklyFrom(current: int, end: int): seq<int>
    decreases if current > end then 0 else end - current + 1
  {
    if current > end then [] else [current] + WeeklyFrom(current + DaysPerWeek, end)
  }

  /** The weekly dates of a tutorial from `start` to `end`: `start` always, then every following week not after `end`. */
  function WeeklyDates(start: int, end: int): seq<int> {
    [start] + WeeklyFrom(start + DaysPerWeek, end)
  }

  /** How many weekly dates from `current` on are not after `end`. */
  function WeeksUpTo(current: int, end: int): nat {
    if current > end then 0 else (end - current) / DaysPerWeek + 1
  }

  /** The dates from `current` on are `current`, `current` plus a week, and so on, as many as fit before `end`. */
  lemma {:induction false} WeeklyFromClosedForm(current: int, end: int)
    ensures |WeeklyFrom(current, end)| == WeeksUpTo(current, end)
    ensures forall i :: 0 <= i < |WeeklyFrom(current, end)| ==> WeeklyFrom(current, end)[i] == current + DaysPerWeek * i
    decreases if current > end then 0 else end - current + 1
  {
    if current <= end {
      WeeklyFromClosedForm(current + DaysPerWeek, end);
      var rest := WeeklyFrom(current + DaysPerWeek, end);
      assert WeeklyFrom(current, end) == [current] + rest;
      assert WeeksUpTo(current, end) == WeeksUpTo(current + DaysPerWeek, end) + 1;
    }
  }

  /**
   * The weekly dates begin with `start`, even when it is after `end`; each further date is a week
   * after the one before and not after `end`; and the week after the last date is after `end`.
   */
  lemma WeeklyDatesShape(start: int, end: int)
    ensures var r := WeeklyDates(start, end);
      |r| >= 1 && r[0] == start &&
      (forall i :: 0 <= i < |r| ==> r[i] == start + DaysPerWeek * i) &&
      (forall i :: 1 <= i < |r| ==> r[i] <= end) &&
      r[|r| - 1] + DaysPerWeek > end
  {
    WeeklyFromClosedForm(start + DaysPerWeek, end);
    var r := WeeklyDates(start, end);
    var rest := WeeklyFrom(start + DaysPerWeek, end);
    assert forall i :: 1 <= i < |r| ==> r[i] == rest[i - 1];
  }

  /** The weekly dates are the only sequence of that shape: nothing else begins at `start` and steps weekly up to `end`. */
  lemma {:induction false} WeeklyDatesUnique(start: int, end: int, s: seq<int>)
    requires |s| >= 1 && forall i :: 0 <= i < |s| ==> s[i] == start + DaysPerWeek * i
    requires forall i :: 1 <= i < |s| ==> s[i] <= end
    requires s[|s| - 1] + DaysPerWeek > end
    ensures s == WeeklyDates(start, end)
  {
    WeeklyDatesShape(start, end);
    var r := WeeklyDates(start, end);
    assert |r| == |s|;
  }

  /** Collects the weekly dates by adding a week to the current date until it is after `end`. */
  method GetAllWeeklyDatesBetween(start: int, end: int) returns (dates: seq<int>)
    ensures dates == WeeklyDates(start, end)
  {
    dates := [start];
    var currentDate := start + DaysPerWeek;
    while currentDate <= end
      invariant dates + WeeklyFrom(currentDate, end) == WeeklyDates(start, end)
      decreases if currentDate > end then 0 else end - currentDate + 1
    {
      assert WeeklyFrom(currentDate, end) == [currentDate] + WeeklyFrom(currentDate + DaysPerWeek, end);
      dates := dates + [currentDate];
      currentDate := currentDate + DaysPerWeek;
    }
  }

  /** Every date comes before or on every later one. */
  predicate Sorted(s: seq<int>) {
    forall i, j :: 0 <= i < j < |s| ==> s[i] <= s[j]
  }

  /** `x` put into the sorted `s` before the first date it is not after. */
  function Insert(x: int, s: seq<int>): (r: seq<int>)
    ensures multiset(r) == multiset(s) + multiset{x}
  {
    if s == [] || x <= s[0] then [x] + s
    else
      assert s == [s[0]] + s[1..];
      [s[0]] + Insert(x, s[1..])
  }

  lemma {:induction false} InsertSorted(x: int, s: seq<int>)
    requires Sorted(s)
    ensures Sorted(Insert(x, s))
  {
    if s != [] && x > s[0] {
      InsertSorted(x, s[1..]);
      var rest := Insert(x, s[1..]);
      assert forall k :: 0 <= k < |rest| ==> s[0] <= rest[k] by {
        forall k | 0 <= k < |rest|
          ensures s[0] <= rest[k]
        {
          assert rest[k] in multiset(rest);
          assert rest[k] in multiset(s[1..]) + multiset{x};
          if rest[k] != x {
            var m :| 0 <= m < |s[1..]| && s[1..][m] == rest[k];
            assert s[m + 1] == rest[k];
          }
        }
      }
    }
  }

  /** The dates sorted from the earliest to the latest, as sorting them with a comparison of their times does. */
  function SortDates(s: seq<int>): (r: seq<int>)
    ensures multiset(r) == multiset(s)
  {
    if s == [] then []
    else
      assert s == s[..|s| - 1] + [s[|s| - 1]];
      Insert(s[|s| - 1], SortDates(s[..|s| - 1]))
  }

  /** The sorted dates are in order and are the same dates as many times each. */
  lemma {:induction false} SortDatesSorted(s: seq<int>)
    ensures Sorted(SortDates(s)) && multiset(SortDates(s)) == multiset(s)
  {
    if s != [] {
      SortDatesSorted(s[..|s| - 1]);
      InsertSorted(s[|s| - 1], SortDates(s[..|s| - 1]));
    }
  }

  /** A tutorial as the form receives it. */
  datatype FormTutorial = FormTutorial(
    slot: string,
    tutor: Option<string>,
    dates: seq<int>,
    startTime: int,
    endTime: int,
    correctors: seq<string>)

  datatype TutorialFormState = TutorialFormState(
    slot: string,
    tutor: string,
    startDate: int,
    endDate: int,
    startTime: int,
    endTime: int,
    correctors: seq<string>,
    selectedDates: seq<int>)

  /**
   * The initial values of the form: for a new tutorial, today as start and end date and now as start
   * and end time; for a tutorial being edited, its dates sorted, the first as start date and the
   * last as end date (today without dates), its tutor's id or the empty string, and its times.
   */
  function GetInitialTutorialFormValues(tutorial: Option<FormTutorial>, today: int, now: int): (r: TutorialFormState)
    ensures tutorial.None? ==> r == TutorialFormState("", "", today, today, now, now, [], [])
    ensures tutorial.Some? ==> (
      r.slot == tutorial.value.slot && r.correctors == tutorial.value.correctors &&
      r.startTime == tutorial.value.startTime && r.endTime == tutorial.value.endTime &&
      r.tutor == (if tutorial.value.tutor.Some? then tutorial.value.tutor.value else ""))
  {
    match tutorial
    case None => TutorialFormState("", "", today, today, now, now, [], [])
    case Some(t) =>
      var sortedDates := SortDates(t.dates);
      TutorialFormState(
        t.slot,
        if t.tutor.Some? then t.tutor.value else "",
        if |sortedDates| > 0 then sortedDates[0] else today,
        if |sortedDates| > 0 then sortedDates[|sortedDates| - 1] else today,
        t.startTime,
        t.endTime,
        t.correctors,
        sortedDates)
  }

  /**
   * For a tutorial with dates, the initial start date is its earliest date and the end date its
   * latest; the selected dates are its dates in order. Without dates both are today.
   */
  lemma InitialDatesAreEarliestAndLatest(tutorial: FormTutorial, today: int, now: int)
    ensures var r := GetInitialTutorialFormValues(Some(tutorial), today, now);
      Sorted(r.selectedDates) && multiset(r.selectedDates) == multiset(tutorial.dates) &&
      (tutorial.dates == [] ==> r.startDate == today && r.endDate == today) &&
      (tutorial.dates != [] ==> (
        r.startDate in tutorial.dates && r.endDate in tutorial.dates &&
        forall d :: d in tutorial.dates ==> r.startDate <= d <= r.endDate))
  {
    var sorted := SortDates(tutorial.dates);
    SortDatesSorted(tutorial.dates);
    if tutorial.dates != [] {
      SortedEnds(sorted, tutorial.dates);
    }
  }

  /** The first of sorted dates is the earliest of the same dates and the last the latest. */
  lemma SortedEnds(sorted: seq<int>, dates: seq<int>)
    requires Sorted(sorted) && multiset(sorted) == multiset(dates) && dates != []
    ensures sorted[0] in dates && sorted[|sorted| - 1] in dates
    ensures forall d :: d in dates ==> sorted[0] <= d <= sorted[|sorted| - 1]
  {
    assert |sorted| == |dates| by {
      assert |multiset(sorted)| == |multiset(dates)|;
    }
    assert sorted[0] in multiset(dates);
    assert sorted[|sorted| - 1] in multiset(dates);
    forall d | d in dates
      ensures sorted[0] <= d <= sorted[|sorted| - 1]
    {
      assert d in multiset(sorted);
    }
  }
}
