/**
 * The TypeScript tutorial service: generating tutorials for the days of an interval grouped by
 * weekday, leaving out excluded days and numbering the slots per weekday; the checks made before
 * a tutorial is created or deleted; and setting the substitutes of a tutorial. Days are day
 * numbers; day 0 is a Monday.
 */
module TutorialService {
  import opened Wrappers
  import opened TutorialModel
  import opened UserService

  /** The weekday of a day, 1 (Monday) to 7 (Sunday). */
  function Weekday(day: int): (r: int)
    ensures 1 <= r <= 7
  {
    day % 7 + 1
  }

  /** The days of a weekday in a grouping; a weekday without days has none. */
  function DaysOn(grouped: map<int, seq<int>>, weekday: int): seq<int> {
    if weekday in grouped then grouped[weekday] else []
  }

  /** The days from `start` up to (not including) `cursor`, grouped by weekday. */
  function GroupedUpTo(start: int, cursor: int): map<int, seq<int>>
    decreases cursor - start
  {
    if cursor <= start then map[]
    else
      var grouped := GroupedUpTo(start, cursor - 1);
      grouped[Weekday(cursor - 1) := DaysOn(grouped, Weekday(cursor - 1)) + [cursor - 1]]
  }

  predicate Increasing(s: seq<int>) {
    forall i, j :: 0 <= i < j < |s| ==> s[i] < s[j]
  }

  /**
   * Every day from `start` to before `cursor` lies in the group of its weekday and in no other;
   * each group is increasing, so no day appears twice; a weekday is a key only when some day
   * has it.
   */
  lemma {:induction false} GroupedExactly(start: int, cursor: int, weekday: int)
    ensures forall d :: d in DaysOn(GroupedUpTo(start, cursor), weekday) <==> start <= d < cursor && Weekday(d) == weekday
    ensures Increasing(DaysOn(GroupedUpTo(start, cursor), weekday))
    ensures weekday in GroupedUpTo(start, cursor) <==> |DaysOn(GroupedUpTo(start, cursor), weekday)| > 0
    decreases cursor - start
  {
    if cursor > start {
      var day := cursor - 1;
      var before := GroupedUpTo(start, day);
      GroupedExactly(start, day, weekday);
      if Weekday(day) == weekday {
        var days := DaysOn(before, weekday);
        assert DaysOn(GroupedUpTo(start, cursor), weekday) == days + [day];
        assert forall i :: 0 <= i < |days| ==> days[i] in days;
      } else {
        assert DaysOn(GroupedUpTo(start, cursor), weekday) == DaysOn(before, weekday);
      }
    }
  }

  /**
   * An interval whose end lies before its start is invalid and has no start day, so walking it
   * fails at its first step.
   */
  const InvalidIntervalMessage := "Cannot read properties of null (reading 'startOf')"

  /**
   * The days from `start` through `end` grouped by their weekday, walking a cursor day by day;
   * an interval that ends before it starts is an error.
   */
  method DatesInIntervalGroupedByWeekday(start: int, end: int) returns (r: Result<map<int, seq<int>>, string>)
    ensures r.Err? <==> end < start
    ensures r.Err? ==> r.error == InvalidIntervalMessage
    ensures r.Ok? ==> r.value == GroupedUpTo(start, end + 1)
  {
    if end < start {
      return Err(InvalidIntervalMessage);
    }
    var grouped := map[];
    var cursor := start;
    while cursor <= end
      invariant start <= cursor <= end + 1
      invariant grouped == GroupedUpTo(start, cursor)
      decreases end - cursor
    {
      var dates := DaysOn(grouped, Weekday(cursor));
      dates := dates + [cursor];
      grouped := grouped[Weekday(cursor) := dates];
      cursor := cursor + 1;
    }
    r := Ok(grouped);
  }

  /** The position of the first date on `day`, or -1. */
  function IndexOfDay(dates: seq<int>, day: int): (r: int)
    ensures -1 <= r < |dates|
    ensures r >= 0 ==> dates[r] == day && day !in dates[..r]
    ensures r == -1 <==> day !in dates
  {
    if dates == [] then -1
    else if dates[0] == day then 0
    else
      var r := IndexOfDay(dates[1..], day);
      assert r >= 0 ==> dates[1..][..r] == dates[1..r + 1];
      if r == -1 then -1 else r + 1
  }

  /** The dates with the first one on `day` removed, if there is one. */
  function RemoveDay(dates: seq<int>, day: int): (r: seq<int>)
    ensures multiset(r) == multiset(dates) - multiset{day}
  {
    var i := IndexOfDay(dates, day);
    if i == -1 then dates
    else
      assert dates == dates[..i] + [day] + dates[i + 1..];
      dates[..i] + dates[i + 1..]
  }

  /** All excluded days, in order. */
  function Flatten(excluded: seq<seq<int>>): seq<int> {
    if excluded == [] then [] else Flatten(excluded[..|excluded| - 1]) + excluded[|excluded| - 1]
  }

  /** The dates after removing each excluded day in turn. */
  function WithoutExcluded(dates: seq<int>, excludedDays: seq<int>): seq<int> {
    if excludedDays == [] then dates
    else RemoveDay(WithoutExcluded(dates, excludedDays[..|excludedDays| - 1]), excludedDays[|excludedDays| - 1])
  }

  /** Each excluded day takes away at most one date on that day: the result is the dates minus the excluded days, as multisets. */
  lemma {:induction false} WithoutExcludedCounts(dates: seq<int>, excludedDays: seq<int>)
    ensures multiset(WithoutExcluded(dates, excludedDays)) == multiset(dates) - multiset(excludedDays)
  {
    if excludedDays != [] {
      var init, last := excludedDays[..|excludedDays| - 1], excludedDays[|excludedDays| - 1];
      WithoutExcludedCounts(dates, init);
      WithoutExcludedLast(dates, excludedDays);
      MultisetOfInit(excludedDays);
      RemoveAfterRemove(multiset(WithoutExcluded(dates, init)), multiset(dates), multiset(init), last,
        multiset(WithoutExcluded(dates, excludedDays)));
    }
  }

  lemma WithoutExcludedLast(dates: seq<int>, excludedDays: seq<int>)
    requires excludedDays != []
    ensures multiset(WithoutExcluded(dates, excludedDays)) ==
      multiset(WithoutExcluded(dates, excludedDays[..|excludedDays| - 1])) - multiset{excludedDays[|excludedDays| - 1]}
  {
  }

  lemma MultisetOfInit(s: seq<int>)
    requires s != []
    ensures multiset(s) == multiset(s[..|s| - 1]) + multiset{s[|s| - 1]}
  {
    assert s == s[..|s| - 1] + [s[|s| - 1]];
  }

  lemma RemoveAfterRemove(before: multiset<int>, dates: multiset<int>, excluded: multiset<int>, last: int, after: multiset<int>)
    requires before == dates - excluded && after == before - multiset{last}
    ensures after == dates - (excluded + multiset{last})
  {
    forall x
      ensures after[x] == (dates - (excluded + multiset{last}))[x]
    {
    }
  }

  /** Removing the days of `first + second` is removing those of `first`, then those of `second`. */
  lemma {:induction false} WithoutExcludedAppend(dates: seq<int>, first: seq<int>, second: seq<int>)
    ensures WithoutExcluded(dates, first + second) == WithoutExcluded(WithoutExcluded(dates, first), second)
  {
    if second == [] {
      assert first + second == first;
    } else {
      var init := second[..|second| - 1];
      WithoutExcludedAppend(dates, first, init);
      AppendInit(first, second);
    }
  }

  lemma AppendInit(first: seq<int>, second: seq<int>)
    requires second != []
    ensures (first + second)[..|first + second| - 1] == first + second[..|second| - 1]
    ensures (first + second)[|first + second| - 1] == second[|second| - 1]
  {
    assert (first + second)[..|first + second| - 1] == first + second[..|second| - 1];
  }

  /** Removes the days of one excluded entry from the dates, one after the other. */
  method RemoveDays(dates: seq<int>, days: seq<int>) returns (dateArray: seq<int>)
    ensures dateArray == WithoutExcluded(dates, days)
  {
    dateArray := dates;
    for j := 0 to |days|
      invariant dateArray == WithoutExcluded(dates, days[..j])
    {
      assert days[..j + 1][..j] == days[..j];
      var idx := IndexOfDay(dateArray, days[j]);
      if idx != -1 {
        dateArray := dateArray[..idx] + dateArray[idx + 1..];
      }
    }
    assert days[..|days|] == days;
  }

  /**
   * A copy of the dates without the excluded days; every excluded entry lists its days. The
   * dates given are a value and stay as they are.
   */
  method RemoveExcludedDates(dates: seq<int>, excluded: seq<seq<int>>) returns (dateArray: seq<int>)
    ensures dateArray == WithoutExcluded(dates, Flatten(excluded))
    ensures multiset(dateArray) == multiset(dates) - multiset(Flatten(excluded))
  {
    dateArray := dates;
    for i := 0 to |excluded|
      invariant dateArray == WithoutExcluded(dates, Flatten(excluded[..i]))
    {
      assert excluded[..i + 1][..i] == excluded[..i];
      WithoutExcludedAppend(dates, Flatten(excluded[..i]), excluded[i]);
      dateArray := RemoveDays(dateArray, excluded[i]);
    }
    assert excluded[..|excluded|] == excluded;
    WithoutExcludedCounts(dates, Flatten(excluded));
  }

  /** The decimal digits of a number. */
  function DecimalString(n: nat): (r: string)
    ensures |r| >= 1
  {
    if n < 10 then [Digit(n)] else DecimalString(n / 10) + [Digit(n % 10)]
  }

  function Digit(d: nat): char
    requires d < 10
  {
    "0123456789"[d]
  }

  /** A string padded at the start with '0' to at least two characters. */
  function PadStartTwo(s: string): (r: string)
    ensures |r| == if |s| >= 2 then |s| else 2
  {
    if |s| >= 2 then s else if |s| == 1 then "0" + s else "00"
  }

  /** The slot of the `nr`-th tutorial with the prefix. */
  function SlotName(prefix: string, nr: nat): string {
    prefix + PadStartTwo(DecimalString(nr))
  }

  /** Numbers 1 to 99 become exactly two digits; larger ones are not cut. */
  lemma SlotDigits(prefix: string, nr: nat)
    ensures 1 <= nr <= 99 ==> SlotName(prefix, nr) == prefix + [Digit(nr / 10), Digit(nr % 10)]
    ensures nr >= 100 ==> SlotName(prefix, nr) == prefix + DecimalString(nr) && |DecimalString(nr)| >= 3
  {
    var q := nr / 10;
    if 1 <= nr < 10 {
      assert q == 0 && nr % 10 == nr;
      assert Digit(0) == '0';
      assert DecimalString(nr) == [Digit(nr)];
    } else if 10 <= nr <= 99 {
      assert 1 <= q < 10;
      assert DecimalString(nr) == DecimalString(q) + [Digit(nr % 10)];
      assert DecimalString(q) == [Digit(q)];
    } else if nr >= 100 {
      assert q >= 10;
      assert DecimalString(nr) == DecimalString(q) + [Digit(nr % 10)];
      assert DecimalString(q) == DecimalString(q / 10) + [Digit(q % 10)];
    }
  }

  /** What generating tutorials for one weekday asks for. */
  datatype GenerationData = GenerationData(amount: nat, prefix: string, weekday: int)

  /** A generated tutorial: its slot and its dates. */
  datatype Generated = Generated(slot: string, dates: seq<int>)

  /** The dates of the tutorials generated from one entry. */
  function DatesFor(grouped: map<int, seq<int>>, excluded: seq<seq<int>>, data: GenerationData): seq<int> {
    WithoutExcluded(DaysOn(grouped, data.weekday), Flatten(excluded))
  }

  /** How many tutorials the first `n` entries generate on the weekday. */
  function Counted(grouped: map<int, seq<int>>, excluded: seq<seq<int>>, datas: seq<GenerationData>, n: nat, weekday: int): nat
    requires n <= |datas|
  {
    if n == 0 then 0
    else
      var data := datas[n - 1];
      Counted(grouped, excluded, datas, n - 1, weekday) +
        (if data.weekday == weekday && |DatesFor(grouped, excluded, data)| > 0 then data.amount else 0)
  }

  /** The `count` tutorials numbered after `before`, all with the given dates. */
  function Numbered(prefix: string, before: nat, count: nat, dates: seq<int>): (r: seq<Generated>)
    ensures |r| == count
    ensures forall i :: 0 <= i < count ==> r[i] == Generated(SlotName(prefix, before + i + 1), dates)
  {
    if count == 0 then [] else Numbered(prefix, before, count - 1, dates) + [Generated(SlotName(prefix, before + count), dates)]
  }

  /** The tutorials the first `n` entries generate, in order; none is without dates. */
  function GeneratedUpTo(grouped: map<int, seq<int>>, excluded: seq<seq<int>>, datas: seq<GenerationData>, n: nat): (r: seq<Generated>)
    requires n <= |datas|
    ensures forall i :: 0 <= i < |r| ==> |r[i].dates| > 0
  {
    if n == 0 then []
    else
      var data := datas[n - 1];
      var dates := DatesFor(grouped, excluded, data);
      GeneratedUpTo(grouped, excluded, datas, n - 1) +
        (if |dates| > 0 then Numbered(data.prefix, Counted(grouped, excluded, datas, n - 1, data.weekday), data.amount, dates) else [])
  }

  /** The count of a weekday's counter; a weekday not yet used counts 0. */
  function Counter(indexForWeekday: map<int, nat>, weekday: int): nat {
    if weekday in indexForWeekday then indexForWeekday[weekday] else 0
  }

  /** Numbers `amount` tutorials on the dates, going on from the weekday's counter. */
  method NumberTutorials(prefix: string, weekday: int, amount: nat, dates: seq<int>, indexForWeekday: map<int, nat>)
    returns (batch: seq<Generated>, counters: map<int, nat>)
    ensures batch == Numbered(prefix, Counter(indexForWeekday, weekday), amount, dates)
    ensures forall w :: Counter(counters, w) == Counter(indexForWeekday, w) + (if w == weekday then amount else 0)
  {
    batch := [];
    counters := indexForWeekday;
    for i := 0 to amount
      invariant batch == Numbered(prefix, Counter(indexForWeekday, weekday), i, dates)
      invariant forall w :: Counter(counters, w) == Counter(indexForWeekday, w) + (if w == weekday then i else 0)
    {
      var nr := Counter(counters, weekday) + 1;
      batch := batch + [Generated(SlotName(prefix, nr), dates)];
      counters := counters[weekday := nr];
    }
  }

  /**
   * Generates tutorials for the days from `firstDay` through `lastDay`: for each entry, `amount`
   * tutorials on the days of its weekday minus the excluded days, slots numbered with a counter
   * per weekday that goes on from entry to entry; an entry whose weekday has no days left
   * generates nothing. A last day before the first day is an error.
   */
  method CreateMany(firstDay: int, lastDay: int, excluded: seq<seq<int>>, datas: seq<GenerationData>) returns (r: Result<seq<Generated>, string>)
    ensures r.Err? <==> lastDay < firstDay
    ensures r.Err? ==> r.error == InvalidIntervalMessage
    ensures r.Ok? ==> r.value == GeneratedUpTo(GroupedUpTo(firstDay, lastDay + 1), excluded, datas, |datas|)
  {
    var grouping := DatesInIntervalGroupedByWeekday(firstDay, lastDay);
    if grouping.Err? {
      return Err(grouping.error);
    }
    var daysInInterval := grouping.value;
    var indexForWeekday: map<int, nat> := map[];
    var created := [];
    for k := 0 to |datas|
      invariant created == GeneratedUpTo(daysInInterval, excluded, datas, k)
      invariant forall w :: Counter(indexForWeekday, w) == Counted(daysInInterval, excluded, datas, k, w)
    {
      var data := datas[k];
      var dates := RemoveExcludedDates(DaysOn(daysInInterval, data.weekday), excluded);
      assert dates == DatesFor(daysInInterval, excluded, data);
      if |dates| > 0 {
        var batch;
        batch, indexForWeekday := NumberTutorials(data.prefix, data.weekday, data.amount, dates, indexForWeekday);
        created := created + batch;
      }
    }
    r := Ok(created);
  }

  const StudentsLeftMessage := "A tutorial with students can NOT be deleted."
  const TutorRoleMessage := "The tutor of a tutorial needs to have the TUTOR role."
  const CorrectorRoleMessage := "The corrector of a tutorial needs to have the CORRECTOR role."

  function SlotTakenMessage(slot: string): string {
    "A tutorial with the slot '" + slot + " already exists."
  }

  /** A tutorial that still has students is not deleted. */
  function CheckDeletable(tutorial: Tutorial): (r: Result<(), string>)
    reads tutorial
    ensures r.Err? <==> |tutorial.students| > 0
    ensures r.Err? ==> r.error == StudentsLeftMessage
  {
    if |tutorial.students| > 0 then Err(StudentsLeftMessage) else Ok(())
  }

  /** A new tutorial's slot must not be the slot of an existing tutorial. */
  function AssertTutorialSlot(existingSlots: seq<string>, slot: string): (r: Result<(), string>)
    ensures r.Err? <==> slot in existingSlots
    ensures r.Err? ==> r.error == SlotTakenMessage(slot)
  {
    if slot in existingSlots then Err(SlotTakenMessage(slot)) else Ok(())
  }

  /** A tutor, when there is one, needs the TUTOR role. */
  function AssertTutorHasTutorRole(tutor: Option<User>): (r: Result<(), string>)
    ensures r.Err? <==> tutor.Some? && Tutor !in tutor.value.roles
    ensures r.Err? ==> r.error == TutorRoleMessage
  {
    if tutor.Some? && Tutor !in tutor.value.roles then Err(TutorRoleMessage) else Ok(())
  }

  /** Every corrector needs the CORRECTOR role. */
  method AssertCorrectorsHaveCorrectorRole(correctors: seq<User>) returns (r: Result<(), string>)
    ensures r.Ok? <==> forall k :: 0 <= k < |correctors| ==> Corrector in correctors[k].roles
    ensures r.Err? ==> r.error == CorrectorRoleMessage
  {
    for k := 0 to |correctors|
      invariant forall j :: 0 <= j < k ==> Corrector in correctors[j].roles
    {
      if Corrector !in correctors[k].roles {
        return Err(CorrectorRoleMessage);
      }
    }
    r := Ok(());
  }

  /** Whether every date has an ISO form. */
  predicate AllValid(dates: seq<DateTime>) {
    forall k :: 0 <= k < |dates| ==> dates[k].Day?
  }

  /**
   * The substitutes after handling the dates in turn: each date gets `tutor` as substitute, or
   * loses its substitute when there is no tutor; handling stops at the first date without an
   * ISO form.
   */
  function SubstitutesAfter(substitutes: map<int, string>, dates: seq<DateTime>, tutor: Option<string>): map<int, string> {
    if dates == [] then substitutes
    else
      var init, last := dates[..|dates| - 1], dates[|dates| - 1];
      var before := SubstitutesAfter(substitutes, init, tutor);
      if AllValid(init) && last.Day? then
        (if tutor.Some? then WithSubstitute(before, last.day, tutor.value) else WithoutSubstitute(before, last.day))
      else before
  }

  /** When every date is valid, each given day has `tutor` as substitute (or none), and every other day keeps its substitute. */
  lemma {:induction false} SubstitutesAfterDays(substitutes: map<int, string>, dates: seq<DateTime>, tutor: Option<string>, day: int)
    requires AllValid(dates)
    ensures Day(day) in dates ==> SubstituteOn(SubstitutesAfter(substitutes, dates, tutor), day) == tutor
    ensures Day(day) !in dates ==> SubstituteOn(SubstitutesAfter(substitutes, dates, tutor), day) == SubstituteOn(substitutes, day)
  {
    if dates != [] {
      var init := dates[..|dates| - 1];
      assert AllValid(init) by {
        assert forall k :: 0 <= k < |init| ==> init[k] == dates[k];
      }
      SubstitutesAfterDays(substitutes, init, tutor, day);
      assert dates == init + [dates[|dates| - 1]];
    }
  }

  /**
   * Sets the substitute of the dates to the tutor, or removes their substitutes when there is no
   * tutor. A tutor without the TUTOR role is refused and changes nothing; a date without an ISO
   * form stops the handling with an error, keeping the dates handled before it.
   */
  method SetTutorialSubstitute(tutorial: Tutorial, dates: seq<DateTime>, tutor: Option<User>) returns (r: Result<(), string>)
    modifies tutorial
    ensures AssertTutorHasTutorRole(tutor).Err? ==> r.Err? && tutorial.substitutes == old(tutorial.substitutes)
    ensures AssertTutorHasTutorRole(tutor).Ok? ==>
      (r.Ok? <==> AllValid(dates)) &&
      tutorial.substitutes == SubstitutesAfter(old(tutorial.substitutes), dates, if tutor.Some? then Some(tutor.value.id) else None)
    ensures tutorial.storedDates == old(tutorial.storedDates) && tutorial.students == old(tutorial.students)
    ensures tutorial.slot == old(tutorial.slot) && tutorial.tutor == old(tutorial.tutor)
    ensures tutorial.teams == old(tutorial.teams) && tutorial.correctors == old(tutorial.correctors)
  {
    var roleCheck := AssertTutorHasTutorRole(tutor);
    if roleCheck.Err? {
      return Err(roleCheck.error);
    }
    var tutorId: Option<string> := if tutor.Some? then Some(tutor.value.id) else None;
    for k := 0 to |dates|
      invariant AllValid(dates[..k])
      invariant tutorial.substitutes == SubstitutesAfter(old(tutorial.substitutes), dates[..k], tutorId)
      invariant tutorial.storedDates == old(tutorial.storedDates) && tutorial.students == old(tutorial.students)
      invariant tutorial.slot == old(tutorial.slot) && tutorial.tutor == old(tutorial.tutor)
      invariant tutorial.teams == old(tutorial.teams) && tutorial.correctors == old(tutorial.correctors)
    {
      assert dates[..k + 1][..k] == dates[..k];
      var outcome: Result<(), string>;
      if tutorId.None? {
        outcome := tutorial.RemoveSubstitute(dates[k]);
      } else {
        outcome := tutorial.SetSubstitute(dates[k], tutorId.value);
      }
      if outcome.Err? {
        StopsAtInvalid(old(tutorial.substitutes), dates, tutorId, k);
        return Err(outcome.error);
      }
    }
    assert dates[..|dates|] == dates;
    r := Ok(());
  }

  /** Once a date without an ISO form is met, the later dates change nothing. */
  lemma {:induction false} StopsAtInvalid(substitutes: map<int, string>, dates: seq<DateTime>, tutor: Option<string>, k: int)
    requires 0 <= k < |dates| && dates[k].InvalidDate? && AllValid(dates[..k])
    ensures SubstitutesAfter(substitutes, dates, tutor) == SubstitutesAfter(substitutes, dates[..k], tutor)
    ensures !AllValid(dates)
    decreases |dates|
  {
    var init := dates[..|dates| - 1];
    if k < |dates| - 1 {
      assert init[..k] == dates[..k];
      StopsAtInvalid(substitutes, init, tutor, k);
      assert !AllValid(init);
    } else {
      assert init == dates[..k];
    }
  }
}
