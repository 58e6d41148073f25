/**
 * The tutorial document of the TypeScript server: its dates, kept as ISO day keys, and its
 * substitutes, one user id per day. A date is a day number; an invalid date has no ISO form.
 */
module TutorialModel {
  import opened Wrappers

  /** A date: a valid day, or a date that cannot be written as an ISO date. */
  datatype DateTime = Day(day: int) | InvalidDate

  /** The ISO date of a date, if it has one. */
  function IsoDate(d: DateTime): (r: Option<int>)
    ensures r.Some? <==> d.Day?
    ensures r.Some? ==> r.value == d.day
  {
    match d
    case Day(day) => Some(day)
    case InvalidDate => None
  }

  /** The error for a date without an ISO form; such a date writes itself as "Invalid DateTime". */
  const NotParseableMessage := "Date 'Invalid DateTime' is not parseable to ISODate."

  /** The key of a date in the substitutes; a date without an ISO form is an error. */
  function DateKey(d: DateTime): (r: Result<int, string>)
    ensures r.Ok? <==> d.Day?
    ensures r.Ok? ==> r.value == d.day
    ensures r.Err? ==> r.error == NotParseableMessage
  {
    match IsoDate(d)
    case Some(key) => Ok(key)
    case None => Err(NotParseableMessage)
  }

  /** The stored form of the dates: the ISO date of each, dropping those without one. */
  function StoredDates(dates: seq<DateTime>): (r: seq<int>)
    ensures |r| <= |dates|
  {
    if dates == [] then []
    else
      var rest := StoredDates(dates[..|dates| - 1]);
      match IsoDate(dates[|dates| - 1])
      case Some(key) => rest + [key]
      case None => rest
  }

  /** The stored dates are exactly the valid dates, in their order. */
  lemma {:induction false} StoredDatesAreValidDates(dates: seq<DateTime>)
    ensures forall day :: day in StoredDates(dates) <==> Day(day) in dates
    ensures Dates(StoredDates(dates)) == ValidOnly(dates)
  {
    if dates != [] {
      var init := dates[..|dates| - 1];
      StoredDatesAreValidDates(init);
      assert dates == init + [dates[|dates| - 1]];
      DatesAppend(StoredDates(init), dates[|dates| - 1]);
    }
  }

  /** The valid dates among `dates`, in their order. */
  function ValidOnly(dates: seq<DateTime>): (r: seq<DateTime>) {
    if dates == [] then []
    else
      var rest := ValidOnly(dates[..|dates| - 1]);
      if dates[|dates| - 1].Day? then rest + [dates[|dates| - 1]] else rest
  }

  /** The dates read back from their stored form. */
  function Dates(stored: seq<int>): (r: seq<DateTime>)
    ensures |r| == |stored|
    ensures forall i :: 0 <= i < |r| ==> r[i] == Day(stored[i])
  {
    if stored == [] then [] else Dates(stored[..|stored| - 1]) + [Day(stored[|stored| - 1])]
  }

  lemma DatesAppend(stored: seq<int>, d: DateTime)
    ensures Dates(stored + (if d.Day? then [d.day] else [])) == Dates(stored) + (if d.Day? then [d] else [])
  {
    var r := stored + (if d.Day? then [d.day] else []);
    assert Dates(r) == Dates(stored) + (if d.Day? then [d] else []);
  }

  /** The substitutes after `user` substitutes on `key`; an earlier substitute on that day is overridden. */
  function WithSubstitute(substitutes: map<int, string>, key: int, user: string): map<int, string> {
    substitutes[key := user]
  }

  /** The substitutes after removing the one on `key`, if there is one. */
  function WithoutSubstitute(substitutes: map<int, string>, key: int): (r: map<int, string>)
    ensures key !in substitutes ==> r == substitutes
  {
    if key in substitutes then substitutes - {key} else substitutes
  }

  /** The substitute on a day, if there is one. */
  function SubstituteOn(substitutes: map<int, string>, key: int): (r: Option<string>)
    ensures r.Some? <==> key in substitutes
    ensures r.Some? ==> r.value == substitutes[key]
  {
    if key in substitutes then Some(substitutes[key]) else None
  }

  /** The substitute of a day is the one set last; after removing it there is none; other days are untouched. */
  lemma SubstituteAfterChange(substitutes: map<int, string>, key: int, user: string, other: int)
    requires other != key
    ensures SubstituteOn(WithSubstitute(substitutes, key, user), key) == Some(user)
    ensures SubstituteOn(WithoutSubstitute(substitutes, key), key) == None
    ensures SubstituteOn(WithSubstitute(substitutes, key, user), other) == SubstituteOn(substitutes, other)
    ensures SubstituteOn(WithoutSubstitute(substitutes, key), other) == SubstituteOn(substitutes, other)
  {
  }

  /** Setting a substitute twice on the same day is the same as setting only the second one. */
  lemma SubstituteOverridden(substitutes: map<int, string>, key: int, first: string, second: string)
    ensures WithSubstitute(WithSubstitute(substitutes, key, first), key, second) == WithSubstitute(substitutes, key, second)
  {
  }

  class Tutorial {
    var slot: string
    var tutor: Option<string>
    var storedDates: seq<int>
    var students: seq<string>
    var teams: seq<string>
    var correctors: seq<string>
    var substitutes: map<int, string>

    /** A new tutorial has no students, teams or substitutes; its dates are stored by their ISO form. */
    constructor(slot: string, tutor: Option<string>, dates: seq<DateTime>, correctors: seq<string>)
      ensures this.slot == slot && this.tutor == tutor && this.correctors == correctors
      ensures storedDates == StoredDates(dates)
      ensures students == [] && teams == [] && substitutes == map[]
    {
      this.slot := slot;
      this.tutor := tutor;
      this.storedDates := StoredDates(dates);
      this.correctors := correctors;
      students := [];
      teams := [];
      substitutes := map[];
    }

    /** The tutorial's dates. */
    function GetDates(): (r: seq<DateTime>)
      reads this
      ensures |r| == |storedDates| && forall i :: 0 <= i < |r| ==> r[i].Day?
    {
      Dates(storedDates)
    }

    /** Replaces the dates, dropping those without an ISO form. */
    method SetDates(dates: seq<DateTime>)
      modifies this
      ensures storedDates == StoredDates(dates)
      ensures GetDates() == ValidOnly(dates)
      ensures substitutes == old(substitutes) && students == old(students) && teams == old(teams)
      ensures slot == old(slot) && tutor == old(tutor) && correctors == old(correctors)
    {
      storedDates := StoredDates(dates);
      StoredDatesAreValidDates(dates);
    }

    /** Makes `user` the substitute on `date`; a date without an ISO form is an error and changes nothing. */
    method SetSubstitute(date: DateTime, user: string) returns (r: Result<(), string>)
      modifies this
      ensures r.Err? <==> date.InvalidDate?
      ensures substitutes == if date.Day? then WithSubstitute(old(substitutes), date.day, user) else old(substitutes)
      ensures storedDates == old(storedDates) && students == old(students) && teams == old(teams)
      ensures slot == old(slot) && tutor == old(tutor) && correctors == old(correctors)
    {
      var key := DateKey(date);
      if key.Err? {
        return Err(key.error);
      }
      substitutes := substitutes[key.value := user];
      r := Ok(());
    }

    /** Removes the substitute on `date`; without one this changes nothing. */
    method RemoveSubstitute(date: DateTime) returns (r: Result<(), string>)
      modifies this
      ensures r.Err? <==> date.InvalidDate?
      ensures substitutes == if date.Day? then WithoutSubstitute(old(substitutes), date.day) else old(substitutes)
      ensures storedDates == old(storedDates) && students == old(students) && teams == old(teams)
      ensures slot == old(slot) && tutor == old(tutor) && correctors == old(correctors)
    {
      var key := DateKey(date);
      if key.Err? {
        return Err(key.error);
      }
      if key.value in substitutes {
        substitutes := substitutes - {key.value};
      }
      r := Ok(());
    }

    /** The substitute on `date`, if there is one. */
    function GetSubstitute(date: DateTime): (r: Result<Option<string>, string>)
      reads this
      ensures r.Err? <==> date.InvalidDate?
      ensures r.Ok? ==> r.value == SubstituteOn(substitutes, date.day)
    {
      match DateKey(date)
      case Ok(key) => Ok(SubstituteOn(substitutes, key))
      case Err(e) => Err(e)
    }
  }
}
