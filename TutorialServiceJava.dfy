/**
 * The Java tutorial service: deleting and updating a tutorial, making a tutor the substitute on
 * a list of dates, and listing, per tutorial, the dates on which a user substitutes. The DAO and
 * the lookup of users by id are left out: the service gets the tutorial and the users.
 */
module TutorialServiceJava {
  import opened Wrappers

  /** A point in time, as the key of a substitute. */
  datatype Instant = Instant(epochMilli: int)

  /** What the client sends to create or update a tutorial. */
  datatype TutorialDTO = TutorialDTO(slot: string, dates: seq<Instant>, startTime: int, endTime: int)

  class Tutorial {
    const id: string
    var slot: string
    var tutor: Option<string>
    var dates: seq<Instant>
    var startTime: int
    var endTime: int
    var correctors: seq<string>
    var students: seq<string>
    var substitutes: map<Instant, string>

    /** A new tutorial has no students and no substitutes. */
    constructor(id: string, slot: string, tutor: Option<string>, dates: seq<Instant>, startTime: int, endTime: int, correctors: seq<string>)
      ensures this.id == id && this.slot == slot && this.tutor == tutor && this.dates == dates
      ensures this.startTime == startTime && this.endTime == endTime && this.correctors == correctors
      ensures students == [] && substitutes == map[]
    {
      this.id := id;
      this.slot := slot;
      this.tutor := tutor;
      this.dates := dates;
      this.startTime := startTime;
      this.endTime := endTime;
      this.correctors := correctors;
      students := [];
      substitutes := map[];
    }
  }

  const NotEmptyMessage := "Not empty tutorial must not be deleted."

  /** A tutorial with students is not deleted. */
  function DeleteTutorial(tutorial: Tutorial): (r: Result<(), string>)
    reads tutorial
    ensures r.Err? <==> |tutorial.students| > 0
    ensures r.Err? ==> r.error == NotEmptyMessage
  {
    if |tutorial.students| > 0 then Err(NotEmptyMessage) else Ok(())
  }

  /**
   * The tutorial rebuilt from the client's data with the same id, the given tutor and correctors,
   * and the substitutes of the old tutorial.
   */
  method UpdateTutorial(tutorial: Tutorial, dto: TutorialDTO, tutor: Option<string>, correctors: seq<string>) returns (adjusted: Tutorial)
    ensures fresh(adjusted)
    ensures adjusted.id == tutorial.id && adjusted.slot == dto.slot && adjusted.tutor == tutor
    ensures adjusted.dates == dto.dates && adjusted.startTime == dto.startTime && adjusted.endTime == dto.endTime
    ensures adjusted.correctors == correctors && adjusted.students == []
    ensures adjusted.substitutes == tutorial.substitutes
  {
    adjusted := new Tutorial(tutorial.id, dto.slot, tutor, dto.dates, dto.startTime, dto.endTime, correctors);
    adjusted.substitutes := adjusted.substitutes + tutorial.substitutes;
  }

  /** The substitutes without the entries of the user. */
  function WithoutUser(substitutes: map<Instant, string>, userId: string): (r: map<Instant, string>)
    ensures forall d :: d in r <==> d in substitutes && substitutes[d] != userId
    ensures forall d :: d in r ==> r[d] == substitutes[d]
  {
    map d | d in substitutes && substitutes[d] != userId :: substitutes[d]
  }

  /** The user as substitute on each of the dates. */
  function OnDates(dates: seq<Instant>, userId: string): (r: map<Instant, string>)
    ensures forall d :: d in r <==> d in dates
    ensures forall d :: d in r ==> r[d] == userId
  {
    map d | d in dates :: userId
  }

  /** The dates on which the user substitutes. */
  function DatesOf(substitutes: map<Instant, string>, userId: string): set<Instant> {
    set d | d in substitutes && substitutes[d] == userId
  }

  /**
   * After the change the tutor substitutes on exactly the given dates; a date not given keeps
   * the substitute it had unless that was the tutor.
   */
  lemma SubstitutesExactlyGiven(substitutes: map<Instant, string>, dates: seq<Instant>, tutorId: string)
    ensures DatesOf(WithoutUser(substitutes, tutorId) + OnDates(dates, tutorId), tutorId) == set d | d in dates
    ensures forall d :: d !in dates && d in substitutes && substitutes[d] != tutorId ==>
      d in WithoutUser(substitutes, tutorId) + OnDates(dates, tutorId) &&
      (WithoutUser(substitutes, tutorId) + OnDates(dates, tutorId))[d] == substitutes[d]
  {
    var r := WithoutUser(substitutes, tutorId) + OnDates(dates, tutorId);
    assert forall d :: d in DatesOf(r, tutorId) <==> d in dates;
  }

  /** Removes every substitute entry of the user, one entry of the earlier substitutes at a time. */
  method RemoveSubstituteDatesOf(tutorial: Tutorial, userId: string)
    modifies tutorial
    ensures tutorial.substitutes == WithoutUser(old(tutorial.substitutes), userId)
    ensures tutorial.slot == old(tutorial.slot) && tutorial.tutor == old(tutorial.tutor) && tutorial.dates == old(tutorial.dates)
    ensures tutorial.startTime == old(tutorial.startTime) && tutorial.endTime == old(tutorial.endTime)
    ensures tutorial.correctors == old(tutorial.correctors) && tutorial.students == old(tutorial.students)
  {
    var substitutesBeforeChange := tutorial.substitutes;
    var remaining := substitutesBeforeChange.Keys;
    while remaining != {}
      invariant remaining <= substitutesBeforeChange.Keys
      invariant tutorial.substitutes ==
        map d | d in substitutesBeforeChange && (d in remaining || substitutesBeforeChange[d] != userId) :: substitutesBeforeChange[d]
      invariant tutorial.slot == old(tutorial.slot) && tutorial.tutor == old(tutorial.tutor) && tutorial.dates == old(tutorial.dates)
      invariant tutorial.startTime == old(tutorial.startTime) && tutorial.endTime == old(tutorial.endTime)
      invariant tutorial.correctors == old(tutorial.correctors) && tutorial.students == old(tutorial.students)
      decreases remaining
    {
      var date :| date in remaining;
      if substitutesBeforeChange[date] == userId {
        tutorial.substitutes := tutorial.substitutes - {date};
      }
      remaining := remaining - {date};
    }
  }

  /**
   * Makes the tutor the substitute on exactly the given dates: the tutor's earlier substitute
   * dates are removed first, then the tutor is put on every given date.
   */
  method SetSubstituteOfTutorial(tutorial: Tutorial, dates: seq<Instant>, tutorId: string)
    modifies tutorial
    ensures tutorial.substitutes == WithoutUser(old(tutorial.substitutes), tutorId) + OnDates(dates, tutorId)
    ensures DatesOf(tutorial.substitutes, tutorId) == set d | d in dates
    ensures tutorial.slot == old(tutorial.slot) && tutorial.tutor == old(tutorial.tutor) && tutorial.dates == old(tutorial.dates)
    ensures tutorial.startTime == old(tutorial.startTime) && tutorial.endTime == old(tutorial.endTime)
    ensures tutorial.correctors == old(tutorial.correctors) && tutorial.students == old(tutorial.students)
  {
    RemoveSubstituteDatesOf(tutorial, tutorId);
    ghost var withoutTutor := tutorial.substitutes;
    for i := 0 to |dates|
      invariant tutorial.substitutes == withoutTutor + OnDates(dates[..i], tutorId)
      invariant tutorial.slot == old(tutorial.slot) && tutorial.tutor == old(tutorial.tutor) && tutorial.dates == old(tutorial.dates)
      invariant tutorial.startTime == old(tutorial.startTime) && tutorial.endTime == old(tutorial.endTime)
      invariant tutorial.correctors == old(tutorial.correctors) && tutorial.students == old(tutorial.students)
    {
      assert dates[..i + 1] == dates[..i] + [dates[i]];
      tutorial.substitutes := tutorial.substitutes[dates[i] := tutorId];
    }
    assert dates[..|dates|] == dates;
    SubstitutesExactlyGiven(old(tutorial.substitutes), dates, tutorId);
  }

  predicate Distinct<T(==)>(s: seq<T>) {
    forall i, j :: 0 <= i < j < |s| ==> s[i] != s[j]
  }

  /**
   * For every tutorial in which the user substitutes, the dates on which it does; tutorials
   * without such a date are not listed. The tutorials are the distinct stored ones.
   */
  method GetSubstituteTutorialsOfUser(tutorials: seq<Tutorial>, userId: string) returns (response: map<Tutorial, seq<Instant>>)
    requires Distinct(tutorials)
    ensures forall t :: t in response <==> t in tutorials && DatesOf(t.substitutes, userId) != {}
    ensures forall t :: t in response ==> Distinct(response[t]) && (set d | d in response[t]) == DatesOf(t.substitutes, userId)
  {
    response := map[];
    for i := 0 to |tutorials|
      invariant forall t :: t in response <==> t in tutorials[..i] && DatesOf(t.substitutes, userId) != {}
      invariant forall t :: t in response ==> Distinct(response[t]) && (set d | d in response[t]) == DatesOf(t.substitutes, userId)
    {
      var tutorial := tutorials[i];
      assert tutorial !in tutorials[..i];
      var dates := DatesOfTutorial(tutorial, userId);
      if |dates| > 0 {
        assert dates[0] in DatesOf(tutorial.substitutes, userId);
        response := response[tutorial := dates];
      } else {
        assert DatesOf(tutorial.substitutes, userId) == {};
      }
      assert tutorials[..i + 1] == tutorials[..i] + [tutorial];
    }
    assert tutorials[..|tutorials|] == tutorials;
  }

  /** The dates of one tutorial on which the user substitutes, collected entry by entry. */
  method DatesOfTutorial(tutorial: Tutorial, userId: string) returns (dates: seq<Instant>)
    ensures Distinct(dates) && (set d | d in dates) == DatesOf(tutorial.substitutes, userId)
  {
    dates := [];
    var remaining := tutorial.substitutes.Keys;
    while remaining != {}
      invariant remaining <= tutorial.substitutes.Keys
      invariant Distinct(dates)
      invariant forall d :: d in dates <==> d in tutorial.substitutes && d !in remaining && tutorial.substitutes[d] == userId
      decreases remaining
    {
      var date :| date in remaining;
      if tutorial.substitutes[date] == userId {
        dates := dates + [date];
      }
      remaining := remaining - {date};
    }
  }
}
