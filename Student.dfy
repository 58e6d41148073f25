/**
 * The student of the Java back end: its own points per (sheet, exercise), the points of its team,
 * presentation points per sheet and Schein exam results. Own points always take precedence over
 * the team's points for the same exercise.
 */
module Students {
  import opened Wrappers

  /** The key of a points entry: the id of the sheet (or Schein exam) and the exercise number. */
  datatype PointId = PointId(sheetId: string, exerciseNo: int)

  /** A sheet or Schein exam as far as points are concerned: its id and its exercises' numbers. */
  datatype Sheet = Sheet(id: string, exerciseNos: seq<int>)

  datatype Attendance = Attendance(studentId: string, date: int, state: Option<string>, note: Option<string>)

  /** The team of a student: the points the team got and the ids of its students. */
  class Team {
    const id: string
    const tutorialId: string
    var points: map<PointId, real>
    var students: seq<string>

    constructor(id: string, tutorialId: string, points: map<PointId, real>, students: seq<string>)
      ensures this.id == id && this.tutorialId == tutorialId
      ensures this.points == points && this.students == students
    {
      this.id := id;
      this.tutorialId := tutorialId;
      this.points := points;
      this.students := students;
    }

    /** The team's points for one exercise, if it has an entry. */
    function GetPoints(pid: PointId): (r: Option<real>)
      reads this
      ensures r.Some? <==> pid in points
      ensures r.Some? ==> r.value == points[pid]
    {
      if pid in points then Some(points[pid]) else None
    }
  }

  /** `m` with the entries of `base` added for every key `m` does not have: the entries of `m` take precedence. */
  function Overlay(base: map<PointId, real>, m: map<PointId, real>): (r: map<PointId, real>)
    ensures forall pid :: pid in r <==> pid in base || pid in m
    ensures forall pid :: pid in m ==> r[pid] == m[pid]
    ensures forall pid :: pid in base && pid !in m ==> r[pid] == base[pid]
  {
    base + m
  }

  /**
   * Overlaying the same base twice is overlaying it once: moving the team's points to the student a
   * second time changes nothing.
   */
  lemma OverlayIdempotent(base: map<PointId, real>, m: map<PointId, real>)
    ensures Overlay(base, Overlay(base, m)) == Overlay(base, m)
  {
    var once, twice := Overlay(base, m), Overlay(base, Overlay(base, m));
    assert forall pid :: pid in twice <==> pid in once;
    assert forall pid :: pid in twice ==> twice[pid] == once[pid];
  }

  /** The sum of the entries of one sheet over the given exercise numbers, a missing entry counting as 0. */
  function SumPoints(sheetId: string, exerciseNos: seq<int>, m: map<PointId, real>): real {
    if exerciseNos == [] then 0.0
    else
      var pid := PointId(sheetId, exerciseNos[|exerciseNos| - 1]);
      SumPoints(sheetId, exerciseNos[..|exerciseNos| - 1], m) + (if pid in m then m[pid] else 0.0)
  }

  /** The sum over a sheet only looks at that sheet's entries for the listed exercises. */
  lemma {:induction false} SumPointsOtherEntry(sheetId: string, exerciseNos: seq<int>, m: map<PointId, real>, pid: PointId, v: real)
    requires pid.sheetId != sheetId || pid.exerciseNo !in exerciseNos
    ensures SumPoints(sheetId, exerciseNos, m[pid := v]) == SumPoints(sheetId, exerciseNos, m)
  {
    if exerciseNos != [] {
      SumPointsOtherEntry(sheetId, exerciseNos[..|exerciseNos| - 1], m, pid, v);
    }
  }

  /** With no negative entries the sum over a sheet is not negative. */
  lemma {:induction false} SumPointsNonNegative(sheetId: string, exerciseNos: seq<int>, m: map<PointId, real>)
    requires forall pid :: pid in m ==> m[pid] >= 0.0
    ensures SumPoints(sheetId, exerciseNos, m) >= 0.0
  {
    if exerciseNos != [] {
      SumPointsNonNegative(sheetId, exerciseNos[..|exerciseNos| - 1], m);
    }
  }

  /**
   * The entries of `m` after setting the given points of one sheet: an exercise number that the
   * sheet does not list is passed over, every other given number overwrites its entry.
   */
  function ApplyExercisePoints(m: map<PointId, real>, sheet: Sheet, given: map<int, real>): (r: map<PointId, real>)
    ensures forall pid :: pid in r <==> pid in m || Accepted(sheet, given, pid)
    ensures forall pid :: Accepted(sheet, given, pid) ==> r[pid] == given[pid.exerciseNo]
    ensures forall pid :: pid in m && !Accepted(sheet, given, pid) ==> r[pid] == m[pid]
  {
    map pid | pid in m.Keys + (set e | e in given && e in sheet.exerciseNos :: PointId(sheet.id, e)) ::
      if Accepted(sheet, given, pid) then given[pid.exerciseNo] else m[pid]
  }

  predicate Accepted(sheet: Sheet, given: map<int, real>, pid: PointId) {
    pid.sheetId == sheet.id && pid.exerciseNo in given && pid.exerciseNo in sheet.exerciseNos
  }

  /** Setting the same points twice is setting them once. */
  lemma ApplyExercisePointsIdempotent(m: map<PointId, real>, sheet: Sheet, given: map<int, real>)
    ensures ApplyExercisePoints(ApplyExercisePoints(m, sheet, given), sheet, given) == ApplyExercisePoints(m, sheet, given)
  {
    var once := ApplyExercisePoints(m, sheet, given);
    var twice := ApplyExercisePoints(once, sheet, given);
    assert forall pid :: pid in twice <==> pid in once;
    assert forall pid :: pid in twice ==> twice[pid] == once[pid];
  }

  /** The map of a sequence of entries, a later entry replacing an earlier one with its key. */
  function EntriesMap(entries: seq<(int, real)>): (r: map<int, real>)
    ensures forall e :: e in r <==> exists i :: 0 <= i < |entries| && entries[i].0 == e
  {
    if entries == [] then map[]
    else
      var last := entries[|entries| - 1];
      var init := entries[..|entries| - 1];
      assert forall i :: 0 <= i < |init| ==> init[i] == entries[i];
      EntriesMap(init)[last.0 := last.1]
  }

  /** Setting one more given exercise sets one entry of the sheet or, when the sheet lacks that exercise, nothing. */
  lemma ApplyStep(m: map<PointId, real>, sheet: Sheet, given: map<int, real>, e: int, v: real)
    ensures ApplyExercisePoints(m, sheet, given[e := v]) ==
      if e in sheet.exerciseNos then ApplyExercisePoints(m, sheet, given)[PointId(sheet.id, e) := v]
      else ApplyExercisePoints(m, sheet, given)
  {
    var before := ApplyExercisePoints(m, sheet, given);
    var after := ApplyExercisePoints(m, sheet, given[e := v]);
    var expected := if e in sheet.exerciseNos then before[PointId(sheet.id, e) := v] else before;
    assert forall pid :: pid in after <==> pid in expected;
    assert forall pid :: pid in after ==> after[pid] == expected[pid];
  }

  class Student {
    const id: string
    const lastname: string
    const firstname: string
    const matriculationNo: string
    const email: string
    const courseOfStudies: string
    const tutorialId: string
    var team: Team?
    var attendance: map<int, Attendance>
    var points: map<PointId, real>
    var presentationPoints: map<string, real>
    var scheinExamResults: map<PointId, real>

    /** A student with copies of the given maps. */
    constructor(id: string, lastname: string, firstname: string, matriculationNo: string, email: string,
                courseOfStudies: string, team: Team?, tutorialId: string, attendance: map<int, Attendance>,
                points: map<PointId, real>, presentationPoints: map<string, real>, scheinExamResults: map<PointId, real>)
      ensures this.id == id && this.lastname == lastname && this.firstname == firstname
      ensures this.matriculationNo == matriculationNo && this.email == email && this.courseOfStudies == courseOfStudies
      ensures this.team == team && this.tutorialId == tutorialId
      ensures this.attendance == attendance && this.points == points
      ensures this.presentationPoints == presentationPoints && this.scheinExamResults == scheinExamResults
    {
      this.id := id;
      this.lastname := lastname;
      this.firstname := firstname;
      this.matriculationNo := matriculationNo;
      this.email := email;
      this.courseOfStudies := courseOfStudies;
      this.team := team;
      this.tutorialId := tutorialId;
      this.attendance := attendance;
      this.points := points;
      this.presentationPoints := presentationPoints;
      this.scheinExamResults := scheinExamResults;
    }

    /** The attendance of a date is replaced. */
    method SetAttendanceState(date: int, a: Attendance)
      modifies this
      ensures attendance == old(attendance)[date := a]
      ensures team == old(team) && points == old(points)
      ensures presentationPoints == old(presentationPoints) && scheinExamResults == old(scheinExamResults)
    {
      attendance := attendance[date := a];
    }

    /**
     * The points of the student: the team's points (when there is a team) overlaid with the
     * student's own points, which take precedence.
     */
    function PointsOfStudent(): (r: map<PointId, real>)
      reads this, team
      ensures forall pid :: pid in points ==> pid in r && r[pid] == points[pid]
      ensures team != null ==> forall pid :: pid in team.points && pid !in points ==> pid in r && r[pid] == team.points[pid]
      ensures forall pid :: pid in r ==> pid in points || (team != null && pid in team.points)
      ensures team == null ==> r == points
    {
      if team != null then Overlay(team.points, points) else points
    }

    /** Sets the own points of one exercise. */
    method SetPoints(sheetId: string, exerciseNo: int, value: real)
      modifies this
      ensures points == old(points)[PointId(sheetId, exerciseNo) := value]
      ensures team == old(team) && attendance == old(attendance)
      ensures presentationPoints == old(presentationPoints) && scheinExamResults == old(scheinExamResults)
    {
      points := points[PointId(sheetId, exerciseNo) := value];
    }

    function HasPoints(pid: PointId): (r: bool)
      reads this
      ensures r <==> pid in points
    {
      pid in points
    }

    /**
     * Sets the presentation points of a sheet; setting 0 where there is an entry removes the entry.
     */
    method SetPresentationPoints(sheetId: string, value: real)
      modifies this
      ensures presentationPoints == UpdatePresentation(old(presentationPoints), sheetId, value)
      ensures team == old(team) && attendance == old(attendance)
      ensures points == old(points) && scheinExamResults == old(scheinExamResults)
    {
      if value == 0.0 && sheetId in presentationPoints {
        presentationPoints := presentationPoints - {sheetId};
        return;
      }
      presentationPoints := presentationPoints[sheetId := value];
    }

    /** The points of one exercise: the own entry, else the team's entry, else none. */
    function GetPoints(sheetId: string, exerciseNo: int): (r: Option<real>)
      reads this, team
      ensures r.Some? <==> PointId(sheetId, exerciseNo) in PointsOfStudent()
      ensures r.Some? ==> r.value == PointsOfStudent()[PointId(sheetId, exerciseNo)]
    {
      var pid := PointId(sheetId, exerciseNo);
      if HasPoints(pid) then Some(points[pid])
      else if team != null then team.GetPoints(pid)
      else None
    }

    /** The points of a sheet: the points of each of its exercises, a missing one counting as 0. */
    method GetSheetPoints(sheet: Sheet) returns (result: real)
      ensures result == SumPoints(sheet.id, sheet.exerciseNos, PointsOfStudent())
    {
      result := 0.0;
      for k := 0 to |sheet.exerciseNos|
        invariant result == SumPoints(sheet.id, sheet.exerciseNos[..k], PointsOfStudent())
      {
        assert sheet.exerciseNos[..k + 1][..k] == sheet.exerciseNos[..k];
        var p := GetPoints(sheet.id, sheet.exerciseNos[k]);
        result := result + (if p.Some? then p.value else 0.0);
      }
      assert sheet.exerciseNos[..|sheet.exerciseNos|] == sheet.exerciseNos;
    }

    /**
     * Copies the team's points to the student where the student has no own entry. Without a team
     * nothing happens; the student's view of its points does not change either way.
     */
    method MovePointsFromTeamToStudent()
      modifies this
      ensures points == old(PointsOfStudent())
      ensures team == old(team) && attendance == old(attendance)
      ensures presentationPoints == old(presentationPoints) && scheinExamResults == old(scheinExamResults)
    {
      if team == null {
        return;
      }
      var teamPoints := team.points;
      var own := points;
      var remaining := teamPoints.Keys;
      while remaining != {}
        invariant remaining <= teamPoints.Keys
        invariant forall pid :: pid in points <==> pid in own || (pid in teamPoints && pid !in remaining)
        invariant forall pid :: pid in points ==> points[pid] == if pid in own then own[pid] else teamPoints[pid]
        invariant team == old(team) && attendance == old(attendance)
        invariant presentationPoints == old(presentationPoints) && scheinExamResults == old(scheinExamResults)
        decreases remaining
      {
        var pid :| pid in remaining;
        if !HasPoints(pid) {
          SetPoints(pid.sheetId, pid.exerciseNo, teamPoints[pid]);
        }
        remaining := remaining - {pid};
      }
      assert forall pid :: pid in points ==> points[pid] == Overlay(teamPoints, own)[pid];
    }

    /** The result of one exercise of a Schein exam, if there is one. */
    function GetScheinExamResult(examId: string, exerciseNo: int): (r: Option<real>)
      reads this
      ensures r.Some? <==> PointId(examId, exerciseNo) in scheinExamResults
      ensures r.Some? ==> r.value == scheinExamResults[PointId(examId, exerciseNo)]
    {
      var pid := PointId(examId, exerciseNo);
      if pid in scheinExamResults then Some(scheinExamResults[pid]) else None
    }

    /** The result of a Schein exam: the results of its exercises, a missing one counting as 0. */
    method GetScheinExamTotal(exam: Sheet) returns (result: real)
      ensures result == SumPoints(exam.id, exam.exerciseNos, scheinExamResults)
    {
      result := 0.0;
      for k := 0 to |exam.exerciseNos|
        invariant result == SumPoints(exam.id, exam.exerciseNos[..k], scheinExamResults)
      {
        assert exam.exerciseNos[..k + 1][..k] == exam.exerciseNos[..k];
        var r := GetScheinExamResult(exam.id, exam.exerciseNos[k]);
        result := result + (if r.Some? then r.value else 0.0);
      }
      assert exam.exerciseNos[..|exam.exerciseNos|] == exam.exerciseNos;
    }

    /** Sets the result of one exercise of a Schein exam. */
    method SetScheinExamResults(examId: string, exerciseNo: int, value: real)
      modifies this
      ensures scheinExamResults == old(scheinExamResults)[PointId(examId, exerciseNo) := value]
      ensures team == old(team) && attendance == old(attendance)
      ensures points == old(points) && presentationPoints == old(presentationPoints)
    {
      scheinExamResults := scheinExamResults[PointId(examId, exerciseNo) := value];
    }
  }

  /** The presentation points after setting `value` for `sheetId`. */
  function UpdatePresentation(m: map<string, real>, sheetId: string, value: real): map<string, real> {
    if value == 0.0 && sheetId in m then m - {sheetId} else m[sheetId := value]
  }

  /**
   * Reading absent presentation points as 0, a sheet's presentation points are what was set last,
   * and no other sheet's change; an entry is only removed by setting 0.
   */
  lemma PresentationGetAfterSet(m: map<string, real>, sheetId: string, value: real)
    ensures var r := UpdatePresentation(m, sheetId, value);
      (if sheetId in r then r[sheetId] else 0.0) == value &&
      (sheetId !in r <==> value == 0.0 && sheetId in m) &&
      forall s :: s != sheetId ==> (s in r <==> s in m) && (s in r ==> r[s] == m[s])
  {
  }
}
