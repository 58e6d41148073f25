/**
 * The Java student service: changes of a student's team and tutorial, which first copy the team's
 * points to the student, setting points and presentation points, and the summary of all Schein
 * criteria of a student. The database is left out: the service works on the student object.
 */
module StudentService {
  import opened Wrappers
  import opened Students

  /** What the client sends to update a student. */
  datatype StudentDTO = StudentDTO(
    lastname: string,
    firstname: string,
    matriculationNo: string,
    email: string,
    courseOfStudies: string,
    tutorial: string,
    team: Option<string>)

  /** `List.remove(Object)`: the first occurrence of `x` is removed, if there is one. */
  function RemoveFirst(s: seq<string>, x: string): (r: seq<string>)
    ensures x in s ==> |r| == |s| - 1 && multiset(r) == multiset(s) - multiset{x}
    ensures x !in s ==> r == s
  {
    if s == [] then []
    else
      assert s == [s[0]] + s[1..];
      if s[0] == x then s[1..] else [s[0]] + RemoveFirst(s[1..], x)
  }

  /** Takes a student out of its team; returns whether the team is empty now and hence deleted. */
  method DeleteStudentFromTeam(team: Team, studentId: string) returns (teamDeleted: bool)
    modifies team
    ensures team.students == RemoveFirst(old(team.students), studentId)
    ensures team.points == old(team.points)
    ensures teamDeleted <==> team.students == []
  {
    team.students := RemoveFirst(team.students, studentId);
    teamDeleted := team.students == [];
  }

  /**
   * Gives the student a new team (or none). When the student leaves a different team, the old
   * team's points are copied to the student first.
   */
  method SetTeam(student: Student, team: Team?)
    modifies student
    ensures student.team == team
    ensures student.points ==
      if old(student.team) != null && old(student.team) != team then old(student.PointsOfStudent()) else old(student.points)
    ensures student.attendance == old(student.attendance) && student.presentationPoints == old(student.presentationPoints)
    ensures student.scheinExamResults == old(student.scheinExamResults)
  {
    var previousTeam := student.team;
    if previousTeam != null && previousTeam != team {
      student.MovePointsFromTeamToStudent();
    }
    student.team := team;
  }

  /**
   * Takes the student out of its team, if it has one: the team's points are copied to the
   * student, the student is removed from the team's students and the team is deleted when it is
   * empty then.
   */
  method RemoveTeam(student: Student) returns (teamDeleted: bool)
    modifies student, student.team
    ensures student.team == null
    ensures student.points == old(student.PointsOfStudent())
    ensures student.attendance == old(student.attendance) && student.presentationPoints == old(student.presentationPoints)
    ensures student.scheinExamResults == old(student.scheinExamResults)
    ensures old(student.team) != null ==>
      old(student.team).students == RemoveFirst(old(student.team.students), student.id) &&
      old(student.team).points == old(student.team.points)
    ensures teamDeleted <==> old(student.team) != null && old(student.team).students == []
  {
    var team := student.team;
    if team != null {
      student.MovePointsFromTeamToStudent();
    }
    student.team := null;
    teamDeleted := false;
    if team != null {
      teamDeleted := DeleteStudentFromTeam(team, student.id);
    }
  }

  /**
   * Replaces the student by one with the client's data. When the tutorial changes, the team's
   * points are copied to the student and the new student has no team; otherwise it gets the team
   * named in the data (`dtoTeam`). Attendances, points, presentation points and exam results are
   * kept.
   */
  method UpdateStudent(student: Student, dto: StudentDTO, dtoTeam: Team?) returns (updated: Student)
    modifies student
    ensures fresh(updated)
    ensures updated.id == student.id && updated.tutorialId == dto.tutorial
    ensures updated.lastname == dto.lastname && updated.firstname == dto.firstname
    ensures updated.matriculationNo == dto.matriculationNo && updated.email == dto.email
    ensures updated.courseOfStudies == dto.courseOfStudies
    ensures updated.team == if student.tutorialId != dto.tutorial then null else dtoTeam
    ensures updated.points ==
      if student.tutorialId != dto.tutorial then old(student.PointsOfStudent()) else old(student.points)
    ensures updated.attendance == old(student.attendance) && updated.presentationPoints == old(student.presentationPoints)
    ensures updated.scheinExamResults == old(student.scheinExamResults)
    ensures student.points == updated.points && student.team == old(student.team)
  {
    var team := dtoTeam;
    if student.tutorialId != dto.tutorial {
      student.MovePointsFromTeamToStudent();
      team := null;
    }
    updated := new Student(student.id, dto.lastname, dto.firstname, dto.matriculationNo, dto.email,
      dto.courseOfStudies, team, dto.tutorial, student.attendance, student.points,
      student.presentationPoints, student.scheinExamResults);
  }

  /**
   * Sets the given points of one sheet, given as the entries (exercise number, points) of the
   * client's map: numbers that the sheet does not have are passed over, the others overwrite the
   * student's entries.
   */
  method SetPoints(student: Student, sheet: Sheet, given: seq<(int, real)>)
    modifies student
    ensures student.points == ApplyExercisePoints(old(student.points), sheet, EntriesMap(given))
    ensures student.team == old(student.team) && student.attendance == old(student.attendance)
    ensures student.presentationPoints == old(student.presentationPoints)
    ensures student.scheinExamResults == old(student.scheinExamResults)
  {
    assert ApplyExercisePoints(old(student.points), sheet, map[]) == old(student.points);
    for k := 0 to |given|
      invariant student.points == ApplyExercisePoints(old(student.points), sheet, EntriesMap(given[..k]))
      invariant student.team == old(student.team) && student.attendance == old(student.attendance)
      invariant student.presentationPoints == old(student.presentationPoints)
      invariant student.scheinExamResults == old(student.scheinExamResults)
    {
      var (e, v) := given[k];
      assert given[..k + 1][..k] == given[..k];
      ApplyStep(old(student.points), sheet, EntriesMap(given[..k]), e, v);
      if e in sheet.exerciseNos {
        student.SetPoints(sheet.id, e, v);
      }
    }
    assert given[..|given|] == given;
  }

  /** Sets the given results of one Schein exam, passing over exercise numbers the exam does not have. */
  method SetScheinExamResults(student: Student, exam: Sheet, given: seq<(int, real)>)
    modifies student
    ensures student.scheinExamResults == ApplyExercisePoints(old(student.scheinExamResults), exam, EntriesMap(given))
    ensures student.team == old(student.team) && student.attendance == old(student.attendance)
    ensures student.points == old(student.points) && student.presentationPoints == old(student.presentationPoints)
  {
    assert ApplyExercisePoints(old(student.scheinExamResults), exam, map[]) == old(student.scheinExamResults);
    for k := 0 to |given|
      invariant student.scheinExamResults == ApplyExercisePoints(old(student.scheinExamResults), exam, EntriesMap(given[..k]))
      invariant student.team == old(student.team) && student.attendance == old(student.attendance)
      invariant student.points == old(student.points) && student.presentationPoints == old(student.presentationPoints)
    {
      var (e, v) := given[k];
      assert given[..k + 1][..k] == given[..k];
      ApplyStep(old(student.scheinExamResults), exam, EntriesMap(given[..k]), e, v);
      if e in exam.exerciseNos {
        student.SetScheinExamResults(exam.id, e, v);
      }
    }
    assert given[..|given|] == given;
  }

  const NegativePointsMessage := "Points have to be 0 or bigger."

  /** Sets the presentation points of a sheet; negative points are an illegal argument and change nothing. */
  method SetPresentationPoints(student: Student, sheetId: string, value: real) returns (r: Result<(), string>)
    modifies student
    ensures r.Err? <==> value < 0.0
    ensures r.Err? ==> r.error == NegativePointsMessage
    ensures student.presentationPoints ==
      if value < 0.0 then old(student.presentationPoints) else UpdatePresentation(old(student.presentationPoints), sheetId, value)
    ensures student.team == old(student.team) && student.attendance == old(student.attendance)
    ensures student.points == old(student.points) && student.scheinExamResults == old(student.scheinExamResults)
  {
    if value < 0.0 {
      return Err(NegativePointsMessage);
    }
    student.SetPresentationPoints(sheetId, value);
    r := Ok(());
  }

  /**
   * The outcome of one Schein criterion for the student: its id, its status and whether the
   * student passed it. Evaluating a criterion is not part of this model.
   */
  datatype CriterionOutcome<S> = CriterionOutcome(id: string, status: S, passed: bool)

  /** The statuses keyed by criterion id; a later criterion with the same id replaces an earlier one. */
  function Statuses<S>(outcomes: seq<CriterionOutcome<S>>): map<string, S> {
    if outcomes == [] then map[]
    else
      var last := outcomes[|outcomes| - 1];
      Statuses(outcomes[..|outcomes| - 1])[last.id := last.status]
  }

  /** The summary has exactly one entry per criterion id, holding the status of the last criterion with that id. */
  lemma {:induction false} StatusesKeys<S>(outcomes: seq<CriterionOutcome<S>>, id: string)
    ensures id in Statuses(outcomes) <==> exists i :: 0 <= i < |outcomes| && outcomes[i].id == id
    ensures id in Statuses(outcomes) ==> exists i :: (0 <= i < |outcomes| && outcomes[i].id == id &&
      Statuses(outcomes)[id] == outcomes[i].status && forall j :: i < j < |outcomes| ==> outcomes[j].id != id)
  {
    if outcomes != [] {
      var init, last := outcomes[..|outcomes| - 1], outcomes[|outcomes| - 1];
      StatusesKeys(init, id);
      if id != last.id && id in Statuses(init) {
        var i :| 0 <= i < |init| && init[i].id == id && Statuses(init)[id] == init[i].status &&
          forall j :: i < j < |init| ==> init[j].id != id;
        assert outcomes[i] == init[i];
      }
      if id != last.id && (exists i :: 0 <= i < |outcomes| && outcomes[i].id == id) {
        var i :| 0 <= i < |outcomes| && outcomes[i].id == id;
        assert init[i] == outcomes[i];
      }
    }
  }

  /** Whether every criterion is passed. */
  function AllPassed<S>(outcomes: seq<CriterionOutcome<S>>): (r: bool) {
    if outcomes == [] then true else AllPassed(outcomes[..|outcomes| - 1]) && outcomes[|outcomes| - 1].passed
  }

  /** The student passed all criteria exactly when no criterion is failed. */
  lemma {:induction false} AllPassedIff<S>(outcomes: seq<CriterionOutcome<S>>)
    ensures AllPassed(outcomes) <==> forall i :: 0 <= i < |outcomes| ==> outcomes[i].passed
  {
    if outcomes != [] {
      var init := outcomes[..|outcomes| - 1];
      AllPassedIff(init);
      assert forall i :: 0 <= i < |init| ==> init[i] == outcomes[i];
    }
  }

  /** The summary of the Schein criteria: the status of each criterion and whether all are passed. */
  method ScheinCriteriaSummary<S>(outcomes: seq<CriterionOutcome<S>>) returns (summary: map<string, S>, isPassed: bool)
    ensures summary == Statuses(outcomes)
    ensures isPassed <==> forall i :: 0 <= i < |outcomes| ==> outcomes[i].passed
  {
    summary := map[];
    isPassed := true;
    for k := 0 to |outcomes|
      invariant summary == Statuses(outcomes[..k])
      invariant isPassed == AllPassed(outcomes[..k])
    {
      assert outcomes[..k + 1][..k] == outcomes[..k];
      summary := summary[outcomes[k].id := outcomes[k].status];
      if !outcomes[k].passed {
        isPassed := false;
      }
    }
    assert outcomes[..|outcomes|] == outcomes;
    AllPassedIff(outcomes);
  }
}
