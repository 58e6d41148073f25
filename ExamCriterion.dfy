/**
 * The Schein criterion on the Schein exams: either every exam has to be passed on its own, or the
 * points of all exams together have to reach a share of all their must-have points.
 */
module ExamCriterion {
  import opened Wrappers
  import GradingEntity
  import RatedEntity

  /** A Schein exam: a rated hand-in with its number. */
  datatype Scheinexam = Scheinexam(entity: RatedEntity.RatedEntity, scheinExamNo: int)

  datatype PassedState = Passed | NotPassed
  datatype CriteriaUnit = UnitExam | UnitPoint

  /** The per-exam entry of a status: achieved points out of the exam's must-have points. */
  datatype ExamInfo = ExamInfo(achieved: real, total: real, no: int, unit: CriteriaUnit, state: PassedState)

  /** The settings of the criterion. */
  datatype ScheinexamCriteria = ScheinexamCriteria(passAllExamsIndividually: bool, percentageOfAllPointsNeeded: real)

  datatype StatusCheckResponse = StatusCheckResponse(
    identifier: string,
    achieved: nat,
    total: nat,
    unit: CriteriaUnit,
    passed: bool,
    infos: map<string, ExamInfo>,
    chartType: string)

  const Identifier: string := "SCHEINEXAM"

  /** The grading the student has for the exam, looked up by the exam's id. */
  function GradingOf(exam: Scheinexam, gradings: map<string, GradingEntity.Grading>): Option<GradingEntity.Grading> {
    if exam.entity.id in gradings then Some(gradings[exam.entity.id]) else None
  }

  function Info(exam: Scheinexam, gradings: map<string, GradingEntity.Grading>): RatedEntity.PassedInformation {
    RatedEntity.GetPassedInformation(exam.entity, GradingOf(exam, gradings))
  }

  // ---------------------------------------------------------------- the totals over all exams

  /** The number of exams the student passed. */
  function ExamsPassed(exams: seq<Scheinexam>, gradings: map<string, GradingEntity.Grading>): nat {
    if exams == [] then 0
    else ExamsPassed(exams[..|exams| - 1], gradings) + (if Info(exams[|exams| - 1], gradings).passed then 1 else 0)
  }

  /** The points the student achieved in all exams. */
  function PointsAchieved(exams: seq<Scheinexam>, gradings: map<string, GradingEntity.Grading>): real {
    if exams == [] then 0.0
    else PointsAchieved(exams[..|exams| - 1], gradings) + Info(exams[|exams| - 1], gradings).achieved
  }

  /** The must-have points of all exams. */
  function PointsTotal(exams: seq<Scheinexam>): real {
    if exams == [] then 0.0
    else PointsTotal(exams[..|exams| - 1]) + RatedEntity.HandInTotal(exams[|exams| - 1].entity.exercises).must
  }

  /** The bonus points of all exams (they are not part of the criterion's total). */
  function BonusTotal(exams: seq<Scheinexam>): real {
    if exams == [] then 0.0
    else BonusTotal(exams[..|exams| - 1]) + RatedEntity.HandInTotal(exams[|exams| - 1].entity.exercises).bonus
  }

  function InfoOf(exam: Scheinexam, gradings: map<string, GradingEntity.Grading>): ExamInfo {
    var info := Info(exam, gradings);
    ExamInfo(info.achieved, info.total.must, exam.scheinExamNo, UnitPoint, if info.passed then Passed else NotPassed)
  }

  /** The per-exam entries, keyed by exam id; a later exam with the same id overwrites an earlier entry. */
  function Infos(exams: seq<Scheinexam>, gradings: map<string, GradingEntity.Grading>): map<string, ExamInfo> {
    if exams == [] then map[]
    else Infos(exams[..|exams| - 1], gradings)[exams[|exams| - 1].entity.id := InfoOf(exams[|exams| - 1], gradings)]
  }

  /** There is an entry for an id exactly when some exam has that id. */
  lemma {:induction false} InfosKeys(exams: seq<Scheinexam>, gradings: map<string, GradingEntity.Grading>, id: string)
    ensures id in Infos(exams, gradings) <==> exists i :: 0 <= i < |exams| && exams[i].entity.id == id
  {
    if exams != [] {
      var init := exams[..|exams| - 1];
      InfosKeys(init, gradings, id);
      if id in Infos(init, gradings) {
        var i :| 0 <= i < |init| && init[i].entity.id == id;
        assert exams[i] == init[i];
      }
      if exists i :: 0 <= i < |exams| && exams[i].entity.id == id {
        var i :| 0 <= i < |exams| && exams[i].entity.id == id;
        if i < |init| { assert init[i] == exams[i]; }
      }
    }
  }

  /** The entry for an exam's id describes that exam when no later exam has the same id. */
  lemma {:induction false} InfosLastWins(exams: seq<Scheinexam>, gradings: map<string, GradingEntity.Grading>, i: nat)
    requires i < |exams|
    requires forall j :: i < j < |exams| ==> exams[j].entity.id != exams[i].entity.id
    ensures exams[i].entity.id in Infos(exams, gradings)
    ensures Infos(exams, gradings)[exams[i].entity.id] == InfoOf(exams[i], gradings)
  {
    var init := exams[..|exams| - 1];
    if i < |init| {
      assert init[i] == exams[i];
      assert forall j :: i < j < |init| ==> init[j] == exams[j];
      InfosLastWins(init, gradings, i);
    }
  }

  /** An exam's entry says PASSED exactly when the student passed it, with its achieved and must-have points. */
  lemma InfoState(exam: Scheinexam, gradings: map<string, GradingEntity.Grading>)
    ensures InfoOf(exam, gradings).state == Passed <==> Info(exam, gradings).passed
    ensures InfoOf(exam, gradings).achieved == Info(exam, gradings).achieved
    ensures InfoOf(exam, gradings).total == RatedEntity.HandInTotal(exam.entity.exercises).must
    ensures InfoOf(exam, gradings).unit == UnitPoint
  {
  }

  /**
   * Walks over the exams once, counting the passed ones, summing the achieved and the must-have
   * points, and recording one entry per exam id (a later exam with the same id overwrites it).
   */
  method CheckAllExams(exams: seq<Scheinexam>, gradings: map<string, GradingEntity.Grading>)
    returns (examsPassed: nat, pointsAchieved: real, pointsTotal: real, infos: map<string, ExamInfo>)
    ensures examsPassed == ExamsPassed(exams, gradings)
    ensures pointsAchieved == PointsAchieved(exams, gradings)
    ensures pointsTotal == PointsTotal(exams)
    ensures infos == Infos(exams, gradings)
  {
    pointsAchieved, pointsTotal, examsPassed := 0.0, 0.0, 0;
    infos := map[];
    for k := 0 to |exams|
      invariant examsPassed == ExamsPassed(exams[..k], gradings)
      invariant pointsAchieved == PointsAchieved(exams[..k], gradings)
      invariant pointsTotal == PointsTotal(exams[..k])
      invariant infos == Infos(exams[..k], gradings)
    {
      assert exams[..k + 1][..k] == exams[..k];
      var exam := exams[k];
      var info := RatedEntity.GetPassedInformation(exam.entity, GradingOf(exam, gradings));
      var state := if info.passed then Passed else NotPassed;
      if info.passed {
        examsPassed := examsPassed + 1;
      }
      pointsAchieved := pointsAchieved + info.achieved;
      pointsTotal := pointsTotal + info.total.must;
      infos := infos[exam.entity.id := ExamInfo(info.achieved, info.total.must, exam.scheinExamNo, UnitPoint, state)];
    }
    assert exams[..|exams|] == exams;
  }

  /** The status of a student for the criterion. */
  method CheckCriteriaStatus(criteria: ScheinexamCriteria, exams: seq<Scheinexam>, gradings: map<string, GradingEntity.Grading>)
    returns (response: StatusCheckResponse)
    ensures response.identifier == Identifier && response.unit == UnitExam && response.chartType == "PieChart"
    ensures response.achieved == ExamsPassed(exams, gradings) && response.total == |exams|
    ensures criteria.passAllExamsIndividually ==> (response.passed <==> ExamsPassed(exams, gradings) >= |exams|)
    ensures !criteria.passAllExamsIndividually ==> (response.passed <==>
      RatedEntity.RatioAtLeast(PointsAchieved(exams, gradings), PointsTotal(exams), criteria.percentageOfAllPointsNeeded))
    ensures response.infos == Infos(exams, gradings)
  {
    var examsPassed, pointsAchieved, pointsTotal, infos := CheckAllExams(exams, gradings);
    var passed: bool;
    if criteria.passAllExamsIndividually {
      passed := examsPassed >= |exams|;
    } else {
      passed := RatedEntity.RatioAtLeast(pointsAchieved, pointsTotal, criteria.percentageOfAllPointsNeeded);
    }
    response := StatusCheckResponse(Identifier, examsPassed, |exams|, UnitExam, passed, infos, "PieChart");
  }

  /** The criterion's summary information is not implemented and always raises an error. */
  function GetInformation(exams: seq<Scheinexam>): (r: Result<(), string>)
    ensures r == Err("Method not implemented.")
  {
    Err("Method not implemented.")
  }

  // ---------------------------------------------------------------- properties of the totals

  /** At most every exam is passed, and all are passed exactly when each one is. */
  lemma {:induction false} ExamsPassedBounds(exams: seq<Scheinexam>, gradings: map<string, GradingEntity.Grading>)
    ensures ExamsPassed(exams, gradings) <= |exams|
    ensures ExamsPassed(exams, gradings) == |exams| <==> forall i :: 0 <= i < |exams| ==> Info(exams[i], gradings).passed
  {
    if exams != [] {
      var init := exams[..|exams| - 1];
      ExamsPassedBounds(init, gradings);
      assert forall i :: 0 <= i < |init| ==> init[i] == exams[i];
    }
  }

  /** In the individual mode the criterion is passed exactly when every exam is, so also without any exam. */
  lemma IndividualModeAllPassed(criteria: ScheinexamCriteria, exams: seq<Scheinexam>, gradings: map<string, GradingEntity.Grading>)
    requires criteria.passAllExamsIndividually
    ensures (ExamsPassed(exams, gradings) >= |exams|) <==> forall i :: 0 <= i < |exams| ==> Info(exams[i], gradings).passed
  {
    ExamsPassedBounds(exams, gradings);
  }

  /** In the total mode, without any exam the points are 0 / 0, which is never enough. */
  lemma TotalModeNoExams(criteria: ScheinexamCriteria, gradings: map<string, GradingEntity.Grading>)
    ensures !RatedEntity.RatioAtLeast(PointsAchieved([], gradings), PointsTotal([]), criteria.percentageOfAllPointsNeeded)
  {
  }

  /** The criterion's total counts must-have points only: with the bonus points it makes up all exam maxima. */
  lemma {:induction false} PointsTotalExcludesBonus(exams: seq<Scheinexam>)
    ensures PointsTotal(exams) + BonusTotal(exams) == SumMaxima(exams)
  {
    if exams != [] {
      PointsTotalExcludesBonus(exams[..|exams| - 1]);
      RatedEntity.HandInTotalSplitsAll(exams[|exams| - 1].entity.exercises);
    }
  }

  /** The maxima of all exercises of all exams, bonus or not. */
  function SumMaxima(exams: seq<Scheinexam>): real {
    if exams == [] then 0.0
    else SumMaxima(exams[..|exams| - 1]) + RatedEntity.SumTotalPoints(exams[|exams| - 1].entity.exercises)
  }
}
