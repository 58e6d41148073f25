/**
 * Exercises, sub-exercises and rated hand-ins (sheets, exams): how their maximum points split into
 * must-have and bonus points, and whether a student's grading passes a rated hand-in.
 */
module RatedEntity {
  import opened Wrappers
  import GradingEntity

  /** Points split into must-have points and bonus points. */
  datatype PointInfo = PointInfo(must: real, bonus: real)

  datatype SubExercise = SubExercise(id: string, exerciseName: string, bonus: bool, maxPoints: real)

  datatype Exercise = Exercise(
    id: string,
    exerciseName: string,
    bonus: bool,
    maxPoints: real,
    subexercises: seq<SubExercise>)

  /** A rated hand-in: its exercises and the fraction of the must-have points needed to pass it. */
  datatype RatedEntity = RatedEntity(id: string, exercises: seq<Exercise>, percentageNeeded: real)

  datatype PassedInformation = PassedInformation(passed: bool, achieved: real, total: PointInfo)

  // ---------------------------------------------------------------- exact JavaScript comparison

  /**
   * `a / b >= p` on JavaScript numbers without rounding: a division by zero gives +Infinity for a
   * positive numerator (which passes every finite bound), -Infinity for a negative one and NaN for
   * zero (neither of which passes).
   */
  predicate RatioAtLeast(a: real, b: real, p: real) {
    if b != 0.0 then a / b >= p else a > 0.0
  }

  /** With a positive divisor, the ratio test is the multiplied-out comparison. */
  lemma RatioAtLeastPositive(a: real, b: real, p: real)
    requires b > 0.0
    ensures RatioAtLeast(a, b, p) <==> a >= p * b
  {
    if a / b >= p {
      assert a == (a / b) * b;
      assert (a / b) * b >= p * b;
    } else {
      assert a == (a / b) * b;
      assert (a / b) * b < p * b;
    }
  }

  /** With a non-negative divisor, more achieved points never turn a pass into a failure. */
  lemma RatioAtLeastMonotone(a: real, a': real, b: real, p: real)
    requires 0.0 <= b && a <= a'
    requires RatioAtLeast(a, b, p)
    ensures RatioAtLeast(a', b, p)
  {
    if b > 0.0 {
      RatioAtLeastPositive(a, b, p);
      RatioAtLeastPositive(a', b, p);
    }
  }

  // ---------------------------------------------------------------- point splits

  /** The split of a sub-exercise (or of an exercise without sub-exercises): all bonus or all must-have. */
  function SubPointInfo(bonus: bool, maxPoints: real): (r: PointInfo)
    ensures r.must + r.bonus == maxPoints
    ensures bonus ==> r.must == 0.0 && r.bonus == maxPoints
    ensures !bonus ==> r.bonus == 0.0 && r.must == maxPoints
  {
    PointInfo(if bonus then 0.0 else maxPoints, if bonus then maxPoints else 0.0)
  }

  /** `reduce` over the sub-exercises: each one adds its maximum to the bonus or must-have side by its flag. */
  function SplitByFlag(subs: seq<SubExercise>): PointInfo {
    if subs == [] then PointInfo(0.0, 0.0)
    else
      var prev := SplitByFlag(subs[..|subs| - 1]);
      var current := subs[|subs| - 1];
      if current.bonus then prev.(bonus := current.maxPoints + prev.bonus)
      else prev.(must := current.maxPoints + prev.must)
  }

  /** The sum of the maxima of the sub-exercises whose bonus flag is `bonus`. */
  function SumMaxWhere(subs: seq<SubExercise>, bonus: bool): real {
    if subs == [] then 0.0
    else SumMaxWhere(subs[..|subs| - 1], bonus) + (if subs[|subs| - 1].bonus == bonus then subs[|subs| - 1].maxPoints else 0.0)
  }

  /** The sum of the maxima of all sub-exercises. */
  function SumMax(subs: seq<SubExercise>): real {
    if subs == [] then 0.0 else SumMax(subs[..|subs| - 1]) + subs[|subs| - 1].maxPoints
  }

  /** The fold by flag puts on each side exactly the maxima of the sub-exercises with that flag. */
  lemma {:induction false} SplitByFlagSums(subs: seq<SubExercise>)
    ensures SplitByFlag(subs) == PointInfo(SumMaxWhere(subs, false), SumMaxWhere(subs, true))
    ensures SumMaxWhere(subs, false) + SumMaxWhere(subs, true) == SumMax(subs)
  {
    if subs != [] {
      SplitByFlagSums(subs[..|subs| - 1]);
    }
  }

  /** The maximum points of an exercise, bonus or not: the sum over its sub-exercises if it has any, else its own. */
  function TotalPoints(e: Exercise): real {
    if |e.subexercises| > 0 then SumMax(e.subexercises) else e.maxPoints
  }

  /** The split of an exercise: its own by its flag without sub-exercises, else by each sub-exercise's flag. */
  function ExercisePointInfo(e: Exercise): (r: PointInfo)
    ensures r.must + r.bonus == TotalPoints(e)
    ensures |e.subexercises| > 0 ==>
      r.must == SumMaxWhere(e.subexercises, false) && r.bonus == SumMaxWhere(e.subexercises, true)
    ensures |e.subexercises| == 0 ==> r == SubPointInfo(e.bonus, e.maxPoints)
  {
    if |e.subexercises| == 0 then SubPointInfo(e.bonus, e.maxPoints)
    else
      SplitByFlagSums(e.subexercises);
      SplitByFlag(e.subexercises)
  }

  /** With sub-exercises, the exercise's own bonus flag and maximum play no part in its split. */
  lemma ExerciseOwnFlagIgnored(e: Exercise, bonus: bool, maxPoints: real)
    requires |e.subexercises| > 0
    ensures ExercisePointInfo(e.(bonus := bonus, maxPoints := maxPoints)) == ExercisePointInfo(e)
  {
  }

  /** The componentwise sum of the exercises' splits. */
  function HandInTotal(exs: seq<Exercise>): PointInfo {
    if exs == [] then PointInfo(0.0, 0.0)
    else
      var sum := HandInTotal(exs[..|exs| - 1]);
      var info := ExercisePointInfo(exs[|exs| - 1]);
      PointInfo(sum.must + info.must, sum.bonus + info.bonus)
  }

  function SumTotalPoints(exs: seq<Exercise>): real {
    if exs == [] then 0.0 else SumTotalPoints(exs[..|exs| - 1]) + TotalPoints(exs[|exs| - 1])
  }

  /** Together, the two sides of a hand-in's split are the maxima of all its exercises. */
  lemma {:induction false} HandInTotalSplitsAll(exs: seq<Exercise>)
    ensures HandInTotal(exs).must + HandInTotal(exs).bonus == SumTotalPoints(exs)
  {
    if exs != [] {
      HandInTotalSplitsAll(exs[..|exs| - 1]);
    }
  }

  /** The split of a hand-in made of two lists of exercises is the sum of their splits. */
  lemma {:induction false} HandInTotalConcat(a: seq<Exercise>, b: seq<Exercise>)
    ensures HandInTotal(a + b) == PointInfo(HandInTotal(a).must + HandInTotal(b).must, HandInTotal(a).bonus + HandInTotal(b).bonus)
    decreases |b|
  {
    if b == [] {
      assert a + b == a;
    } else {
      assert (a + b)[..|a + b| - 1] == a + b[..|b| - 1];
      HandInTotalConcat(a, b[..|b| - 1]);
    }
  }

  // ---------------------------------------------------------------- passing a rated hand-in

  /**
   * Whether the student passed the hand-in, given the student's grading for it: without a grading
   * the student failed with 0 points; with one, the grading's points over the must-have points are
   * compared with the percentage needed.
   */
  function GetPassedInformation(entity: RatedEntity, grading: Option<GradingEntity.Grading>): (r: PassedInformation)
    ensures r.total == HandInTotal(entity.exercises)
    ensures grading.None? ==> !r.passed && r.achieved == 0.0
    ensures grading.Some? ==> r.achieved == GradingEntity.Points(grading.value)
    ensures grading.Some? ==> (r.passed <==> RatioAtLeast(r.achieved, r.total.must, entity.percentageNeeded))
  {
    var total := HandInTotal(entity.exercises);
    match grading
    case None => PassedInformation(false, 0.0, total)
    case Some(g) =>
      var achieved := GradingEntity.Points(g);
      PassedInformation(RatioAtLeast(achieved, total.must, entity.percentageNeeded), achieved, total)
  }

  /** With must-have points, a graded student passes exactly when the points reach that share of them. */
  lemma PassedWithMustPoints(entity: RatedEntity, g: GradingEntity.Grading)
    requires HandInTotal(entity.exercises).must > 0.0
    ensures GetPassedInformation(entity, Some(g)).passed <==>
      GradingEntity.Points(g) >= entity.percentageNeeded * HandInTotal(entity.exercises).must
  {
    RatioAtLeastPositive(GradingEntity.Points(g), HandInTotal(entity.exercises).must, entity.percentageNeeded);
  }

  /** A hand-in without must-have points is passed by a graded student exactly when the grading has positive points. */
  lemma PassedWithoutMustPoints(entity: RatedEntity, g: GradingEntity.Grading)
    requires HandInTotal(entity.exercises).must == 0.0
    ensures GetPassedInformation(entity, Some(g)).passed <==> GradingEntity.Points(g) > 0.0
  {
  }
}
