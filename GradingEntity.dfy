/**
 * The grading entity of the server: the points a student (or a team) got for one hand-in, which
 * is exactly one of a sheet, an exam or a short test. Hand-ins and students are referred to by id.
 */
module GradingEntity {
  import opened Wrappers

  /** The points given for one exercise of the hand-in. */
  datatype ExerciseGrading = ExerciseGrading(
    exerciseId: string,
    points: real,
    subExercisePoints: map<string, real>,
    comment: Option<string>,
    additionalPoints: Option<real>)

  /** The two errors the hand-in check raises. */
  datatype GradingError = MultipleHandIns | NoHandIn

  /** A grading with the ids of the sheet, exam and short test it may belong to, and its students. */
  datatype Grading = Grading(
    id: string,
    additionalPoints: Option<real>,
    comment: Option<string>,
    exerciseGradings: seq<ExerciseGrading>,
    sheet: Option<string>,
    exam: Option<string>,
    shortTest: Option<string>,
    students: seq<string>)

  /** Exactly one of the three hand-in references is set. */
  predicate ExactlyOneHandIn(sheet: Option<string>, exam: Option<string>, shortTest: Option<string>) {
    (sheet.Some? && exam.None? && shortTest.None?) ||
    (sheet.None? && exam.Some? && shortTest.None?) ||
    (sheet.None? && exam.None? && shortTest.Some?)
  }

  function Present(o: Option<string>): nat { if o.Some? then 1 else 0 }

  /** The check that a grading refers to a valid set of hand-ins: two or more, or none, is an error. */
  function CheckHandIns(sheet: Option<string>, exam: Option<string>, shortTest: Option<string>): (r: Result<(), GradingError>)
    ensures r.Ok? <==> ExactlyOneHandIn(sheet, exam, shortTest)
    ensures r == Err(MultipleHandIns) <==>
      (sheet.Some? && exam.Some?) || (sheet.Some? && shortTest.Some?) || (exam.Some? && shortTest.Some?)
    ensures r == Err(NoHandIn) <==> sheet.None? && exam.None? && shortTest.None?
  {
    var count := Present(sheet) + Present(exam) + Present(shortTest);
    if count >= 2 then Err(MultipleHandIns)
    else if count == 0 then Err(NoHandIn)
    else Ok(())
  }

  /** A new grading for the given hand-in: no exercise gradings, no students, no additional points beyond 0. */
  function NewGrading(id: string, sheet: Option<string>, exam: Option<string>, shortTest: Option<string>): (r: Result<Grading, GradingError>)
    ensures r.Ok? <==> ExactlyOneHandIn(sheet, exam, shortTest)
    ensures r.Err? ==> CheckHandIns(sheet, exam, shortTest) == Err(r.error)
    ensures r.Ok? ==> r.value.sheet == sheet && r.value.exam == exam && r.value.shortTest == shortTest
    ensures r.Ok? ==> r.value.id == id && r.value.exerciseGradings == [] && r.value.students == []
    ensures r.Ok? ==> r.value.additionalPoints == Some(0.0)
  {
    var g := Grading(id, Some(0.0), None, [], sheet, exam, shortTest, []);
    match CheckHandIns(sheet, exam, shortTest)
    case Err(e) => Err(e)
    case Ok(_) => Ok(g)
  }

  /** The id of the hand-in the grading belongs to, after checking the grading refers to exactly one. */
  function EntityId(g: Grading): (r: Result<string, GradingError>)
    ensures r.Ok? <==> ExactlyOneHandIn(g.sheet, g.exam, g.shortTest)
    ensures r.Err? ==> CheckHandIns(g.sheet, g.exam, g.shortTest) == Err(r.error)
    ensures r.Ok? ==> g.sheet == Some(r.value) || g.exam == Some(r.value) || g.shortTest == Some(r.value)
  {
    match CheckHandIns(g.sheet, g.exam, g.shortTest)
    case Err(e) => Err(e)
    case Ok(_) =>
      if g.sheet.Some? then Ok(g.sheet.value)
      else if g.exam.Some? then Ok(g.exam.value)
      else Ok(g.shortTest.value)
  }

  /** A grading that could be constructed reports the id of the hand-in it was constructed for. */
  lemma NewGradingEntityId(id: string, sheet: Option<string>, exam: Option<string>, shortTest: Option<string>)
    requires NewGrading(id, sheet, exam, shortTest).Ok?
    ensures var handIn := if sheet.Some? then sheet.value else if exam.Some? then exam.value else shortTest.value;
      EntityId(NewGrading(id, sheet, exam, shortTest).value) == Ok(handIn)
  {
  }

  /** The sum of the exercise gradings' points, accumulated from the first to the last. */
  function SumPoints(gs: seq<ExerciseGrading>): real {
    if gs == [] then 0.0 else SumPoints(gs[..|gs| - 1]) + gs[|gs| - 1].points
  }

  /** The grading's points: the additional points (0 when unset) plus the points of every exercise grading. */
  function Points(g: Grading): real {
    (if g.additionalPoints.Some? then g.additionalPoints.value else 0.0) + SumPoints(g.exerciseGradings)
  }

  lemma {:induction false} SumPointsConcat(a: seq<ExerciseGrading>, b: seq<ExerciseGrading>)
    ensures SumPoints(a + b) == SumPoints(a) + SumPoints(b)
    decreases |b|
  {
    if b != [] {
      assert (a + b)[..|a + b| - 1] == a + b[..|b| - 1];
      SumPointsConcat(a, b[..|b| - 1]);
    } else {
      assert a + b == a;
    }
  }

  /** The sum does not depend on the order of the exercise gradings. */
  lemma {:induction false} SumPointsPermutation(a: seq<ExerciseGrading>, b: seq<ExerciseGrading>)
    requires multiset(a) == multiset(b)
    ensures SumPoints(a) == SumPoints(b)
    decreases |a|
  {
    if a != [] {
      var x := a[|a| - 1];
      assert x in multiset(b) by { assert x in multiset(a); }
      var i :| 0 <= i < |b| && b[i] == x;
      var rest := b[..i] + b[i + 1..];
      assert b == b[..i] + [x] + b[i + 1..];
      assert a == a[..|a| - 1] + [x];
      assert multiset(a[..|a| - 1]) == multiset(a) - multiset{x};
      assert multiset(rest) == multiset(b) - multiset{x} by {
        assert multiset(b) == multiset(b[..i]) + multiset{x} + multiset(b[i + 1..]);
      }
      SumPointsPermutation(a[..|a| - 1], rest);
      SumPointsConcat(b[..i] + [x], b[i + 1..]);
      SumPointsConcat(b[..i], [x]);
      SumPointsConcat(b[..i], b[i + 1..]);
      assert SumPoints([x]) == x.points by { assert [x][..0] == []; }
    }
  }

  /** Recording one more exercise grading raises the grading's points by exactly its points. */
  lemma PointsAddExercise(g: Grading, eg: ExerciseGrading)
    ensures Points(g.(exerciseGradings := g.exerciseGradings + [eg])) == Points(g) + eg.points
  {
    assert (g.exerciseGradings + [eg])[..|g.exerciseGradings|] == g.exerciseGradings;
  }

  /** A grading belongs to a team when it is shared by more than one student. */
  function BelongsToTeam(g: Grading): (r: bool)
    ensures r <==> |g.students| >= 2
  {
    |g.students| > 1
  }

  /** With distinct student ids, a grading belongs to a team exactly when two different students share it. */
  lemma TeamGradingIsShared(g: Grading)
    requires forall i, j :: 0 <= i < j < |g.students| ==> g.students[i] != g.students[j]
    ensures BelongsToTeam(g) <==> exists a, b :: a != b && BelongsToStudent(g, a) && BelongsToStudent(g, b)
  {
    if BelongsToTeam(g) {
      assert BelongsToStudent(g, g.students[0]) && BelongsToStudent(g, g.students[1]);
    }
  }

  /** `findIndex`: the first position of `x` in `s`, or -1. */
  function IndexOf(s: seq<string>, x: string): (r: int)
    ensures -1 <= r
    ensures r == -1 <==> x !in s
    ensures 0 <= r ==> r < |s| && s[r] == x && x !in s[..r]
  {
    if s == [] then -1
    else if s[0] == x then 0
    else
      var k := IndexOf(s[1..], x);
      assert s[1..] == s[1..][..|s| - 1];
      if k == -1 then -1
      else
        assert s[..k + 1] == [s[0]] + s[1..][..k];
        k + 1
  }

  /** Whether the given student is one of the grading's students. */
  function BelongsToStudent(g: Grading, student: string): (r: bool)
    ensures r <==> student in g.students
  {
    IndexOf(g.students, student) != -1
  }

  /** `find`: the first exercise grading for the given exercise, if any. */
  function GetExerciseGrading(gs: seq<ExerciseGrading>, exerciseId: string): (r: Option<ExerciseGrading>)
    ensures r.None? <==> forall i :: 0 <= i < |gs| ==> gs[i].exerciseId != exerciseId
    ensures r.Some? ==> exists i :: (0 <= i < |gs| && gs[i] == r.value && r.value.exerciseId == exerciseId &&
      forall j :: 0 <= j < i ==> gs[j].exerciseId != exerciseId)
  {
    if gs == [] then None
    else if gs[0].exerciseId == exerciseId then assert gs[0] == gs[0]; Some(gs[0])
    else
      var r := GetExerciseGrading(gs[1..], exerciseId);
      if r.Some? then
        var i :| 0 <= i < |gs[1..]| && gs[1..][i] == r.value && r.value.exerciseId == exerciseId &&
          forall j :: 0 <= j < i ==> gs[1..][j].exerciseId != exerciseId;
        assert gs[i + 1] == r.value;
        r
      else
        assert forall i :: 1 <= i < |gs| ==> gs[i] == gs[1..][i - 1];
        r
  }

  /** What the grading sends to the client: its exercise gradings keyed by exercise id. */
  datatype GradingDTO = GradingDTO(
    id: string,
    points: real,
    additionalPoints: Option<real>,
    comment: Option<string>,
    belongsToTeam: bool,
    exerciseGradings: map<string, ExerciseGrading>)

  /**
   * Converts the grading for the client. Exercise gradings are keyed by their exercise id; when
   * two of them share an id, the later one is kept.
   */
  method ToDTO(g: Grading) returns (dto: GradingDTO)
    ensures dto.id == g.id && dto.points == Points(g) && dto.belongsToTeam == BelongsToTeam(g)
    ensures dto.additionalPoints == g.additionalPoints && dto.comment == g.comment
    ensures forall id :: id in dto.exerciseGradings <==> exists i :: 0 <= i < |g.exerciseGradings| && g.exerciseGradings[i].exerciseId == id
    ensures forall id :: id in dto.exerciseGradings ==> exists i :: (0 <= i < |g.exerciseGradings| &&
      g.exerciseGradings[i] == dto.exerciseGradings[id] && g.exerciseGradings[i].exerciseId == id &&
      forall j :: i < j < |g.exerciseGradings| ==> g.exerciseGradings[j].exerciseId != id)
  {
    var gs := g.exerciseGradings;
    var byId: map<string, ExerciseGrading> := map[];
    for k := 0 to |gs|
      invariant forall id :: id in byId <==> exists i :: 0 <= i < k && gs[i].exerciseId == id
      invariant forall id :: id in byId ==> exists i :: (0 <= i < k &&
        gs[i] == byId[id] && gs[i].exerciseId == id && forall j :: i < j < k ==> gs[j].exerciseId != id)
    {
      byId := byId[gs[k].exerciseId := gs[k]];
    }
    dto := GradingDTO(g.id, Points(g), g.additionalPoints, g.comment, BelongsToTeam(g), byId);
  }
}
