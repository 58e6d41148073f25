/**
 * The student entity of the TypeScript server: its attendances (at most one per day), its
 * gradings (at most one per hand-in) and its presentation points per hand-in.
 */
module StudentEntity {
  import opened Wrappers
  import opened GradingEntity

  /** An attendance on a day (dates are day numbers). */
  datatype Attendance = Attendance(day: int, state: Option<string>, note: Option<string>)

  datatype StudentStatus = Active | Inactive | NoScheinRequired

  /** The position of the first attendance on `day`, or -1. */
  function IndexOfDay(attendances: seq<Attendance>, day: int): (r: int)
    ensures -1 <= r < |attendances|
    ensures r >= 0 ==> attendances[r].day == day && forall i :: 0 <= i < r ==> attendances[i].day != day
    ensures r == -1 <==> forall i :: 0 <= i < |attendances| ==> attendances[i].day != day
  {
    if attendances == [] then -1
    else
      var r := IndexOfDay(attendances[1..], day);
      if attendances[0].day == day then 0 else if r == -1 then -1 else r + 1
  }

  /**
   * The first `k` gradings were compared with the target without an error and none matched: each
   * of them and the target refer to exactly one hand-in, and the hand-ins differ.
   */
  ghost predicate ScannedClean(gradings: seq<Grading>, target: Result<string, GradingError>, k: nat)
    requires k <= |gradings|
  {
    forall i :: 0 <= i < k ==> EntityId(gradings[i]).Ok? && target.Ok? && EntityId(gradings[i]) != target
  }

  /**
   * The search for the grading of the hand-in `target` names: the position of the first grading
   * whose hand-in is the target, or -1. Each comparison reads the hand-in of the stored grading
   * first and then the target, and either read fails for a grading that does not refer to exactly
   * one hand-in; so an empty list gives -1 whatever the target.
   */
  function IndexOfEntity(gradings: seq<Grading>, target: Result<string, GradingError>): (r: Result<int, GradingError>)
    ensures r.Ok? ==> -1 <= r.value < |gradings|
  {
    if gradings == [] then Ok(-1)
    else if EntityId(gradings[0]).Err? then Err(EntityId(gradings[0]).error)
    else if target.Err? then Err(target.error)
    else if EntityId(gradings[0]) == target then Ok(0)
    else
      match IndexOfEntity(gradings[1..], target)
      case Err(e) => Err(e)
      case Ok(j) => Ok(if j == -1 then -1 else j + 1)
  }

  /**
   * The search finds position `k` exactly when the gradings before it compare cleanly and differ
   * from the target and grading `k` is for the target; it gives -1 exactly when every grading
   * compares cleanly and differs; it fails with the error of the first grading that does not
   * refer to exactly one hand-in, or with the target's error, at the first comparison that reads it.
   */
  lemma {:induction false} IndexOfEntitySpec(gradings: seq<Grading>, target: Result<string, GradingError>)
    ensures var r := IndexOfEntity(gradings, target);
      r.Ok? && r.value >= 0 ==> ScannedClean(gradings, target, r.value) && EntityId(gradings[r.value]) == target
    ensures IndexOfEntity(gradings, target) == Ok(-1) <==> ScannedClean(gradings, target, |gradings|)
    ensures var r := IndexOfEntity(gradings, target);
      r.Err? ==> exists k :: (0 <= k < |gradings| && ScannedClean(gradings, target, k) &&
        ((EntityId(gradings[k]).Err? && r.error == EntityId(gradings[k]).error) ||
         (EntityId(gradings[k]).Ok? && target.Err? && r.error == target.error)))
  {
    if gradings != [] {
      var rest := gradings[1..];
      IndexOfEntitySpec(rest, target);
      var r := IndexOfEntity(gradings, target);
      if EntityId(gradings[0]).Err? || target.Err? {
        assert ScannedClean(gradings, target, 0);
        assert !ScannedClean(gradings, target, |gradings|);
      } else if EntityId(gradings[0]) == target {
        assert !ScannedClean(gradings, target, |gradings|);
      } else {
        assert forall k :: 0 <= k < |rest| ==> (ScannedClean(rest, target, k) <==> ScannedClean(gradings, target, k + 1));
        var q := IndexOfEntity(rest, target);
        if q.Err? {
          var k :| 0 <= k < |rest| && ScannedClean(rest, target, k) &&
            EntityId(rest[k]).Err? && q.error == EntityId(rest[k]).error;
          assert gradings[k + 1] == rest[k];
        } else if q.value >= 0 {
          assert gradings[q.value + 1] == rest[q.value];
          assert !ScannedClean(gradings, target, |gradings|);
        } else {
          assert ScannedClean(rest, target, |rest|);
        }
      }
    }
  }

  /** Past gradings that compare cleanly and differ from the target, the search goes on where they end. */
  lemma {:induction false} IndexOfEntitySkip(gradings: seq<Grading>, target: Result<string, GradingError>, i: nat)
    requires i <= |gradings| && ScannedClean(gradings, target, i)
    ensures IndexOfEntity(gradings, target) ==
      match IndexOfEntity(gradings[i..], target)
      case Err(e) => Err(e)
      case Ok(j) => Ok(if j == -1 then -1 else j + i)
  {
    if i > 0 {
      var rest := gradings[1..];
      assert rest[i - 1..] == gradings[i..];
      IndexOfEntitySkip(rest, target, i - 1);
    } else {
      assert gradings[0..] == gradings;
    }
  }

  /** With an invalid grading to save and some grading stored, the search fails at its first comparison. */
  lemma InvalidTargetFails(gradings: seq<Grading>, g: Grading)
    requires |gradings| > 0 && EntityId(g).Err?
    ensures IndexOfEntity(gradings, EntityId(g)).Err?
  {
  }

  /** The attendances after saving `a`: it replaces the attendance on its day, or it is appended. */
  function WithAttendance(attendances: seq<Attendance>, a: Attendance): seq<Attendance> {
    var i := IndexOfDay(attendances, a.day);
    if i == -1 then attendances + [a] else attendances[i := a]
  }

  /**
   * The gradings after saving `g`: it replaces the grading for its hand-in, or it is appended;
   * the search's error when a comparison fails.
   */
  function WithGrading(gradings: seq<Grading>, g: Grading): Result<seq<Grading>, GradingError> {
    match IndexOfEntity(gradings, EntityId(g))
    case Err(e) => Err(e)
    case Ok(i) => Ok(if i == -1 then gradings + [g] else gradings[i := g])
  }

  ghost predicate OnePerDay(attendances: seq<Attendance>) {
    forall i, j :: 0 <= i < j < |attendances| ==> attendances[i].day != attendances[j].day
  }

  ghost predicate OnePerHandIn(gradings: seq<Grading>) {
    forall i, j :: 0 <= i < j < |gradings| ==> EntityId(gradings[i]) != EntityId(gradings[j])
  }

  /** Saving an attendance keeps one attendance per day; afterwards the day's attendance is the saved one and the other days keep theirs. */
  lemma WithAttendanceKeepsOnePerDay(attendances: seq<Attendance>, a: Attendance)
    requires OnePerDay(attendances)
    ensures OnePerDay(WithAttendance(attendances, a))
    ensures FindOnDay(WithAttendance(attendances, a), a.day) == Some(a)
    ensures forall d :: d != a.day ==> FindOnDay(WithAttendance(attendances, a), d) == FindOnDay(attendances, d)
  {
    WithAttendanceSavesDay(attendances, a);
    forall d | d != a.day
      ensures FindOnDay(WithAttendance(attendances, a), d) == FindOnDay(attendances, d)
    {
      WithAttendanceKeepsOtherDay(attendances, a, d);
    }
  }

  lemma WithAttendanceSavesDay(attendances: seq<Attendance>, a: Attendance)
    requires OnePerDay(attendances)
    ensures OnePerDay(WithAttendance(attendances, a))
    ensures FindOnDay(WithAttendance(attendances, a), a.day) == Some(a)
  {
    var r := WithAttendance(attendances, a);
    var i := IndexOfDay(attendances, a.day);
    if i == -1 {
      assert r[|attendances|] == a;
      assert IndexOfDay(r, a.day) == |attendances|;
    } else {
      assert r[i] == a;
      assert IndexOfDay(r, a.day) == i;
    }
  }

  lemma WithAttendanceKeepsOtherDay(attendances: seq<Attendance>, a: Attendance, d: int)
    requires d != a.day
    ensures FindOnDay(WithAttendance(attendances, a), d) == FindOnDay(attendances, d)
  {
    var r := WithAttendance(attendances, a);
    var j := IndexOfDay(attendances, d);
    if j >= 0 {
      assert r[j] == attendances[j];
    }
  }

  /** Saving a grading that succeeds keeps at most one grading per hand-in. */
  lemma WithGradingKeepsOnePerHandIn(gradings: seq<Grading>, g: Grading)
    requires OnePerHandIn(gradings) && WithGrading(gradings, g).Ok?
    ensures OnePerHandIn(WithGrading(gradings, g).value)
  {
    var t := EntityId(g);
    IndexOfEntitySpec(gradings, t);
    var r := WithGrading(gradings, g).value;
    var i := IndexOfEntity(gradings, t).value;
    if i == -1 {
      assert r == gradings + [g];
      assert forall k :: 0 <= k < |gradings| ==> EntityId(r[k]) != EntityId(r[|gradings|]);
    } else {
      assert r == gradings[i := g];
      assert EntityId(r[i]) == EntityId(gradings[i]);
    }
  }

  /** After saving a grading with a valid hand-in, the search for that hand-in finds the saved grading. */
  lemma WithGradingSavesHandIn(gradings: seq<Grading>, g: Grading)
    requires WithGrading(gradings, g).Ok? && EntityId(g).Ok?
    ensures var r := WithGrading(gradings, g).value;
      IndexOfEntity(r, EntityId(g)).Ok? && IndexOfEntity(r, EntityId(g)).value >= 0 &&
      r[IndexOfEntity(r, EntityId(g)).value] == g
  {
    var t := EntityId(g);
    IndexOfEntitySpec(gradings, t);
    var r := WithGrading(gradings, g).value;
    var i := IndexOfEntity(gradings, t).value;
    if i == -1 {
      assert r == gradings + [g];
      assert ScannedClean(r, t, |gradings|);
      IndexOfEntitySkip(r, t, |gradings|);
      assert r[|gradings|..] == [g];
    } else {
      assert r == gradings[i := g];
      assert ScannedClean(r, t, i);
      IndexOfEntitySkip(r, t, i);
      assert r[i..][0] == g;
    }
  }

  /** An empty list takes even a grading without a valid hand-in; a non-empty one refuses such a grading. */
  lemma WithGradingOfInvalid(gradings: seq<Grading>, g: Grading)
    ensures WithGrading([], g) == Ok([g])
    ensures |gradings| > 0 && EntityId(g).Err? ==> WithGrading(gradings, g).Err?
  {
    assert [] + [g] == [g];
    if |gradings| > 0 && EntityId(g).Err? {
      InvalidTargetFails(gradings, g);
    }
  }

  /** The attendance on a day, if there is one. */
  function FindOnDay(attendances: seq<Attendance>, day: int): (r: Option<Attendance>)
    ensures r.Some? <==> exists i :: 0 <= i < |attendances| && attendances[i].day == day
    ensures r.Some? ==> r.value.day == day && r.value in attendances
  {
    var i := IndexOfDay(attendances, day);
    if i == -1 then None else Some(attendances[i])
  }

  class Student {
    const id: string
    var firstname: string
    var lastname: string
    var matriculationNo: Option<string>
    var status: StudentStatus
    var tutorial: string
    var cakeCount: int
    var gradings: seq<Grading>
    var presentationPoints: map<string, real>
    var attendances: seq<Attendance>

    ghost predicate Valid()
      reads this
    {
      OnePerDay(attendances) && OnePerHandIn(gradings)
    }

    /** A new student has no attendances, gradings or presentation points, and no cake yet. */
    constructor(id: string, firstname: string, lastname: string, matriculationNo: Option<string>, status: StudentStatus, tutorial: string)
      ensures Valid()
      ensures this.id == id && this.firstname == firstname && this.lastname == lastname
      ensures this.matriculationNo == matriculationNo && this.status == status && this.tutorial == tutorial
      ensures cakeCount == 0 && gradings == [] && presentationPoints == map[] && attendances == []
    {
      this.id := id;
      this.firstname := firstname;
      this.lastname := lastname;
      this.matriculationNo := matriculationNo;
      this.status := status;
      this.tutorial := tutorial;
      cakeCount := 0;
      gradings := [];
      presentationPoints := map[];
      attendances := [];
    }

    /** Saves an attendance, replacing the attendance on the same day if there is one. */
    method SetAttendance(a: Attendance)
      requires Valid()
      modifies this
      ensures Valid()
      ensures attendances == WithAttendance(old(attendances), a)
      ensures gradings == old(gradings) && presentationPoints == old(presentationPoints)
      ensures firstname == old(firstname) && lastname == old(lastname) && matriculationNo == old(matriculationNo)
      ensures status == old(status) && tutorial == old(tutorial) && cakeCount == old(cakeCount)
    {
      WithAttendanceKeepsOnePerDay(attendances, a);
      var index := IndexOfDay(attendances, a.day);
      if index == -1 {
        attendances := attendances + [a];
      } else {
        attendances := attendances[index := a];
      }
    }

    /** The attendance on a day, if there is one. */
    function GetAttendance(day: int): (r: Option<Attendance>)
      reads this
      ensures r == FindOnDay(attendances, day)
    {
      FindOnDay(attendances, day)
    }

    /**
     * Saves a grading, replacing the grading for the same hand-in if there is one; a comparison
     * with a grading that does not refer to exactly one hand-in is an error and saves nothing.
     */
    method SetGrading(g: Grading) returns (r: Result<(), GradingError>)
      requires Valid()
      modifies this
      ensures Valid()
      ensures r.Ok? <==> WithGrading(old(gradings), g).Ok?
      ensures r.Ok? ==> gradings == WithGrading(old(gradings), g).value
      ensures r.Err? ==> r.error == WithGrading(old(gradings), g).error && gradings == old(gradings)
      ensures attendances == old(attendances) && presentationPoints == old(presentationPoints)
      ensures firstname == old(firstname) && lastname == old(lastname) && matriculationNo == old(matriculationNo)
      ensures status == old(status) && tutorial == old(tutorial) && cakeCount == old(cakeCount)
    {
      var index := GetIndexOfGradingForSameEntity(g);
      if index.Err? {
        return Err(index.error);
      }
      WithGradingKeepsOnePerHandIn(gradings, g);
      if index.value == -1 {
        gradings := gradings + [g];
      } else {
        gradings := gradings[index.value := g];
      }
      r := Ok(());
    }

    /**
     * The position of the grading for the same hand-in as `g`, or -1; reading the hand-in of a
     * stored grading, then of `g`, fails for a grading that does not refer to exactly one.
     */
    method GetIndexOfGradingForSameEntity(g: Grading) returns (index: Result<int, GradingError>)
      ensures index == IndexOfEntity(gradings, EntityId(g))
    {
      for i := 0 to |gradings|
        invariant ScannedClean(gradings, EntityId(g), i)
      {
        IndexOfEntitySkip(gradings, EntityId(g), i);
        assert gradings[i..][0] == gradings[i];
        var grad := EntityId(gradings[i]);
        if grad.Err? {
          return Err(grad.error);
        }
        var own := EntityId(g);
        if own.Err? {
          return Err(own.error);
        }
        if grad == own {
          return Ok(i);
        }
      }
      IndexOfEntitySkip(gradings, EntityId(g), |gradings|);
      return Ok(-1);
    }

    /**
     * The grading for a hand-in, if there is one: the first stored grading whose hand-in it is;
     * reading the hand-in of a stored grading before that fails for one that does not refer to
     * exactly one hand-in.
     */
    method GetGrading(handInId: string) returns (r: Result<Option<Grading>, GradingError>)
      ensures r.Err? <==> IndexOfEntity(gradings, Ok(handInId)).Err?
      ensures r.Err? ==> r.error == IndexOfEntity(gradings, Ok(handInId)).error
      ensures r == Ok(None) <==> IndexOfEntity(gradings, Ok(handInId)) == Ok(-1)
      ensures r.Ok? && r.value.Some? ==>
        (IndexOfEntity(gradings, Ok(handInId)).Ok? && IndexOfEntity(gradings, Ok(handInId)).value >= 0 &&
         r.value.value == gradings[IndexOfEntity(gradings, Ok(handInId)).value] &&
         EntityId(r.value.value) == Ok(handInId))
    {
      IndexOfEntitySpec(gradings, Ok(handInId));
      for i := 0 to |gradings|
        invariant ScannedClean(gradings, Ok(handInId), i)
      {
        IndexOfEntitySkip(gradings, Ok(handInId), i);
        assert gradings[i..][0] == gradings[i];
        var grad := EntityId(gradings[i]);
        if grad.Err? {
          return Err(grad.error);
        }
        if grad == Ok(handInId) {
          return Ok(Some(gradings[i]));
        }
      }
      IndexOfEntitySkip(gradings, Ok(handInId), |gradings|);
      return Ok(None);
    }

    /** Saves the presentation points of a hand-in, replacing earlier ones. */
    method SetPresentationPoints(handInId: string, points: real)
      modifies this
      ensures presentationPoints == old(presentationPoints)[handInId := points]
      ensures attendances == old(attendances) && gradings == old(gradings)
      ensures firstname == old(firstname) && lastname == old(lastname) && matriculationNo == old(matriculationNo)
      ensures status == old(status) && tutorial == old(tutorial) && cakeCount == old(cakeCount)
    {
      presentationPoints := presentationPoints[handInId := points];
    }

    /** The presentation points of a hand-in, if there are any. */
    function GetPresentationPoints(handInId: string): (r: Option<real>)
      reads this
      ensures r.Some? <==> handInId in presentationPoints
      ensures r.Some? ==> r.value == presentationPoints[handInId]
    {
      if handInId in presentationPoints then Some(presentationPoints[handInId]) else None
    }
  }

  /** After saving presentation points for a hand-in, reading them back gives those points; other hand-ins keep theirs. */
  lemma PresentationPointsGetAfterSet(m: map<string, real>, handInId: string, points: real, other: string)
    requires other != handInId
    ensures handInId in m[handInId := points] && m[handInId := points][handInId] == points
    ensures (other in m[handInId := points]) == (other in m)
    ensures other in m ==> m[handInId := points][other] == m[other]
  {
  }
}
