/**
 * The TypeScript team service: the number a new team gets, the check that all students of a team
 * are in its tutorial, and handing one grading to every team member without a grading for the
 * hand-in. Teams and students are given by the values the service reads from them.
 */
module TeamService {
  import opened Wrappers

  /** The numbers 1..n. */
  ghost function Range(n: nat): (r: set<int>)
    ensures |r| == n
    ensures forall i :: i in r <==> 1 <= i <= n
  {
    if n == 0 then {} else
      var r := Range(n - 1) + {n};
      assert n !in Range(n - 1);
      r
  }

  /** A sequence has no more distinct elements than entries. */
  lemma {:induction false} DistinctAtMostLength(s: seq<int>)
    ensures |set x | x in s| <= |s|
  {
    if s != [] {
      var init := s[..|s| - 1];
      DistinctAtMostLength(init);
      assert (set x | x in s) == (set x | x in init) + {s[|s| - 1]};
    }
  }

  /** When n teams use every number 1..n, none of them uses n + 1. */
  lemma AllUsedLeavesNext(teamNos: seq<int>)
    requires forall j :: 1 <= j <= |teamNos| ==> j in teamNos
    ensures |teamNos| + 1 !in teamNos
  {
    if |teamNos| + 1 in teamNos {
      var used := set x | x in teamNos;
      assert Range(|teamNos| + 1) <= used;
      DistinctAtMostLength(teamNos);
      SubsetCardinality(Range(|teamNos| + 1), used);
      assert false;
    }
  }

  lemma SubsetCardinality(a: set<int>, b: set<int>)
    requires a <= b
    ensures |a| <= |b|
  {
    assert b == a + (b - a);
    assert a * (b - a) == {};
  }

  /**
   * The number of a new team in a tutorial whose teams have the numbers `teamNos`: the smallest
   * number from 1 on that no team uses, filling holes first.
   */
  method FirstAvailableTeamNo(teamNos: seq<int>) returns (teamNo: int)
    ensures 1 <= teamNo <= |teamNos| + 1
    ensures teamNo !in teamNos
    ensures forall j :: 1 <= j < teamNo ==> j in teamNos
  {
    var i := 1;
    while i <= |teamNos|
      invariant 1 <= i <= |teamNos| + 1
      invariant forall j :: 1 <= j < i ==> j in teamNos
    {
      var isTeamNoInUse := false;
      for k := 0 to |teamNos|
        invariant isTeamNoInUse <==> i in teamNos[..k]
      {
        assert teamNos[..k + 1] == teamNos[..k] + [teamNos[k]];
        if teamNos[k] == i {
          isTeamNoInUse := true;
          break;
        }
      }
      assert teamNos[..|teamNos|] == teamNos;
      if !isTeamNoInUse {
        return i;
      }
      i := i + 1;
    }
    AllUsedLeavesNext(teamNos);
    return |teamNos| + 1;
  }

  const NotSameTutorialMessage := "All students in a team must be in the same tutorial."

  /** Accepts the students (given by their tutorials) only when every one is in `tutorialId`. */
  method AssertAllStudentsInSameTutorial(tutorialId: string, tutorialsOfStudents: seq<string>) returns (r: Result<(), string>)
    ensures r.Ok? <==> forall i :: 0 <= i < |tutorialsOfStudents| ==> tutorialsOfStudents[i] == tutorialId
    ensures r.Err? ==> r.error == NotSameTutorialMessage
  {
    if |tutorialsOfStudents| == 0 {
      return Ok(());
    }
    for i := 0 to |tutorialsOfStudents|
      invariant forall k :: 0 <= k < i ==> tutorialsOfStudents[k] == tutorialId
    {
      if tutorialsOfStudents[i] != tutorialId {
        return Err(NotSameTutorialMessage);
      }
    }
    return Ok(());
  }

  /** A team member: the student's id and the hand-ins the student has a grading for. */
  datatype Member = Member(id: string, gradedHandIns: set<string>)

  /** The ids of the members without a grading for the hand-in, in team order. */
  function Ungraded(members: seq<Member>, handInId: string): seq<string> {
    if members == [] then []
    else
      var last := members[|members| - 1];
      Ungraded(members[..|members| - 1], handInId) + (if handInId in last.gradedHandIns then [] else [last.id])
  }

  /** A member's id is listed exactly when some member with that id has no grading for the hand-in. */
  lemma {:induction false} UngradedExactly(members: seq<Member>, handInId: string, id: string)
    ensures id in Ungraded(members, handInId) <==>
      exists i :: 0 <= i < |members| && members[i].id == id && handInId !in members[i].gradedHandIns
  {
    if members != [] {
      var init := members[..|members| - 1];
      UngradedExactly(init, handInId, id);
      if exists i :: 0 <= i < |members| && members[i].id == id && handInId !in members[i].gradedHandIns {
        var i :| 0 <= i < |members| && members[i].id == id && handInId !in members[i].gradedHandIns;
        if i < |init| {
          assert init[i] == members[i];
        }
      }
      if id in Ungraded(init, handInId) {
        var i :| 0 <= i < |init| && init[i].id == id && handInId !in init[i].gradedHandIns;
        assert members[i] == init[i];
      }
    }
  }

  /**
   * Gives the grading (whose students are `gradingStudents`) to every member without a grading for
   * the hand-in; members with one keep theirs. The grading is saved only when it has students.
   */
  method SetGrading(members: seq<Member>, handInId: string, gradingStudents: seq<string>) returns (students: seq<string>, saved: bool)
    ensures students == gradingStudents + Ungraded(members, handInId)
    ensures saved <==> |students| != 0
  {
    students := gradingStudents;
    for k := 0 to |members|
      invariant students == gradingStudents + Ungraded(members[..k], handInId)
    {
      assert members[..k + 1][..k] == members[..k];
      if handInId !in members[k].gradedHandIns {
        students := students + [members[k].id];
      }
    }
    assert members[..|members|] == members;
    saved := |students| != 0;
  }
}
