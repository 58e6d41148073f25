/**
 * The shortened matriculation number of the students' admin view: the shortest ending of a
 * student's number that no other student's number has at the same positions, padded with '*' to
 * seven characters; the full number when no shorter ending is unique.
 */
module StudentsAdminView {
  import opened Wrappers
  import opened JsStrings

  /** A row of the view: a student's id and matriculation number. */
  datatype StudentRow = StudentRow(id: string, matriculationNo: string)

  /** JavaScript's `s.padStart(width, c)`: `s` with `c` in front up to `width` characters. */
  function PadStart(s: string, width: nat, c: char): (r: string)
    ensures |r| == if |s| >= width then |s| else width
    ensures r[|r| - |s|..] == s
    ensures forall i :: 0 <= i < |r| - |s| ==> r[i] == c
  {
    if |s| >= width then s else seq(width - |s|, _ => c) + s
  }

  /** The rows of every student other than the one with `id`, in order. */
  function Others(students: seq<StudentRow>, id: string): (r: seq<StudentRow>)
    ensures forall j :: 0 <= j < |r| ==> r[j].id != id
  {
    if students == [] then []
    else
      var last := students[|students| - 1];
      Others(students[..|students| - 1], id) + (if last.id != id then [last] else [])
  }

  /** The others are exactly the students with another id: the student itself is never compared. */
  lemma {:induction false} OthersExactly(students: seq<StudentRow>, id: string, s: StudentRow)
    ensures s in Others(students, id) <==> s in students && s.id != id
  {
    if students != [] {
      var init := students[..|students| - 1];
      OthersExactly(init, id, s);
      assert students == init + [students[|students| - 1]];
    }
  }

  /** The last `length` characters of `no` are shared by none of `others` at the same positions. */
  predicate Unique(no: string, others: seq<StudentRow>, length: nat)
    requires length <= |no|
  {
    forall j :: 0 <= j < |others| ==> Substr(others[j].matriculationNo, |no| - length, length) != no[|no| - length..]
  }

  /** No ending from length 1 up to below `bound` (and below the length of `no`) is unique. */
  predicate NoneUniqueBelow(no: string, others: seq<StudentRow>, bound: nat) {
    forall k :: 1 <= k < bound && k < |no| ==> !Unique(no, others, k)
  }

  lemma NoneUniqueBelowStep(no: string, others: seq<StudentRow>, bound: nat)
    requires bound < |no| && NoneUniqueBelow(no, others, bound) && !Unique(no, others, bound)
    ensures NoneUniqueBelow(no, others, bound + 1)
  {
  }

  /** The smallest length from `from` on, below the length of `no`, whose ending is unique. */
  function FirstUniqueLength(no: string, others: seq<StudentRow>, from: nat): (r: Option<nat>)
    requires from >= 1
    ensures r.Some? ==> from <= r.value < |no| && Unique(no, others, r.value)
    ensures r.Some? ==> forall k :: from <= k < r.value ==> !Unique(no, others, k)
    ensures r.None? ==> forall k :: from <= k < |no| ==> !Unique(no, others, k)
    decreases |no| - from
  {
    if from >= |no| then None
    else if Unique(no, others, from) then Some(from)
    else FirstUniqueLength(no, others, from + 1)
  }

  /** The shortened number of `student` among `students`. */
  function ShortenedMatrNo(student: StudentRow, students: seq<StudentRow>): string {
    var no := student.matriculationNo;
    match FirstUniqueLength(no, Others(students, student.id), 1)
    case Some(length) => PadStart(no[|no| - length..], 7, '*')
    case None => no
  }

  /** When `k` is the first unique length, the search finds it. */
  lemma FirstUniqueLengthIs(no: string, others: seq<StudentRow>, k: nat)
    requires 1 <= k < |no| && Unique(no, others, k)
    requires NoneUniqueBelow(no, others, k)
    ensures FirstUniqueLength(no, others, 1) == Some(k)
  {
  }

  /** Padding the last `k` characters of `no` keeps them at the end and puts only '*' in front. */
  lemma PaddedEnding(no: string, k: nat)
    requires k <= |no|
    ensures var r := PadStart(no[|no| - k..], 7, '*');
      |r| == (if k >= 7 then k else 7) && r[|r| - k..] == no[|no| - k..] && forall i :: 0 <= i < |r| - k ==> r[i] == '*'
  {
    assert |no[|no| - k..]| == k;
  }

  /**
   * When some ending shorter than the number tells the student apart from the others, the result
   * ends with the shortest such ending, padded in front with '*' to seven characters.
   */
  lemma ShortenedToFirstUniqueEnding(student: StudentRow, students: seq<StudentRow>, k: nat)
    requires var no := student.matriculationNo;
      1 <= k < |no| && Unique(no, Others(students, student.id), k) &&
      forall j :: 1 <= j < k ==> !Unique(no, Others(students, student.id), j)
    ensures var no := student.matriculationNo;
      var r := ShortenedMatrNo(student, students);
      |r| == (if k >= 7 then k else 7) && r[|r| - k..] == no[|no| - k..] && forall i :: 0 <= i < |r| - k ==> r[i] == '*'
  {
    assert NoneUniqueBelow(student.matriculationNo, Others(students, student.id), k);
    FirstUniqueLengthIs(student.matriculationNo, Others(students, student.id), k);
    ShortenedIsPadded(student, students, k);
    PaddedEnding(student.matriculationNo, k);
  }

  lemma ShortenedIsPadded(student: StudentRow, students: seq<StudentRow>, k: nat)
    requires var no := student.matriculationNo;
      1 <= k < |no| && FirstUniqueLength(no, Others(students, student.id), 1) == Some(k)
    ensures var no := student.matriculationNo;
      ShortenedMatrNo(student, students) == PadStart(no[|no| - k..], 7, '*')
  {
  }

  /** When no ending shorter than the number tells the student apart, the result is the full number. */
  lemma ShortenedFallsBackToFullNumber(student: StudentRow, students: seq<StudentRow>)
    requires NoneUniqueBelow(student.matriculationNo, Others(students, student.id), |student.matriculationNo|)
    ensures ShortenedMatrNo(student, students) == student.matriculationNo
  {
  }

  /** Without other students, every number longer than one digit is shortened to its last digit. */
  lemma AloneShortensToLastDigit(student: StudentRow)
    requires |student.matriculationNo| > 1
    ensures var no := student.matriculationNo;
      ShortenedMatrNo(student, [student]) == "******" + [no[|no| - 1]]
  {
    var no := student.matriculationNo;
    assert Others([student], student.id) == [];
    assert Unique(no, [], 1);
    assert no[|no| - 1..] == [no[|no| - 1]];
  }

  /** Computes the shortened number by trying ever longer endings against every other student. */
  method GetShortenedMatrNo(student: StudentRow, students: seq<StudentRow>) returns (r: string)
    ensures r == ShortenedMatrNo(student, students)
  {
    var otherStudents := Others(students, student.id);
    var no := student.matriculationNo;
    var lengthOfNo := |no|;
    var iteration := 1;
    while iteration < lengthOfNo
      invariant 1 <= iteration
      invariant NoneUniqueBelow(no, otherStudents, iteration)
      decreases lengthOfNo - iteration
    {
      var isOkay := IsUniqueEnding(no, otherStudents, iteration);
      if isOkay {
        FirstUniqueLengthIs(no, otherStudents, iteration);
        ShortenedIsPadded(student, students, iteration);
        return PadStart(Substr(no, lengthOfNo - iteration, iteration), 7, '*');
      }
      NoneUniqueBelowStep(no, otherStudents, iteration);
      iteration := iteration + 1;
    }
    ShortenedFallsBackToFullNumber(student, students);
    return no;
  }

  /** Whether the last `length` characters of `no` are unique, comparing one other student after the other. */
  method IsUniqueEnding(no: string, others: seq<StudentRow>, length: nat) returns (isOkay: bool)
    requires length <= |no|
    ensures isOkay == Unique(no, others, length)
  {
    var shortStudent := Substr(no, |no| - length, length);
    isOkay := true;
    for j := 0 to |others|
      invariant isOkay <==> forall i :: 0 <= i < j ==> Substr(others[i].matriculationNo, |no| - length, length) != shortStudent
    {
      var shortOtherStudent := Substr(others[j].matriculationNo, |no| - length, length);
      if shortStudent == shortOtherStudent {
        isOkay := false;
        break;
      }
    }
  }
}
