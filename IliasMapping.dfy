/**
 * Matching the Ilias names of a short-test import to students: every name of the imported data is
 * mapped to the student with that Ilias name or listed as a name without a student; the students
 * no name refers to are the students without a result. The mapping can then be changed by hand,
 * one student per name and one name per student.
 */
module IliasMapping {
  import opened Wrappers

  datatype Student = Student(id: string, iliasName: Option<string>)

  /** The names of the imported rows without the empty ones. */
  function NamesInData(column: seq<string>): (r: seq<string>)
    ensures forall n :: n in r <==> n in column && n != ""
    ensures forall i :: 0 <= i < |r| ==> r[i] != ""
  {
    if column == [] then []
    else NamesInData(column[..|column| - 1]) + (if column[|column| - 1] != "" then [column[|column| - 1]] else [])
  }

  /** Every non-empty name of the column is kept as often as it occurs. */
  lemma {:induction false} NamesInDataCounts(column: seq<string>, n: string)
    requires n != ""
    ensures multiset(NamesInData(column))[n] == multiset(column)[n]
  {
    if column != [] {
      var init := column[..|column| - 1];
      NamesInDataCounts(init, n);
      assert column == init + [column[|column| - 1]];
    }
  }

  /** Filtering keeps the order of the data: the names of two pieces of a column are the names of each, one after the other. */
  lemma {:induction false} NamesInDataAppend(a: seq<string>, b: seq<string>)
    ensures NamesInData(a + b) == NamesInData(a) + NamesInData(b)
    decreases |b|
  {
    if b != [] {
      var init := b[..|b| - 1];
      assert (a + b)[..|a + b| - 1] == a + init;
      NamesInDataAppend(a, init);
    } else {
      assert a + b == a;
    }
  }

  /** The first student with the Ilias name, if any. */
  function FindStudent(students: seq<Student>, name: string): (r: Option<Student>)
    ensures r.Some? ==> r.value in students && r.value.iliasName == Some(name)
    ensures r.None? ==> forall i :: 0 <= i < |students| ==> students[i].iliasName != Some(name)
  {
    if students == [] then None
    else if students[0].iliasName == Some(name) then Some(students[0])
    else FindStudent(students[1..], name)
  }

  /** The names without a student, in the order of the data. */
  function Unmatched(names: seq<string>, students: seq<Student>): (r: seq<string>)
    ensures forall n :: n in r <==> n in names && FindStudent(students, n).None?
  {
    if names == [] then []
    else
      var last := names[|names| - 1];
      Unmatched(names[..|names| - 1], students) + (if FindStudent(students, last).None? then [last] else [])
  }

  /** Every name without a student is kept as often as it occurs. */
  lemma {:induction false} UnmatchedCounts(names: seq<string>, students: seq<Student>, n: string)
    requires FindStudent(students, n).None?
    ensures multiset(Unmatched(names, students))[n] == multiset(names)[n]
  {
    if names != [] {
      var init := names[..|names| - 1];
      UnmatchedCounts(init, students, n);
      assert names == init + [names[|names| - 1]];
    }
  }

  /** The unmatched names keep the order of the data: those of two pieces are those of each, one after the other. */
  lemma {:induction false} UnmatchedAppend(a: seq<string>, b: seq<string>, students: seq<Student>)
    ensures Unmatched(a + b, students) == Unmatched(a, students) + Unmatched(b, students)
    decreases |b|
  {
    if b != [] {
      var init := b[..|b| - 1];
      assert (a + b)[..|a + b| - 1] == a + init;
      UnmatchedAppend(a, init, students);
    } else {
      assert a + b == a;
    }
  }

  /** The students found for the names, in the order of the data, once per name. */
  function Matched(names: seq<string>, students: seq<Student>): seq<Student> {
    if names == [] then []
    else
      var last := names[|names| - 1];
      Matched(names[..|names| - 1], students) + (if FindStudent(students, last).Some? then [FindStudent(students, last).value] else [])
  }

  /** Each name with a student, mapped to that student. */
  function MappingOf(names: seq<string>, students: seq<Student>): (r: map<string, Student>)
    ensures forall n :: n in r <==> n in names && FindStudent(students, n).Some?
  {
    map n | n in names && FindStudent(students, n).Some? :: FindStudent(students, n).value
  }

  /** The students whose Ilias name is not among the names, in order. */
  function WithoutResult(students: seq<Student>, names: seq<string>): (r: seq<Student>)
    ensures forall s :: s in r <==> s in students && (s.iliasName.None? || s.iliasName.value !in names)
  {
    if students == [] then []
    else
      var last := students[|students| - 1];
      WithoutResult(students[..|students| - 1], names) + (if last.iliasName.None? || last.iliasName.value !in names then [last] else [])
  }

  /** Every name of the data is either mapped to the student with that Ilias name or without a student, never both. */
  lemma NamesPartitioned(names: seq<string>, students: seq<Student>, n: string)
    requires n in names
    ensures n in MappingOf(names, students) <==> n !in Unmatched(names, students)
    ensures n in MappingOf(names, students) ==> MappingOf(names, students)[n].iliasName == Some(n) && MappingOf(names, students)[n] in students
  {
  }

  /** `a` comes before or equals `b` in the order of character codes. */
  predicate LessEq(a: string, b: string) {
    a == [] || (b != [] && (a[0] < b[0] || (a[0] == b[0] && LessEq(a[1..], b[1..]))))
  }

  lemma {:induction false} LessEqTotal(a: string, b: string)
    ensures LessEq(a, b) || LessEq(b, a)
  {
    if a != [] && b != [] && a[0] == b[0] {
      LessEqTotal(a[1..], b[1..]);
    }
  }

  predicate Sorted(s: seq<string>) {
    forall i :: 0 <= i < |s| - 1 ==> LessEq(s[i], s[i + 1])
  }

  /** `x` put into the sorted `s` before the first element it does not come after. */
  function Insert(x: string, s: seq<string>): (r: seq<string>)
    ensures multiset(r) == multiset(s) + multiset{x}
    ensures |r| > 0 && (r[0] == x || (s != [] && r[0] == s[0]))
  {
    if s == [] then [x]
    else if LessEq(x, s[0]) then [x] + s
    else
      var rest := Insert(x, s[1..]);
      assert s == [s[0]] + s[1..];
      [s[0]] + rest
  }

  lemma {:induction false} InsertSorted(x: string, s: seq<string>)
    requires Sorted(s)
    ensures Sorted(Insert(x, s))
  {
    if s != [] && !LessEq(x, s[0]) {
      LessEqTotal(x, s[0]);
      InsertSorted(x, s[1..]);
      var rest := Insert(x, s[1..]);
      assert Insert(x, s) == [s[0]] + rest;
      if |s| > 1 {
        assert LessEq(s[0], s[1]);
      }
    }
  }

  /** The names sorted, as `Array.prototype.sort` does with a comparison of names. */
  function SortNames(s: seq<string>): (r: seq<string>)
    ensures multiset(r) == multiset(s)
  {
    if s == [] then []
    else
      assert s == s[..|s| - 1] + [s[|s| - 1]];
      Insert(s[|s| - 1], SortNames(s[..|s| - 1]))
  }

  /** The sorted names are in order and are the same names as many times each. */
  lemma {:induction false} SortNamesSorted(s: seq<string>)
    ensures Sorted(SortNames(s)) && multiset(SortNames(s)) == multiset(s)
  {
    if s != [] {
      SortNamesSorted(s[..|s| - 1]);
      InsertSorted(s[|s| - 1], SortNames(s[..|s| - 1]));
    }
  }

  /** Every name is mapped to a different student. */
  predicate Injective(mapping: map<string, Student>) {
    forall a, b :: a in mapping && b in mapping && a != b ==> mapping[a].id != mapping[b].id
  }

  /** The students without those whose id is among `removed`. */
  function DifferenceById(students: seq<Student>, removed: set<string>): (r: seq<Student>)
    ensures forall s :: s in r <==> s in students && s.id !in removed
  {
    if students == [] then []
    else
      var last := students[|students| - 1];
      DifferenceById(students[..|students| - 1], removed) + (if last.id in removed then [] else [last])
  }

  function IdsOf(mapping: map<string, Student>): set<string> {
    set n | n in mapping :: mapping[n].id
  }

  /** One more name adds its entry to the mapping when it has a student and leaves it as it is otherwise. */
  lemma MappingOfStep(names: seq<string>, x: string, students: seq<Student>)
    ensures FindStudent(students, x).Some? ==> MappingOf(names + [x], students) == MappingOf(names, students)[x := FindStudent(students, x).value]
    ensures FindStudent(students, x).None? ==> MappingOf(names + [x], students) == MappingOf(names, students)
  {
  }

  /** Goes through the names one after the other, looking up the student of each non-empty one. */
  method MapNames(names: seq<string>, students: seq<Student>)
    returns (withoutStudent: seq<string>, alreadyMapped: seq<Student>, mapping: map<string, Student>)
    requires forall i :: 0 <= i < |names| ==> names[i] != ""
    ensures withoutStudent == Unmatched(names, students)
    ensures alreadyMapped == Matched(names, students)
    ensures mapping == MappingOf(names, students)
  {
    withoutStudent, alreadyMapped, mapping := [], [], map[];
    for i := 0 to |names|
      invariant withoutStudent == Unmatched(names[..i], students)
      invariant alreadyMapped == Matched(names[..i], students)
      invariant mapping == MappingOf(names[..i], students)
    {
      assert names[..i + 1] == names[..i] + [names[i]];
      MappingOfStep(names[..i], names[i], students);
      var iliasName := names[i];
      if iliasName != "" {
        var student := FindStudent(students, iliasName);
        if student.None? {
          withoutStudent := withoutStudent + [iliasName];
        } else {
          alreadyMapped := alreadyMapped + [student.value];
          mapping := mapping[iliasName := student.value];
        }
      }
    }
    assert names[..|names|] == names;
  }

  /** Goes through the students one after the other, keeping those whose Ilias name is not among the names. */
  method StudentsWithoutResult(students: seq<Student>, names: seq<string>) returns (withoutResult: seq<Student>)
    ensures withoutResult == WithoutResult(students, names)
  {
    withoutResult := [];
    for j := 0 to |students|
      invariant withoutResult == WithoutResult(students[..j], names)
    {
      assert students[..j + 1][..j] == students[..j];
      if students[j].iliasName.None? || students[j].iliasName.value !in names {
        withoutResult := withoutResult + [students[j]];
      }
    }
    assert students[..|students|] == students;
  }

  class MappingContext {
    var iliasNameMapping: map<string, Student>
    var iliasNamesWithoutStudent: seq<string>
    var studentsWithoutResult: seq<Student>
    var studentsMappedFromCSV: seq<Student>

    constructor()
      ensures iliasNameMapping == map[] && iliasNamesWithoutStudent == [] && studentsWithoutResult == [] && studentsMappedFromCSV == []
    {
      iliasNameMapping := map[];
      iliasNamesWithoutStudent := [];
      studentsWithoutResult := [];
      studentsMappedFromCSV := [];
    }

    /** The students without a result that are not mapped to a name by hand either. */
    function ExposedStudentsWithoutResult(): (r: seq<Student>)
      reads this
      ensures forall s :: s in r <==> s in studentsWithoutResult && s.id !in IdsOf(iliasNameMapping)
    {
      DifferenceById(studentsWithoutResult, IdsOf(iliasNameMapping))
    }

    /** The students that no name of the data was mapped to. */
    function Value(students: seq<Student>): (r: seq<Student>)
      reads this
      ensures forall s :: s in r <==> s in students && s.id !in (set m | m in studentsMappedFromCSV :: m.id)
    {
      DifferenceById(students, set m | m in studentsMappedFromCSV :: m.id)
    }

    /**
     * Recomputes the mapping from the imported column of names and the students: each name goes to
     * the first student with that Ilias name or to the sorted names without a student.
     */
    method Compute(column: seq<string>, students: seq<Student>)
      modifies this
      ensures iliasNameMapping == MappingOf(NamesInData(column), students)
      ensures iliasNamesWithoutStudent == SortNames(Unmatched(NamesInData(column), students))
      ensures studentsMappedFromCSV == Matched(NamesInData(column), students)
      ensures studentsWithoutResult == WithoutResult(students, NamesInData(column))
    {
      var iliasNamesInData := NamesInData(column);
      var withoutStudent, alreadyMapped, mapping := MapNames(iliasNamesInData, students);
      var withoutResult := StudentsWithoutResult(students, iliasNamesInData);
      iliasNameMapping := mapping;
      studentsMappedFromCSV := alreadyMapped;
      iliasNamesWithoutStudent := SortNames(withoutStudent);
      studentsWithoutResult := withoutResult;
    }

    /** The student mapped to the name, if any. */
    function GetMapping(iliasName: string): (r: Option<Student>)
      reads this
      ensures r.Some? <==> iliasName in iliasNameMapping
      ensures r.Some? ==> r.value == iliasNameMapping[iliasName]
    {
      if iliasName in iliasNameMapping then Some(iliasNameMapping[iliasName]) else None
    }

    /**
     * Maps the name to the student, first removing the name the student was mapped to, found by
     * looking at every entry; a name that is the empty string is not removed.
     */
    method AddMapping(iliasName: string, student: Student)
      modifies this
      ensures iliasName in iliasNameMapping && iliasNameMapping[iliasName] == student
      ensures forall n :: n in iliasNameMapping && n != iliasName ==> n in old(iliasNameMapping) && iliasNameMapping[n] == old(iliasNameMapping)[n]
      ensures Injective(old(iliasNameMapping)) && "" !in old(iliasNameMapping) ==>
        forall n :: n in old(iliasNameMapping) && n != iliasName && old(iliasNameMapping)[n].id != student.id ==> n in iliasNameMapping
      ensures Injective(old(iliasNameMapping)) && "" !in old(iliasNameMapping) ==> Injective(iliasNameMapping)
      ensures iliasNamesWithoutStudent == old(iliasNamesWithoutStudent) && studentsWithoutResult == old(studentsWithoutResult)
      ensures studentsMappedFromCSV == old(studentsMappedFromCSV)
    {
      var nameOfStudent: Option<string> := None;
      var remaining := iliasNameMapping.Keys;
      while remaining != {}
        invariant remaining <= iliasNameMapping.Keys
        invariant nameOfStudent.Some? ==> nameOfStudent.value in iliasNameMapping && iliasNameMapping[nameOfStudent.value].id == student.id
        invariant nameOfStudent.None? ==> forall n :: n in iliasNameMapping && n !in remaining ==> iliasNameMapping[n].id != student.id
        decreases remaining
      {
        var name :| name in remaining;
        if iliasNameMapping[name].id == student.id {
          nameOfStudent := Some(name);
        }
        remaining := remaining - {name};
      }
      if nameOfStudent.Some? && nameOfStudent.value != "" {
        iliasNameMapping := iliasNameMapping - {nameOfStudent.value};
      }
      iliasNameMapping := iliasNameMapping[iliasName := student];
    }

    /** Removes the name's mapping; nothing else changes. */
    method RemoveMapping(iliasName: string)
      modifies this
      ensures iliasNameMapping == old(iliasNameMapping) - {iliasName}
      ensures Injective(old(iliasNameMapping)) ==> Injective(iliasNameMapping)
      ensures iliasNamesWithoutStudent == old(iliasNamesWithoutStudent) && studentsWithoutResult == old(studentsWithoutResult)
      ensures studentsMappedFromCSV == old(studentsMappedFromCSV)
    {
      iliasNameMapping := iliasNameMapping - {iliasName};
    }
  }

  /** With students of distinct ids, the mapping computed from the data is one-to-one: a student has one Ilias name. */
  lemma ComputedMappingInjective(names: seq<string>, students: seq<Student>)
    requires forall i, j :: 0 <= i < j < |students| ==> students[i].id != students[j].id
    ensures Injective(MappingOf(names, students))
  {
    var m := MappingOf(names, students);
    forall a, b | a in m && b in m && a != b
      ensures m[a].id != m[b].id
    {
      var i :| 0 <= i < |students| && students[i] == m[a];
      var j :| 0 <= j < |students| && students[j] == m[b];
      assert students[i].iliasName != students[j].iliasName;
    }
  }
}
