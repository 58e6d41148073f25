/**
 * The grading document of the database layer: a grading keeps its exercise gradings in a map from
 * exercise id to exercise grading, and an exercise grading either stores its points directly or
 * keeps one entry per sub-exercise.
 */
module GradingModel {
  import opened Wrappers

  // ---------------------------------------------------------------- JavaScript maps with string keys

  /** A JavaScript `Map`: its keys in insertion order and the value of each key. */
  datatype JsMap<V> = JsMap(keys: seq<string>, values: map<string, V>)

  /**
   * Every key occurs once in the insertion order, and exactly the keys of the order have a value.
   */
  ghost predicate WellFormed<V>(m: JsMap<V>) {
    (forall i, j :: 0 <= i < j < |m.keys| ==> m.keys[i] != m.keys[j]) &&
    (forall k :: k in m.values <==> k in m.keys)
  }

  const EmptyMap: JsMap<real> := JsMap([], map[])

  /** `map.set(k, v)`: a present key keeps its position and gets the new value, a new key goes last. */
  function Set<V>(m: JsMap<V>, k: string, v: V): (r: JsMap<V>)
    ensures r.values == m.values[k := v]
  {
    JsMap(if k in m.values then m.keys else m.keys + [k], m.values[k := v])
  }

  /** Setting a key keeps a map well formed, and a new key is appended to the insertion order. */
  lemma SetWellFormed<V>(m: JsMap<V>, k: string, v: V)
    requires WellFormed(m)
    ensures WellFormed(Set(m, k, v))
    ensures k !in m.values ==> Set(m, k, v).keys == m.keys + [k]
    ensures k in m.values ==> Set(m, k, v).keys == m.keys
  {
  }

  /** `new Map(entries)`: the entries set one after the other, so a later entry overwrites an earlier one with its key. */
  function FromEntries<V>(entries: seq<(string, V)>): (r: JsMap<V>)
    ensures WellFormed(r)
  {
    if entries == [] then JsMap([], map[])
    else
      var last := entries[|entries| - 1];
      var init := FromEntries(entries[..|entries| - 1]);
      SetWellFormed(init, last.0, last.1);
      Set(init, last.0, last.1)
  }

  predicate DistinctEntryKeys<V>(entries: seq<(string, V)>) {
    forall i, j :: 0 <= i < j < |entries| ==> entries[i].0 != entries[j].0
  }

  /** With distinct keys, `new Map(entries)` holds exactly the entries, in their order. */
  lemma {:induction false} FromDistinctEntries<V>(entries: seq<(string, V)>)
    requires DistinctEntryKeys(entries)
    ensures |FromEntries(entries).keys| == |entries|
    ensures forall i :: 0 <= i < |entries| ==>
      FromEntries(entries).keys[i] == entries[i].0 && FromEntries(entries).values[entries[i].0] == entries[i].1
  {
    if entries != [] {
      var init, last := entries[..|entries| - 1], entries[|entries| - 1];
      FromDistinctEntries(init);
      var m := FromEntries(init);
      assert last.0 !in m.values by {
        forall i | 0 <= i < |m.keys| ensures m.keys[i] != last.0 {
          assert m.keys[i] == entries[i].0;
        }
      }
      forall i | 0 <= i < |entries|
        ensures FromEntries(entries).keys[i] == entries[i].0 && FromEntries(entries).values[entries[i].0] == entries[i].1
      {
        if i < |init| {
          assert entries[i] == init[i];
          assert entries[i].0 != last.0;
        }
      }
    }
  }

  function ValueOr(values: map<string, real>, k: string): real {
    if k in values then values[k] else 0.0
  }

  function SumAt(keys: seq<string>, values: map<string, real>): real {
    if keys == [] then 0.0 else SumAt(keys[..|keys| - 1], values) + ValueOr(values, keys[|keys| - 1])
  }

  /** The sum of the values in insertion order (`forEach`). */
  function SumValues(m: JsMap<real>): real {
    SumAt(m.keys, m.values)
  }

  function SumEntries(entries: seq<(string, real)>): real {
    if entries == [] then 0.0 else SumEntries(entries[..|entries| - 1]) + entries[|entries| - 1].1
  }

  lemma {:induction false} SumAtEntries(entries: seq<(string, real)>, m: JsMap<real>, n: nat)
    requires WellFormed(m) && n <= |entries| && |m.keys| == |entries|
    requires forall i :: 0 <= i < |entries| ==> m.keys[i] == entries[i].0 && m.values[entries[i].0] == entries[i].1
    ensures SumAt(m.keys[..n], m.values) == SumEntries(entries[..n])
  {
    if n > 0 {
      SumAtEntries(entries, m, n - 1);
      assert m.keys[..n][..n - 1] == m.keys[..n - 1];
      assert entries[..n][..n - 1] == entries[..n - 1];
    }
  }

  /** With distinct keys, the values of `new Map(entries)` add up to the entries' values. */
  lemma FromDistinctEntriesSum(entries: seq<(string, real)>)
    requires DistinctEntryKeys(entries)
    ensures SumValues(FromEntries(entries)) == SumEntries(entries)
  {
    var m := FromEntries(entries);
    FromDistinctEntries(entries);
    SumAtEntries(entries, m, |entries|);
    assert m.keys[..|entries|] == m.keys;
    assert entries[..|entries|] == entries;
  }

  // ---------------------------------------------------------------- exercise gradings

  /**
   * The grading of one exercise. `storedPoints` is the stored points field behind the `points`
   * accessor; it only counts while there is no sub-exercise map.
   */
  datatype ExerciseGradingModel = ExerciseGradingModel(
    comment: Option<string>,
    additionalPoints: Option<real>,
    storedPoints: real,
    subExercisePoints: Option<JsMap<real>>)

  ghost predicate ExerciseWellFormed(eg: ExerciseGradingModel) {
    eg.subExercisePoints.Some? ==> WellFormed(eg.subExercisePoints.value)
  }

  function OrZero(x: Option<real>): real { if x.Some? then x.value else 0.0 }

  /** The exercise's points: the additional points plus either the stored points or the sum over the sub-exercises. */
  function ExercisePoints(eg: ExerciseGradingModel): real {
    OrZero(eg.additionalPoints) +
    match eg.subExercisePoints
    case None => eg.storedPoints
    case Some(m) => SumValues(m)
  }

  /** The `points` accessor, summing the sub-exercise map with a loop. */
  method ComputeExercisePoints(eg: ExerciseGradingModel) returns (points: real)
    requires ExerciseWellFormed(eg)
    ensures points == ExercisePoints(eg)
  {
    var addPoints := OrZero(eg.additionalPoints);
    if eg.subExercisePoints.None? {
      return eg.storedPoints + addPoints;
    }
    var m := eg.subExercisePoints.value;
    var sum := 0.0;
    for k := 0 to |m.keys|
      invariant sum == SumAt(m.keys[..k], m.values)
    {
      assert m.keys[..k + 1][..k] == m.keys[..k];
      assert m.keys[k] in m.values;
      sum := sum + m.values[m.keys[k]];
    }
    assert m.keys[..|m.keys|] == m.keys;
    points := sum + addPoints;
  }

  /** Once there is a sub-exercise map, the stored points do not matter. */
  lemma StoredPointsIgnored(eg: ExerciseGradingModel, stored: real)
    requires ExerciseWellFormed(eg) && eg.subExercisePoints.Some?
    ensures ExercisePoints(eg.(storedPoints := stored)) == ExercisePoints(eg)
  {
  }

  /** What the client sends for one exercise. */
  datatype ExerciseGradingDTO = ExerciseGradingDTO(
    additionalPoints: Option<real>,
    comment: Option<string>,
    points: Option<real>,
    subExercisePoints: Option<seq<(string, real)>>)

  /** `!points && !subExercisePoints` fails: absent points and 0 points both count as not given. */
  predicate Convertible(dto: ExerciseGradingDTO) {
    (dto.points.Some? && dto.points.value != 0.0) || dto.subExercisePoints.Some?
  }

  const MissingPointsMessage := "At least one of the two properties 'points' and 'subExercisePoints' has to be set in the DTO."

  /** A new exercise grading from the client's data; a bad request when it has neither (non-zero) points nor sub-exercise points. */
  function ExerciseFromDTO(dto: ExerciseGradingDTO): (r: Result<ExerciseGradingModel, string>)
    ensures r.Ok? <==> Convertible(dto)
    ensures r.Ok? ==> ExerciseWellFormed(r.value)
    ensures r.Ok? ==> r.value.comment == dto.comment && r.value.additionalPoints == dto.additionalPoints
    ensures r.Ok? ==> r.value.storedPoints == OrZero(dto.points)
    ensures r.Ok? ==> r.value.subExercisePoints.Some? == dto.subExercisePoints.Some?
  {
    if !Convertible(dto) then
      Err(MissingPointsMessage)
    else
      Ok(ExerciseGradingModel(
        dto.comment,
        dto.additionalPoints,
        OrZero(dto.points),
        if dto.subExercisePoints.Some? then Some(FromEntries(dto.subExercisePoints.value)) else None))
  }

  /**
   * The points of an exercise grading made from the client's data: the additional points plus the
   * sub-exercise points when given (each sub-exercise once), else the given points.
   */
  lemma ExerciseFromDTOPoints(dto: ExerciseGradingDTO)
    requires Convertible(dto)
    requires dto.subExercisePoints.Some? ==> DistinctEntryKeys(dto.subExercisePoints.value)
    ensures ExercisePoints(ExerciseFromDTO(dto).value) == OrZero(dto.additionalPoints) +
      if dto.subExercisePoints.Some? then SumEntries(dto.subExercisePoints.value) else OrZero(dto.points)
  {
    if dto.subExercisePoints.Some? {
      FromDistinctEntriesSum(dto.subExercisePoints.value);
    }
  }

  // ---------------------------------------------------------------- gradings

  /** What the client sends for a grading: the exercise gradings keyed by exercise id. */
  datatype GradingDTO = GradingDTO(
    exerciseGradings: seq<(string, ExerciseGradingDTO)>,
    additionalPoints: Option<real>,
    comment: Option<string>,
    gradingId: Option<string>)

  ghost predicate ExercisesWellFormed(egs: JsMap<ExerciseGradingModel>) {
    WellFormed(egs) && forall i :: 0 <= i < |egs.keys| ==> ExerciseWellFormed(egs.values[egs.keys[i]])
  }

  function PointsOr(values: map<string, ExerciseGradingModel>, k: string): real {
    if k in values then ExercisePoints(values[k]) else 0.0
  }

  function SumExercisePoints(keys: seq<string>, values: map<string, ExerciseGradingModel>): real {
    if keys == [] then 0.0
    else SumExercisePoints(keys[..|keys| - 1], values) + PointsOr(values, keys[|keys| - 1])
  }

  /** A grading's points: its additional points (0 when unset) plus the points of every exercise grading. */
  function GradingPoints(additionalPoints: Option<real>, egs: JsMap<ExerciseGradingModel>): real {
    OrZero(additionalPoints) + SumExercisePoints(egs.keys, egs.values)
  }

  /** The position of the first exercise grading from position `i` on that cannot be converted, or the length. */
  function FirstInvalid(es: seq<(string, ExerciseGradingDTO)>, i: nat): (n: nat)
    requires i <= |es|
    ensures i <= n <= |es|
    ensures forall j :: i <= j < n ==> Convertible(es[j].1)
    ensures n < |es| ==> !Convertible(es[n].1)
    decreases |es| - i
  {
    if i == |es| || !Convertible(es[i].1) then i else FirstInvalid(es, i + 1)
  }

  /** The first position from `i` on where conversion fails is `k` when everything before it converts and it does not. */
  lemma {:induction false} FirstInvalidAt(es: seq<(string, ExerciseGradingDTO)>, i: nat, k: nat)
    requires i <= k <= |es|
    requires forall j :: i <= j < k ==> Convertible(es[j].1)
    requires k < |es| ==> !Convertible(es[k].1)
    ensures FirstInvalid(es, i) == k
    decreases k - i
  {
    if i < k {
      FirstInvalidAt(es, i + 1, k);
    }
  }

  /**
   * The exercise-grading map built from the first `n` exercise gradings of the client, converted
   * and set one after the other. It is only taken up to the first one that cannot be converted;
   * such a one would be passed over.
   */
  function Converted(es: seq<(string, ExerciseGradingDTO)>, n: nat): (r: JsMap<ExerciseGradingModel>)
    requires n <= |es|
  {
    if n == 0 then JsMap([], map[])
    else match ExerciseFromDTO(es[n - 1].1)
      case Ok(eg) => Set(Converted(es, n - 1), es[n - 1].0, eg)
      case Err(_) => Converted(es, n - 1)
  }

  /** The converted map is a well-formed map of well-formed exercise gradings. */
  lemma {:induction false} ConvertedWellFormed(es: seq<(string, ExerciseGradingDTO)>, n: nat)
    requires n <= |es|
    ensures ExercisesWellFormed(Converted(es, n))
  {
    if n > 0 {
      ConvertedWellFormed(es, n - 1);
      var c := ExerciseFromDTO(es[n - 1].1);
      if c.Ok? {
        SetWellFormed(Converted(es, n - 1), es[n - 1].0, c.value);
      }
    }
  }

  /**
   * The loop that fills the new exercise-grading map: converts and sets the client's exercise
   * gradings one after the other and stops at the first that cannot be converted, returning how
   * many were converted.
   */
  method ConvertExerciseGradings(es: seq<(string, ExerciseGradingDTO)>) returns (egs: JsMap<ExerciseGradingModel>, k: nat)
    ensures k == FirstInvalid(es, 0)
    ensures egs == Converted(es, k)
  {
    egs := JsMap([], map[]);
    k := 0;
    while k < |es|
      invariant 0 <= k <= |es| && forall j :: 0 <= j < k ==> Convertible(es[j].1)
      invariant egs == Converted(es, k)
    {
      var converted := ExerciseFromDTO(es[k].1);
      if converted.Err? {
        FirstInvalidAt(es, 0, k);
        return;
      }
      assert Converted(es, k + 1) == Set(egs, es[k].0, converted.value);
      egs := Set(egs, es[k].0, converted.value);
      k := k + 1;
    }
    FirstInvalidAt(es, 0, k);
  }

  /** A grading document of the database. */
  class GradingModel {
    var id: string
    var comment: Option<string>
    var additionalPoints: Option<real>
    var exerciseGradings: JsMap<ExerciseGradingModel>

    ghost predicate Valid()
      reads this
    {
      ExercisesWellFormed(exerciseGradings)
    }

    /** A new document with the given id and no exercise gradings. */
    constructor(id: string)
      ensures Valid()
      ensures this.id == id && comment.None? && additionalPoints.None? && exerciseGradings == JsMap([], map[])
    {
      this.id := id;
      comment := None;
      additionalPoints := None;
      exerciseGradings := JsMap([], map[]);
    }

    /** The `points` accessor: the additional points and, one after the other, each exercise grading's points. */
    method Points() returns (sum: real)
      requires Valid()
      ensures sum == GradingPoints(additionalPoints, exerciseGradings)
    {
      sum := OrZero(additionalPoints);
      var keys, values := exerciseGradings.keys, exerciseGradings.values;
      for k := 0 to |keys|
        invariant sum == OrZero(additionalPoints) + SumExercisePoints(keys[..k], values)
      {
        assert keys[..k + 1][..k] == keys[..k];
        assert keys[k] in values;
        var p := ComputeExercisePoints(values[keys[k]]);
        sum := sum + p;
      }
      assert keys[..|keys|] == keys;
    }

    /**
     * Overwrites the document with the client's data: the id when a grading id is given, the
     * comment and additional points, and a new exercise-grading map. Converting an exercise grading
     * may fail; then the exercise gradings converted before it stay in the new map.
     */
    method UpdateFromDTO(dto: GradingDTO) returns (r: Result<(), string>)
      modifies this
      ensures Valid()
      ensures id == if dto.gradingId.Some? && dto.gradingId.value != "" then dto.gradingId.value else old(id)
      ensures comment == dto.comment && additionalPoints == dto.additionalPoints
      ensures exerciseGradings == Converted(dto.exerciseGradings, FirstInvalid(dto.exerciseGradings, 0))
      ensures r.Ok? <==> FirstInvalid(dto.exerciseGradings, 0) == |dto.exerciseGradings|
      ensures r.Err? ==> r.error == ExerciseFromDTO(dto.exerciseGradings[FirstInvalid(dto.exerciseGradings, 0)].1).error
    {
      if dto.gradingId.Some? && dto.gradingId.value != "" {
        id := dto.gradingId.value;
      }
      comment := dto.comment;
      additionalPoints := dto.additionalPoints;
      var egs, converted := ConvertExerciseGradings(dto.exerciseGradings);
      ConvertedWellFormed(dto.exerciseGradings, converted);
      exerciseGradings := egs;
      if converted < |dto.exerciseGradings| {
        return Err(ExerciseFromDTO(dto.exerciseGradings[converted].1).error);
      }
      r := Ok(());
    }
  }

  /** With distinct exercise ids, the converted map holds each exercise grading of the client, in order. */
  lemma {:induction false} ConvertedDistinct(es: seq<(string, ExerciseGradingDTO)>, n: nat)
    requires n <= |es| && forall j :: 0 <= j < n ==> Convertible(es[j].1)
    requires DistinctEntryKeys(es)
    ensures |Converted(es, n).keys| == n
    ensures forall i :: 0 <= i < n ==>
      Converted(es, n).keys[i] == es[i].0 && es[i].0 in Converted(es, n).values &&
      Converted(es, n).values[es[i].0] == ExerciseFromDTO(es[i].1).value
  {
    if n > 0 {
      ConvertedDistinct(es, n - 1);
      var m := Converted(es, n - 1);
      ConvertedWellFormed(es, n - 1);
      var key, value := es[n - 1].0, ExerciseFromDTO(es[n - 1].1).value;
      assert key !in m.keys by {
        forall i | 0 <= i < |m.keys| ensures m.keys[i] != key {
          assert m.keys[i] == es[i].0;
        }
      }
      var r := Converted(es, n);
      assert r == JsMap(m.keys + [key], m.values[key := value]);
      forall i | 0 <= i < n
        ensures r.keys[i] == es[i].0 && es[i].0 in r.values && r.values[es[i].0] == ExerciseFromDTO(es[i].1).value
      {
        if i < n - 1 {
          assert es[i].0 != key;
          assert r.keys[i] == m.keys[i];
        }
      }
    }
  }

  /** The points of the client's first `n` exercise gradings. */
  function SumConvertedPoints(es: seq<(string, ExerciseGradingDTO)>, n: nat): real
    requires n <= |es| && forall j :: 0 <= j < n ==> Convertible(es[j].1)
  {
    if n == 0 then 0.0 else SumConvertedPoints(es, n - 1) + ExercisePoints(ExerciseFromDTO(es[n - 1].1).value)
  }

  lemma {:induction false} SumConvertedAgrees(es: seq<(string, ExerciseGradingDTO)>, m: JsMap<ExerciseGradingModel>, n: nat)
    requires n <= |es| && n <= |m.keys| && forall j :: 0 <= j < n ==> Convertible(es[j].1)
    requires forall i :: 0 <= i < n ==>
      m.keys[i] == es[i].0 && es[i].0 in m.values && m.values[es[i].0] == ExerciseFromDTO(es[i].1).value
    ensures SumExercisePoints(m.keys[..n], m.values) == SumConvertedPoints(es, n)
  {
    if n > 0 {
      SumConvertedAgrees(es, m, n - 1);
      assert m.keys[..n][..n - 1] == m.keys[..n - 1];
    }
  }

  /**
   * After a successful update with distinct exercise ids, the grading's points are the client's
   * additional points plus the points of each of the client's exercise gradings: nothing of the
   * old exercise gradings is left.
   */
  lemma UpdatedPoints(dto: GradingDTO)
    requires forall j :: 0 <= j < |dto.exerciseGradings| ==> Convertible(dto.exerciseGradings[j].1)
    requires DistinctEntryKeys(dto.exerciseGradings)
    ensures FirstInvalid(dto.exerciseGradings, 0) == |dto.exerciseGradings|
    ensures GradingPoints(dto.additionalPoints, Converted(dto.exerciseGradings, |dto.exerciseGradings|)) ==
      OrZero(dto.additionalPoints) + SumConvertedPoints(dto.exerciseGradings, |dto.exerciseGradings|)
  {
    var es := dto.exerciseGradings;
    var m := Converted(es, |es|);
    ConvertedDistinct(es, |es|);
    SumConvertedAgrees(es, m, |es|);
    assert m.keys[..|es|] == m.keys;
  }
}
