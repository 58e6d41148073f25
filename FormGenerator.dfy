/**
 * The form generator of the Java back end: for every class marked as a Schein criterion it
 * collects the fields of the class and of all its superclasses and derives a form-field
 * descriptor from each field's type and annotations. Reflection is replaced by explicit field
 * lists: a field carries its type, its annotation types and the values of the number, percentage
 * and possible-percentage annotations.
 */
module FormGenerator {
  import opened Wrappers

  datatype FieldType = StringType | BooleanType | IntegerType | FloatType | EnumType(constants: seq<string>) | OtherType(name: string)

  datatype AnnotationType = ScheinCriteriaIgnore | Autowired | Transient | OtherAnnotation(name: string)

  /** The bounds of a number annotation (doubles in the source). */
  datatype NumberConfig = NumberConfig(min: real, max: real)

  datatype Field = Field(
    name: string,
    fieldType: FieldType,
    annotations: seq<AnnotationType>,
    number: Option<NumberConfig>,
    possiblePercentage: Option<string>,  // the `toggledBy` of the annotation, when present
    percentage: bool)

  datatype SelectValue = SelectValue(name: string, value: string)

  datatype FormFieldData =
    | StringField
    | BooleanField
    | IntegerField(intMin: Option<int>, intMax: Option<int>)
    | FloatField(min: Option<real>, max: Option<real>, toggledBy: Option<string>, percentage: bool)
    | EnumField(values: seq<SelectValue>)

  /** A class: `Object` ends every superclass chain. */
  datatype JClass = ObjectClass | Class(name: string, declaredFields: seq<Field>, superclass: JClass)

  const NumberWithPercentage := "ScheinCriteriaNumber must not be used together with ScheinCriteriaPercentage."
  const PossibleWithPercentage := "ScheinCriteriaPossiblePercentage must not be used together with ScheinCriteriaPercentage."

  // ---------------------------------------------------------------- float fields

  /**
   * The descriptor of a float field from its annotations: a percentage is 0..100 and may not be
   * combined with another annotation; number bounds and a percentage toggle combine.
   */
  function FloatFieldData(number: Option<NumberConfig>, possible: Option<string>, percentage: bool): (r: Result<FormFieldData, string>)
    ensures r.Err? <==> percentage && (number.Some? || possible.Some?)
    ensures r.Err? && number.Some? ==> r.error == NumberWithPercentage
    ensures r.Err? && number.None? ==> r.error == PossibleWithPercentage
    ensures r.Ok? ==> r.value.FloatField?
    ensures r.Ok? && percentage ==> r.value == FloatField(Some(0.0), Some(100.0), None, true)
    ensures number.None? && possible.None? && !percentage ==> r == Ok(FloatField(None, None, None, false))
    ensures !percentage && number.Some? ==>
      r == Ok(FloatField(Some(number.value.min), Some(number.value.max), possible, false))
    ensures !percentage && number.None? && possible.Some? ==> r == Ok(FloatField(None, None, possible, false))
  {
    if number.None? && possible.None? && !percentage then Ok(FloatField(None, None, None, false))
    else if percentage then
      if number.Some? then Err(NumberWithPercentage)
      else if possible.Some? then Err(PossibleWithPercentage)
      else Ok(FloatField(Some(0.0), Some(100.0), None, true))
    else if number.Some? && possible.None? then Ok(FloatField(Some(number.value.min), Some(number.value.max), None, false))
    else if possible.Some? && number.None? then Ok(FloatField(None, None, possible, false))
    else Ok(FloatField(Some(number.value.min), Some(number.value.max), possible, false))
  }

  /**
   * Whenever a float descriptor is produced, its percentage flag is the percentage annotation,
   * its toggle is the possible-percentage annotation and it has bounds exactly when one of the
   * bounding annotations is present.
   */
  lemma FloatFieldFlags(number: Option<NumberConfig>, possible: Option<string>, percentage: bool)
    requires FloatFieldData(number, possible, percentage).Ok?
    ensures var d := FloatFieldData(number, possible, percentage).value;
      d.percentage == percentage && d.toggledBy == possible &&
      (d.min.Some? <==> number.Some? || percentage) && (d.max.Some? <==> number.Some? || percentage)
  {
  }

  // ---------------------------------------------------------------- integer fields

  /** Java's cast of a double to `int`: rounds toward zero and saturates at the `int` range. */
  function JavaIntCast(x: real): (r: int)
    ensures -0x8000_0000 <= r <= 0x7FFF_FFFF
    ensures 0.0 <= x < 0x7FFF_FFFF as real ==> r as real <= x < (r + 1) as real
    ensures -0x8000_0000 as real < x <= 0.0 ==> (r - 1) as real < x <= r as real
    ensures x >= 0x7FFF_FFFF as real ==> r == 0x7FFF_FFFF
    ensures x <= -0x8000_0000 as real ==> r == -0x8000_0000
    ensures x >= 0.0 ==> r >= 0
    ensures x <= 0.0 ==> r <= 0
  {
    var t := if x >= 0.0 then x.Floor else -((-x).Floor);
    if t > 0x7FFF_FFFF then 0x7FFF_FFFF else if t < -0x8000_0000 then -0x8000_0000 else t
  }

  // ---------------------------------------------------------------- single fields

  predicate IsIgnoreAnnotation(a: AnnotationType) {
    a == ScheinCriteriaIgnore || a == Autowired || a == Transient
  }

  /** Whether a field is to be left out of the form: it carries one of the ignore, injection or transient annotations. */
  method IsIgnoreField(field: Field) returns (ignored: bool)
    ensures ignored <==> exists i :: 0 <= i < |field.annotations| && IsIgnoreAnnotation(field.annotations[i])
  {
    for k := 0 to |field.annotations|
      invariant forall i :: 0 <= i < k ==> !IsIgnoreAnnotation(field.annotations[i])
    {
      var a := field.annotations[k];
      if a == ScheinCriteriaIgnore {
        return true;
      }
      if a == Autowired {
        return true;
      }
      if a == Transient {
        return true;
      }
    }
    return false;
  }

  /** The selectable values of an enum field: one per constant, named and valued by it. */
  method EnumValues(constants: seq<string>) returns (values: seq<SelectValue>)
    ensures |values| == |constants|
    ensures forall i :: 0 <= i < |constants| ==> values[i] == SelectValue(constants[i], constants[i])
  {
    values := [];
    for k := 0 to |constants|
      invariant |values| == k
      invariant forall i :: 0 <= i < k ==> values[i] == SelectValue(constants[i], constants[i])
    {
      values := values + [SelectValue(constants[k], constants[k])];
    }
  }

  function SelectValues(constants: seq<string>): seq<SelectValue> {
    seq(|constants|, i requires 0 <= i < |constants| => SelectValue(constants[i], constants[i]))
  }

  /**
   * The descriptor of one field: none for an ignored field or an unsupported type, else one by
   * type; a float field's annotations may be contradictory, which is an error.
   */
  function FieldData(field: Field): (r: Result<Option<FormFieldData>, string>)
    ensures (exists i :: 0 <= i < |field.annotations| && IsIgnoreAnnotation(field.annotations[i])) ==> r == Ok(None)
    ensures r.Err? ==> field.fieldType == FloatType
    ensures field.fieldType.OtherType? ==> r == Ok(None)
    ensures r.Ok? && r.value.Some? && field.fieldType.EnumType? ==>
      r.value.value == EnumField(SelectValues(field.fieldType.constants))
  {
    if exists i :: 0 <= i < |field.annotations| && IsIgnoreAnnotation(field.annotations[i]) then Ok(None)
    else match field.fieldType
      case StringType => Ok(Some(StringField))
      case BooleanType => Ok(Some(BooleanField))
      case IntegerType =>
        if field.number.Some? then Ok(Some(IntegerField(Some(JavaIntCast(field.number.value.min)), Some(JavaIntCast(field.number.value.max)))))
        else Ok(Some(IntegerField(None, None)))
      case FloatType =>
        var d := FloatFieldData(field.number, field.possiblePercentage, field.percentage);
        if d.Err? then Err(d.error) else Ok(Some(d.value))
      case EnumType(constants) => Ok(Some(EnumField(SelectValues(constants))))
      case OtherType(_) => Ok(None)
  }

  /** A field that is not ignored and has a supported type gets a descriptor of its kind (or, for a float, an error). */
  lemma FieldDataKind(field: Field)
    requires forall i :: 0 <= i < |field.annotations| ==> !IsIgnoreAnnotation(field.annotations[i])
    requires !field.fieldType.OtherType?
    ensures FieldData(field).Ok? ==> FieldData(field).value.Some?
    ensures field.fieldType == StringType ==> FieldData(field) == Ok(Some(StringField))
    ensures field.fieldType == BooleanType ==> FieldData(field) == Ok(Some(BooleanField))
    ensures field.fieldType == IntegerType && field.number.Some? ==>
      FieldData(field) == Ok(Some(IntegerField(Some(JavaIntCast(field.number.value.min)), Some(JavaIntCast(field.number.value.max)))))
    ensures field.fieldType == IntegerType && field.number.None? ==> FieldData(field) == Ok(Some(IntegerField(None, None)))
    ensures field.fieldType == FloatType ==>
      var d := FloatFieldData(field.number, field.possiblePercentage, field.percentage);
      (FieldData(field).Err? <==> d.Err?) &&
      (d.Err? ==> FieldData(field).error == d.error) &&
      (d.Ok? ==> FieldData(field) == Ok(Some(d.value)))
    ensures field.fieldType.EnumType? ==> FieldData(field) == Ok(Some(EnumField(SelectValues(field.fieldType.constants))))
  {
  }

  /** The descriptor of one field, computed as the generator does. */
  method FormFieldDataForField(field: Field) returns (r: Result<Option<FormFieldData>, string>)
    ensures r == FieldData(field)
  {
    var ignored := IsIgnoreField(field);
    if ignored {
      return Ok(None);
    }
    match field.fieldType {
      case StringType => r := Ok(Some(StringField));
      case BooleanType => r := Ok(Some(BooleanField));
      case IntegerType =>
        if field.number.Some? {
          r := Ok(Some(IntegerField(Some(JavaIntCast(field.number.value.min)), Some(JavaIntCast(field.number.value.max)))));
        } else {
          r := Ok(Some(IntegerField(None, None)));
        }
      case FloatType =>
        var d := FloatFieldData(field.number, field.possiblePercentage, field.percentage);
        if d.Err? {
          return Err(d.error);
        }
        r := Ok(Some(d.value));
      case EnumType(constants) =>
        var values := EnumValues(constants);
        assert values == SelectValues(constants);
        r := Ok(Some(EnumField(values)));
      case OtherType(_) => r := Ok(None);
    }
  }

  // ---------------------------------------------------------------- classes

  /** The fields of a class followed by those of each superclass in turn, up to `Object`. */
  function AllFields(c: JClass): seq<Field> {
    if c.ObjectClass? then [] else c.declaredFields + AllFields(c.superclass)
  }

  /** `d` is `c` or one of its superclasses. */
  predicate InChain(c: JClass, d: JClass) {
    c == d || (c.Class? && InChain(c.superclass, d))
  }

  /** The collected fields include every declared field of the class and of every superclass. */
  lemma {:induction false} AllFieldsIncludesChain(c: JClass, d: JClass)
    requires InChain(c, d) && d.Class?
    ensures forall f :: f in d.declaredFields ==> f in AllFields(c)
  {
    if c != d {
      AllFieldsIncludesChain(c.superclass, d);
    }
  }

  /** Every collected field is declared by the class or one of its superclasses. */
  lemma {:induction false} AllFieldsOnlyChain(c: JClass, f: Field)
    requires f in AllFields(c)
    ensures exists d :: InChain(c, d) && d.Class? && f in d.declaredFields
  {
    if f !in c.declaredFields {
      AllFieldsOnlyChain(c.superclass, f);
      var d :| InChain(c.superclass, d) && d.Class? && f in d.declaredFields;
      assert InChain(c, d);
    }
  }

  /** Collects the fields of a class and of all its superclasses except `Object`. */
  method GetAllFields(cls: JClass) returns (fields: seq<Field>)
    requires cls.Class?
    ensures fields == AllFields(cls)
  {
    fields := cls.declaredFields;
    var superClass := cls.superclass;
    while superClass != ObjectClass
      invariant fields + AllFields(superClass) == AllFields(cls)
      decreases superClass
    {
      fields := fields + superClass.declaredFields;
      assert fields + AllFields(superClass.superclass) == AllFields(cls);
      superClass := superClass.superclass;
    }
    assert fields + [] == fields;
  }

  /**
   * The form of a list of fields: the descriptor of each field that has one, by field name (a
   * later field replacing an earlier one of the same name); the first error aborts.
   */
  function FormOf(fields: seq<Field>): (r: Result<map<string, FormFieldData>, string>) {
    if fields == [] then Ok(map[])
    else
      var last := fields[|fields| - 1];
      match FormOf(fields[..|fields| - 1])
      case Err(e) => Err(e)
      case Ok(form) =>
        match FieldData(last)
        case Err(e) => Err(e)
        case Ok(None) => Ok(form)
        case Ok(Some(d)) => Ok(form[last.name := d])
  }

  /**
   * A form is built exactly when no field's annotations contradict each other, and then it has an
   * entry for exactly the names of the fields that get a descriptor.
   */
  lemma FormOfEntries(fields: seq<Field>)
    ensures FormOf(fields).Ok? <==> forall i :: 0 <= i < |fields| ==> FieldData(fields[i]).Ok?
    ensures FormOf(fields).Ok? ==> forall name :: name in FormOf(fields).value <==>
      exists i :: 0 <= i < |fields| && fields[i].name == name && FieldData(fields[i]).value.Some?
  {
    FormOfOk(fields);
    if FormOf(fields).Ok? {
      forall name
        ensures name in FormOf(fields).value <==>
          exists i :: 0 <= i < |fields| && fields[i].name == name && FieldData(fields[i]).value.Some?
      {
        FormOfNames(fields, name);
      }
    }
  }

  /** A form is built exactly when every field's annotations fit together. */
  lemma {:induction false} FormOfOk(fields: seq<Field>)
    ensures FormOf(fields).Ok? <==> forall i :: 0 <= i < |fields| ==> FieldData(fields[i]).Ok?
  {
    if fields != [] {
      var init := fields[..|fields| - 1];
      FormOfOk(init);
      assert forall i :: 0 <= i < |init| ==> init[i] == fields[i];
    }
  }

  /** Some field of the list has the name and gets a descriptor. */
  predicate Described(fields: seq<Field>, name: string)
    requires forall i :: 0 <= i < |fields| ==> FieldData(fields[i]).Ok?
  {
    exists i :: 0 <= i < |fields| && fields[i].name == name && FieldData(fields[i]).value.Some?
  }

  /** The built form has an entry for a name exactly when some field of that name gets a descriptor. */
  lemma {:induction false} FormOfNames(fields: seq<Field>, name: string)
    requires FormOf(fields).Ok?
    ensures forall i :: 0 <= i < |fields| ==> FieldData(fields[i]).Ok?
    ensures name in FormOf(fields).value <==> Described(fields, name)
  {
    FormOfOk(fields);
    if fields != [] {
      var init := fields[..|fields| - 1];
      var last := fields[|fields| - 1];
      FormOfOk(init);
      FormOfNames(init, name);
      if Described(fields, name) {
        var i :| 0 <= i < |fields| && fields[i].name == name && FieldData(fields[i]).value.Some?;
        if i < |init| {
          assert init[i] == fields[i];
        }
      }
      if Described(init, name) {
        var i :| 0 <= i < |init| && init[i].name == name && FieldData(init[i]).value.Some?;
        assert fields[i] == init[i];
      }
    }
  }

  /** The first error of a prefix is the error of the whole list. */
  lemma {:induction false} FormOfErrorSticks(fields: seq<Field>, j: nat)
    requires j <= |fields| && FormOf(fields[..j]).Err?
    ensures FormOf(fields) == FormOf(fields[..j])
    decreases |fields|
  {
    if j < |fields| {
      var init := fields[..|fields| - 1];
      assert init[..j] == fields[..j];
      FormOfErrorSticks(init, j);
    } else {
      assert fields[..j] == fields;
    }
  }

  /** Builds the form of a class from all its fields. */
  method FormOfClass(cls: JClass) returns (r: Result<map<string, FormFieldData>, string>)
    requires cls.Class?
    ensures r == FormOf(AllFields(cls))
  {
    var fields := GetAllFields(cls);
    var form: map<string, FormFieldData> := map[];
    for k := 0 to |fields|
      invariant FormOf(fields[..k]) == Ok(form)
    {
      assert fields[..k + 1][..k] == fields[..k];
      var data := FormFieldDataForField(fields[k]);
      if data.Err? {
        FormOfErrorSticks(fields, k + 1);
        return Err(data.error);
      }
      if data.value.Some? {
        form := form[fields[k].name := data.value.value];
      }
    }
    assert fields[..|fields|] == fields;
    r := Ok(form);
  }

  /** A class found on the class path; `identifier` is absent when its criterion annotation is not visible at run time. */
  datatype CriteriaClass = CriteriaClass(identifier: Option<string>, cls: JClass)

  /**
   * The forms of all criteria classes by identifier; a class without a visible annotation or
   * without class data is passed over and the first error aborts.
   */
  function Forms(classes: seq<CriteriaClass>): (r: Result<map<string, map<string, FormFieldData>>, string>) {
    if classes == [] then Ok(map[])
    else
      var last := classes[|classes| - 1];
      match Forms(classes[..|classes| - 1])
      case Err(e) => Err(e)
      case Ok(forms) =>
        if last.identifier.None? || last.cls.ObjectClass? then Ok(forms)
        else match FormOf(AllFields(last.cls))
          case Err(e) => Err(e)
          case Ok(form) => Ok(forms[last.identifier.value := form])
  }

  /** Every identifier in the result belongs to a class with a visible annotation. */
  lemma {:induction false} FormsIdentifiers(classes: seq<CriteriaClass>, id: string)
    requires Forms(classes).Ok? && id in Forms(classes).value
    ensures exists i :: 0 <= i < |classes| && classes[i].identifier == Some(id) && classes[i].cls.Class?
  {
    var init, last := classes[..|classes| - 1], classes[|classes| - 1];
    if last.identifier == Some(id) && last.cls.Class? {
    } else {
      FormsIdentifiers(init, id);
      var i :| 0 <= i < |init| && init[i].identifier == Some(id) && init[i].cls.Class?;
      assert classes[i] == init[i];
    }
  }

  /** The first error of a prefix is the error of the whole list. */
  lemma {:induction false} FormsErrorSticks(classes: seq<CriteriaClass>, j: nat)
    requires j <= |classes| && Forms(classes[..j]).Err?
    ensures Forms(classes) == Forms(classes[..j])
    decreases |classes|
  {
    if j < |classes| {
      var init := classes[..|classes| - 1];
      assert init[..j] == classes[..j];
      FormsErrorSticks(init, j);
    } else {
      assert classes[..j] == classes;
    }
  }

  /** Generates the forms of all criteria classes. */
  method Run(classes: seq<CriteriaClass>) returns (r: Result<map<string, map<string, FormFieldData>>, string>)
    ensures r == Forms(classes)
  {
    var forms: map<string, map<string, FormFieldData>> := map[];
    for k := 0 to |classes|
      invariant Forms(classes[..k]) == Ok(forms)
    {
      assert classes[..k + 1][..k] == classes[..k];
      var c := classes[k];
      if c.identifier.None? || c.cls.ObjectClass? {
        continue;
      }
      var form := FormOfClass(c.cls);
      if form.Err? {
        FormsErrorSticks(classes, k + 1);
        return Err(form.error);
      }
      forms := forms[c.identifier.value := form.value];
    }
    assert classes[..|classes|] == classes;
    r := Ok(forms);
  }
}
