/**
 * The container of the Schein criteria of the TypeScript server: metadata registered by the
 * criteria's property decorators, keyed by class name and property name, and one blueprint (the
 * form of the criterion's properties) per criterion identifier. Reflection is replaced by explicit
 * data: a criterion class is given by its identifier, its own properties with their design types,
 * and the class names along its prototype chain.
 */
module CriteriaContainer {
  import opened Wrappers

  /** The key of registered metadata; its string form is taken to tell different keys apart. */
  datatype MetadataKey = MetadataKey(className: string, propertyName: string)

  datatype Metadata =
    | EmptyMetadata
    | IgnoreMetadata
    | EnumMetadata(enumEntries: seq<string>)
    | IntMetadata(intMin: Option<real>, intMax: Option<real>)
    | PercentageMetadata
    | PossiblePercentageMetadata(toggledBy: string)
    | FloatMetadata(min: Option<real>, max: Option<real>)
    | OtherMetadata(kind: string)

  /** The lower-cased name of a property's design type, as far as the form system distinguishes it. */
  datatype DesignType = StringDesign | BooleanDesign | NumberDesign | BigIntDesign | OtherDesign(name: string) | NoDesign

  datatype SelectValue = SelectValue(name: string, value: string)

  datatype FormFieldData =
    | StringField
    | BooleanField
    | IntegerField(intMin: Option<real>, intMax: Option<real>)
    | FloatField(min: Option<real>, max: Option<real>, percentage: Option<bool>, percentageToggleField: Option<string>)
    | EnumField(values: seq<SelectValue>)

  datatype Property = Property(name: string, designType: DesignType)

  /** A criterion class: its identifier, the own properties of a new instance, and the class names along its prototype chain. */
  datatype CriteriaClass = CriteriaClass(identifier: string, properties: seq<Property>, prototypeChain: seq<string>)

  const IdentifierProperty := "identifier"
  const NumberWithoutMetadata := " is a number. Number properties should have metadata to provide additional information. Please use @ScheincriteriaNumber() at the property "
  const NoBluePrint := "No criteria blue print found for identifier '"

  /** The error for a number property without metadata. */
  function NumberWithoutMetadataError(propertyName: string): string {
    propertyName + NumberWithoutMetadata + propertyName + "."
  }

  /** The metadata found first along the chain from position `i` on, else the empty metadata. */
  function FirstMetadata(metadata: map<MetadataKey, Metadata>, chain: seq<string>, propertyName: string, i: nat): (r: Metadata)
    requires i <= |chain|
    decreases |chain| - i
  {
    if i == |chain| then EmptyMetadata
    else if MetadataKey(chain[i], propertyName) in metadata then metadata[MetadataKey(chain[i], propertyName)]
    else FirstMetadata(metadata, chain, propertyName, i + 1)
  }

  /**
   * The lookup returns the metadata registered for the first class along the chain that has some
   * for the property, and the empty metadata when no class has any.
   */
  lemma {:induction false} FirstMetadataFound(metadata: map<MetadataKey, Metadata>, chain: seq<string>, propertyName: string, i: nat, j: nat)
    requires i <= j < |chain|
    requires MetadataKey(chain[j], propertyName) in metadata
    requires forall k :: i <= k < j ==> MetadataKey(chain[k], propertyName) !in metadata
    ensures FirstMetadata(metadata, chain, propertyName, i) == metadata[MetadataKey(chain[j], propertyName)]
    decreases j - i
  {
    if i < j {
      FirstMetadataFound(metadata, chain, propertyName, i + 1, j);
    }
  }

  lemma {:induction false} FirstMetadataEmpty(metadata: map<MetadataKey, Metadata>, chain: seq<string>, propertyName: string, i: nat)
    requires i <= |chain|
    requires forall k :: i <= k < |chain| ==> MetadataKey(chain[k], propertyName) !in metadata
    ensures FirstMetadata(metadata, chain, propertyName, i) == EmptyMetadata
    decreases |chain| - i
  {
    if i < |chain| {
      FirstMetadataEmpty(metadata, chain, propertyName, i + 1);
    }
  }

  /**
   * The form field of one property from its metadata and design type: none for the identifier,
   * for ignored properties and for unsupported types; a number property must have metadata.
   */
  function FieldDataForProperty(propertyName: string, metadata: Metadata, designType: DesignType): (r: Result<Option<FormFieldData>, string>)
    ensures propertyName == IdentifierProperty ==> r == Ok(None)
    ensures metadata == IgnoreMetadata ==> r == Ok(None)
    ensures r.Err? <==> propertyName != IdentifierProperty && metadata == EmptyMetadata && designType in {NumberDesign, BigIntDesign}
    ensures r.Err? ==> r.error == NumberWithoutMetadataError(propertyName)
    ensures r.Ok? && r.value.Some? && metadata == PercentageMetadata && designType in {NumberDesign, BigIntDesign} ==>
      r.value.value == FloatField(Some(0.0), Some(100.0), Some(true), None)
    ensures propertyName != IdentifierProperty && metadata.EnumMetadata? ==>
      r == Ok(Some(EnumField(SelectValues(metadata.enumEntries))))
    ensures propertyName != IdentifierProperty && metadata != IgnoreMetadata && !metadata.EnumMetadata? ==>
      (designType == StringDesign ==> r == Ok(Some(StringField))) &&
      (designType == BooleanDesign ==> r == Ok(Some(BooleanField))) &&
      (designType !in {StringDesign, BooleanDesign, NumberDesign, BigIntDesign} ==> r == Ok(None))
  {
    if propertyName == IdentifierProperty then Ok(None)
    else if metadata.IgnoreMetadata? then Ok(None)
    else if metadata.EnumMetadata? then Ok(Some(EnumField(SelectValues(metadata.enumEntries))))
    else match designType
      case StringDesign => Ok(Some(StringField))
      case BooleanDesign => Ok(Some(BooleanField))
      case NumberDesign => NumberFieldData(propertyName, metadata)
      case BigIntDesign => NumberFieldData(propertyName, metadata)
      case _ => Ok(None)
  }

  function NumberFieldData(propertyName: string, metadata: Metadata): Result<Option<FormFieldData>, string> {
    match metadata
    case EmptyMetadata => Err(NumberWithoutMetadataError(propertyName))
    case IntMetadata(min, max) => Ok(Some(IntegerField(min, max)))
    case PercentageMetadata => Ok(Some(FloatField(Some(0.0), Some(100.0), Some(true), None)))
    case PossiblePercentageMetadata(toggledBy) => Ok(Some(FloatField(None, None, None, Some(toggledBy))))
    case FloatMetadata(min, max) => Ok(Some(FloatField(min, max, None, None)))
    case _ => Ok(Some(FloatField(None, None, None, None)))
  }

  function SelectValues(entries: seq<string>): (r: seq<SelectValue>)
    ensures |r| == |entries| && forall i :: 0 <= i < |entries| ==> r[i] == SelectValue(entries[i], entries[i])
  {
    seq(|entries|, i requires 0 <= i < |entries| => SelectValue(entries[i], entries[i]))
  }

  /**
   * A number property with metadata gets, per kind of metadata: an integer field with the int
   * metadata's bounds, a 0..100 percentage field, a float field toggled by the named property, a
   * float field with the float metadata's bounds, and a float field without bounds for any other kind.
   */
  lemma NumberFieldKinds(propertyName: string, metadata: Metadata, designType: DesignType)
    requires propertyName != IdentifierProperty && designType in {NumberDesign, BigIntDesign}
    requires metadata != EmptyMetadata && metadata != IgnoreMetadata && !metadata.EnumMetadata?
    ensures FieldDataForProperty(propertyName, metadata, designType).Ok?
    ensures FieldDataForProperty(propertyName, metadata, designType).value.Some?
    ensures FieldDataForProperty(propertyName, metadata, designType).value.value.IntegerField? <==> metadata.IntMetadata?
    ensures metadata.IntMetadata? ==>
      FieldDataForProperty(propertyName, metadata, designType) == Ok(Some(IntegerField(metadata.intMin, metadata.intMax)))
    ensures metadata.PercentageMetadata? ==>
      FieldDataForProperty(propertyName, metadata, designType) == Ok(Some(FloatField(Some(0.0), Some(100.0), Some(true), None)))
    ensures metadata.PossiblePercentageMetadata? ==>
      FieldDataForProperty(propertyName, metadata, designType) == Ok(Some(FloatField(None, None, None, Some(metadata.toggledBy))))
    ensures metadata.FloatMetadata? ==>
      FieldDataForProperty(propertyName, metadata, designType) == Ok(Some(FloatField(metadata.min, metadata.max, None, None)))
    ensures metadata.OtherMetadata? ==>
      FieldDataForProperty(propertyName, metadata, designType) == Ok(Some(FloatField(None, None, None, None)))
  {
  }

  /** The form of a criterion: the form field of each of its properties that has one. */
  function FormOf(metadata: map<MetadataKey, Metadata>, c: CriteriaClass, n: nat): (r: Result<map<string, FormFieldData>, string>)
    requires n <= |c.properties|
  {
    if n == 0 then Ok(map[])
    else
      var p := c.properties[n - 1];
      match FormOf(metadata, c, n - 1)
      case Err(e) => Err(e)
      case Ok(form) =>
        match FieldDataForProperty(p.name, FirstMetadata(metadata, c.prototypeChain, p.name, 0), p.designType)
        case Err(e) => Err(e)
        case Ok(None) => Ok(form)
        case Ok(Some(d)) => Ok(form[p.name := d])
  }

  /** A form never has a field for the identifier property. */
  lemma {:induction false} FormHasNoIdentifier(metadata: map<MetadataKey, Metadata>, c: CriteriaClass, n: nat)
    requires n <= |c.properties| && FormOf(metadata, c, n).Ok?
    ensures IdentifierProperty !in FormOf(metadata, c, n).value
  {
    if n > 0 {
      FormHasNoIdentifier(metadata, c, n - 1);
    }
  }

  /** A property whose metadata says to ignore it never has a field. */
  lemma {:induction false} FormHasNoIgnored(metadata: map<MetadataKey, Metadata>, c: CriteriaClass, n: nat, name: string)
    requires n <= |c.properties| && FormOf(metadata, c, n).Ok?
    requires FirstMetadata(metadata, c.prototypeChain, name, 0) == IgnoreMetadata
    ensures name !in FormOf(metadata, c, n).value
  {
    if n > 0 {
      FormHasNoIgnored(metadata, c, n - 1, name);
    }
  }

  lemma {:induction false} FormErrorSticks(metadata: map<MetadataKey, Metadata>, c: CriteriaClass, j: nat, n: nat)
    requires j <= n <= |c.properties| && FormOf(metadata, c, j).Err?
    ensures FormOf(metadata, c, n) == FormOf(metadata, c, j)
    decreases n - j
  {
    if j < n {
      FormErrorSticks(metadata, c, j, n - 1);
    }
  }

  datatype ScheincriteriaForm = ScheincriteriaForm(identifier: string, formDataSet: map<string, FormFieldData>)

  class SCContainer {
    var criteriaMetadata: map<MetadataKey, Metadata>
    var criteriaBluePrints: map<string, ScheincriteriaForm>

    constructor()
      ensures criteriaMetadata == map[] && criteriaBluePrints == map[]
    {
      criteriaMetadata := map[];
      criteriaBluePrints := map[];
    }

    /** Saves metadata for a key, replacing what was saved for it before. */
    method AddMetadata(key: MetadataKey, value: Metadata)
      modifies this
      ensures criteriaMetadata == old(criteriaMetadata)[key := value]
      ensures criteriaBluePrints == old(criteriaBluePrints)
    {
      criteriaMetadata := criteriaMetadata[key := value];
    }

    /** Looks for the property's metadata along the prototype chain: the first found, else the empty metadata. */
    method GetMetadata(chain: seq<string>, propertyName: string) returns (r: Metadata)
      ensures r == FirstMetadata(criteriaMetadata, chain, propertyName, 0)
    {
      var metadata := criteriaMetadata;
      var i := 0;
      while i < |chain|
        invariant 0 <= i <= |chain|
        invariant forall k :: 0 <= k < i ==> MetadataKey(chain[k], propertyName) !in metadata
      {
        var key := MetadataKey(chain[i], propertyName);
        if key in metadata {
          FirstMetadataFound(metadata, chain, propertyName, 0, i);
          return metadata[key];
        }
        i := i + 1;
      }
      FirstMetadataEmpty(metadata, chain, propertyName, 0);
      return EmptyMetadata;
    }

    /**
     * Registers the blueprint of a criterion class: the form field of each of its properties, under
     * its identifier (replacing an earlier blueprint). A number property without metadata aborts
     * the registration.
     */
    method RegisterBluePrint(c: CriteriaClass) returns (r: Result<(), string>)
      modifies this
      ensures criteriaMetadata == old(criteriaMetadata)
      ensures r.Ok? <==> FormOf(criteriaMetadata, c, |c.properties|).Ok?
      ensures r.Err? ==> r.error == FormOf(criteriaMetadata, c, |c.properties|).error
      ensures criteriaBluePrints == if r.Err? then old(criteriaBluePrints)
        else old(criteriaBluePrints)[c.identifier := ScheincriteriaForm(c.identifier, FormOf(criteriaMetadata, c, |c.properties|).value)]
    {
      var formDataSet: map<string, FormFieldData> := map[];
      for k := 0 to |c.properties|
        invariant FormOf(criteriaMetadata, c, k) == Ok(formDataSet)
        invariant criteriaMetadata == old(criteriaMetadata) && criteriaBluePrints == old(criteriaBluePrints)
      {
        var p := c.properties[k];
        var fieldData := GetFormFieldDataForProperty(p, c.prototypeChain);
        if fieldData.Err? {
          FormErrorSticks(criteriaMetadata, c, k + 1, |c.properties|);
          return Err(fieldData.error);
        }
        if fieldData.value.Some? {
          formDataSet := formDataSet[p.name := fieldData.value.value];
        }
      }
      criteriaBluePrints := criteriaBluePrints[c.identifier := ScheincriteriaForm(c.identifier, formDataSet)];
      r := Ok(());
    }

    method GetFormFieldDataForProperty(p: Property, chain: seq<string>) returns (r: Result<Option<FormFieldData>, string>)
      ensures r == FieldDataForProperty(p.name, FirstMetadata(criteriaMetadata, chain, p.name, 0), p.designType)
    {
      if p.name == IdentifierProperty {
        return Ok(None);
      }
      var metadata := GetMetadata(chain, p.name);
      r := FieldDataForProperty(p.name, metadata, p.designType);
    }

    /** The blueprint of an identifier; an error when none is registered. */
    function GetBluePrint(identifier: string): (r: Result<ScheincriteriaForm, string>)
      reads this
      ensures r.Ok? <==> identifier in criteriaBluePrints
      ensures r.Ok? ==> r.value == criteriaBluePrints[identifier]
      ensures r.Err? ==> r.error == NoBluePrint + identifier + "'."
    {
      if identifier in criteriaBluePrints then Ok(criteriaBluePrints[identifier]) else Err(NoBluePrint + identifier + "'.")
    }

    /** The form data of every registered blueprint, by identifier. */
    method GetFormData() returns (formData: map<string, map<string, FormFieldData>>)
      ensures formData.Keys == criteriaBluePrints.Keys
      ensures forall id :: id in formData ==> formData[id] == criteriaBluePrints[id].formDataSet
    {
      formData := map[];
      var remaining := criteriaBluePrints.Keys;
      while remaining != {}
        invariant remaining <= criteriaBluePrints.Keys
        invariant formData.Keys == criteriaBluePrints.Keys - remaining
        invariant forall id :: id in formData ==> formData[id] == criteriaBluePrints[id].formDataSet
        decreases remaining
      {
        var key :| key in remaining;
        var formDataSet := CopyFormDataSet(criteriaBluePrints[key].formDataSet);
        formData := formData[key := formDataSet];
        remaining := remaining - {key};
      }
    }
  }

  /** Copies a form's fields entry by entry into a new object. */
  method CopyFormDataSet(dataSet: map<string, FormFieldData>) returns (copy: map<string, FormFieldData>)
    ensures copy == dataSet
  {
    copy := map[];
    var remaining := dataSet.Keys;
    while remaining != {}
      invariant remaining <= dataSet.Keys
      invariant copy.Keys == dataSet.Keys - remaining
      invariant forall k :: k in copy ==> copy[k] == dataSet[k]
      decreases remaining
    {
      var key :| key in remaining;
      copy := copy[key := dataSet[key]];
      remaining := remaining - {key};
    }
  }

  /** Registering blueprints one after the other keeps one per identifier, the last registered. */
  lemma RegisteredLastWins(bluePrints: map<string, ScheincriteriaForm>, a: ScheincriteriaForm, b: ScheincriteriaForm)
    requires a.identifier == b.identifier
    ensures bluePrints[a.identifier := a][b.identifier := b] == bluePrints[b.identifier := b]
  {
  }
}
