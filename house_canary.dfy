/** The House Canary adapter: its provider vocabulary, the tables that map it
    onto the generic schema, and the parse and normalize stages of the
    pipeline. */
module HouseCanary {
  import opened Payload
  import Mappings

  /** `HouseCanarySewerPropertyDetails`: the sewer values House Canary may send. */
  datatype SewerDetail = Municipal | Septic | Storm | NoneReported | Yes

  /** The member's string value as it appears in the payload. */
  function DetailValue(d: SewerDetail): string
  {
    match d
    case Municipal => "Municipal"
    case Septic => "Septic"
    case Storm => "Storm"
    case NoneReported => "None"
    case Yes => "Yes"
  }

  /** The enum constructor `HouseCanarySewerPropertyDetails(value)` used as a
      validator: the member whose value equals `value`, or nothing (the
      constructor raises). */
  function DetailOf(value: Json): (r: Option<SewerDetail>)
    ensures r.Some? ==> value == JStr(DetailValue(r.value))
    ensures r.None? ==> forall d :: value != JStr(DetailValue(d))
  {
    match value
    case JStr(s) =>
      if s == "Municipal" then Some(Municipal)
      else if s == "Septic" then Some(Septic)
      else if s == "Storm" then Some(Storm)
      else if s == "None" then Some(NoneReported)
      else if s == "Yes" then Some(Yes)
      else None
    case _ => None
  }

  /** `HouseCanaryFields`: the fields House Canary can supply. */
  datatype ProviderField = Sewer

  function FieldName(f: ProviderField): string
  {
    match f
    case Sewer => "sewer"
  }

  /** `HouseCanaryFields[name]`: lookup by member name, which raises on an
      unknown name. */
  function FieldFromName(name: string): (r: Option<ProviderField>)
    ensures r.Some? ==> FieldName(r.value) == name
    ensures r.None? ==> forall f :: FieldName(f) != name
  {
    if name == "sewer" then Some(Sewer) else None
  }

  /** The validator a field carries (`HouseCanaryFields[name].value`), applied
      to a value. */
  function Validate(f: ProviderField, value: Json): Option<SewerDetail>
  {
    match f
    case Sewer => DetailOf(value)
  }

  /** `house_canary_field_to_generic`, keyed by provider field name. */
  const FieldToGeneric: map<string, Mappings.GenericField> := map[FieldName(Sewer) := Mappings.Sewer]

  /** `house_canary_sewer_to_generic`, keyed by provider value. */
  const SewerToGeneric: map<string, string> := map[
    DetailValue(Municipal) := Mappings.Value(Mappings.Municipal),
    DetailValue(Septic) := Mappings.Value(Mappings.Septic),
    DetailValue(Storm) := Mappings.Value(Mappings.Storm),
    DetailValue(NoneReported) := Mappings.Value(Mappings.NoSewer),
    DetailValue(Yes) := Mappings.Value(Mappings.TypeUnknown)]

  /** The value translation as the source writes it:
      `house_canary_sewer_to_generic.get(value, existence_unknown)`. A JSON
      object is not hashable and cannot be looked up. */
  function TranslateSewer(value: Json): (r: Result<string>)
    ensures r.Err? <==> value.JObject?
    ensures r.Err? ==> r.error == TypeError
    ensures r.Ok? ==> Mappings.FromValue(r.value).Some?
    ensures r.Ok? ==> (r.value == Mappings.Value(Mappings.ExistenceUnknown) <==>
                       !(value.JStr? && value.s in SewerToGeneric))
  {
    match value
    case JObject(_) => Err(TypeError)
    case JStr(s) =>
      if s in SewerToGeneric then Ok(SewerToGeneric[s])
      else Ok(Mappings.Value(Mappings.ExistenceUnknown))
    case _ => Ok(Mappings.Value(Mappings.ExistenceUnknown))
  }

  /** The translation as a total function on the provider's sum type: the
      reference the dictionary table is checked against. */
  function Generic(d: SewerDetail): Mappings.GenericSewer
  {
    match d
    case Municipal => Mappings.Municipal
    case Septic => Mappings.Septic
    case Storm => Mappings.Storm
    case NoneReported => Mappings.NoSewer
    case Yes => Mappings.TypeUnknown
  }

  /** The only provider field is renamed to the canonical field of the same
      name, and the field table has an entry for every provider field. */
  lemma FieldTableIsIdentityOnNames(f: ProviderField)
    ensures FieldName(f) in FieldToGeneric
    ensures Mappings.FieldName(FieldToGeneric[FieldName(f)]) == FieldName(f)
    ensures FieldToGeneric.Keys == {FieldName(Sewer)}
  {
  }

  /** The value table has an entry for exactly the five provider values, agrees
      with `Generic` on each of them, and never yields `existence_unknown`;
      every value it yields lies in the canonical sewer domain. */
  lemma SewerTableIsTotal()
    ensures forall d: SewerDetail :: DetailValue(d) in SewerToGeneric
    ensures forall d: SewerDetail :: SewerToGeneric[DetailValue(d)] == Mappings.Value(Generic(d))
    ensures forall k :: k in SewerToGeneric ==> exists d: SewerDetail :: DetailValue(d) == k
    ensures forall k :: k in SewerToGeneric ==> SewerToGeneric[k] != Mappings.Value(Mappings.ExistenceUnknown)
    ensures forall k :: k in SewerToGeneric ==> Mappings.FromValue(SewerToGeneric[k]).Some?
  {
  }

  /** Once a value has passed the validator, the table lookup always hits: the
      `existence_unknown` default is never used, and the result is the canonical
      value `Generic` assigns. */
  lemma TranslateValidated(value: Json, d: SewerDetail)
    requires DetailOf(value) == Some(d)
    ensures value.JStr? && value.s in SewerToGeneric
    ensures TranslateSewer(value) == Ok(Mappings.Value(Generic(d)))
    ensures TranslateSewer(value) != Ok(Mappings.Value(Mappings.ExistenceUnknown))
  {
  }

  /** The five translations, value by value. */
  lemma SewerTranslations()
    ensures TranslateSewer(JStr("Septic")) == Ok("septic")
    ensures TranslateSewer(JStr("Municipal")) == Ok("municipal")
    ensures TranslateSewer(JStr("Storm")) == Ok("storm")
    ensures TranslateSewer(JStr("None")) == Ok("no_sewer")
    ensures TranslateSewer(JStr("Yes")) == Ok("type_unknown")
  {
  }

  // ---------------------------------------------------------------- parse

  /** `fields_to_retrieve`: the provider fields the adapter extracts. */
  const FieldsToRetrieve: seq<string> := [FieldName(Sewer)]

  const DetailsKey := "property/details"
  const ResultKey := "result"
  const PropertyKey := "property"
  const AssessmentKey := "assessment"

  /** The comprehension that keeps only the retrievable fields. */
  function Retrieve(m: map<string, Json>): (r: map<string, Json>)
    ensures forall k :: k in r <==> k in m && k in FieldsToRetrieve
    ensures forall k :: k in r ==> r[k] == m[k]
  {
    map k | k in m && k in FieldsToRetrieve :: m[k]
  }

  /** What `parse_home_data` returns or raises for a decoded payload: dig out
      `['property/details']['result']`, merge its `assessment` object over its
      `property` object (absent ones count as empty), keep the retrievable fields. */
  function Parsed(homeData: Json): (r: Result<map<string, Json>>)
    ensures r.Ok? ==> forall k :: k in r.value ==> k in FieldsToRetrieve
  {
    var details :- Index(homeData, DetailsKey);
    var result :- Index(details, ResultKey);
    var propertyData :- Get(result, PropertyKey, JObject(map[]));
    // `result` has a `get` method, so this lookup cannot raise
    var assessment := Get(result, AssessmentKey, JObject(map[])).value;
    var merged :- Update(propertyData, assessment);
    Ok(Retrieve(merged))
  }

  /** `parse_home_data`, statement by statement; `property_data.update(...)`
      reassigns the local dictionary. */
  method ParseHomeData(homeData: Json) returns (r: Result<map<string, Json>>)
    ensures r == Parsed(homeData)
    ensures r.Ok? ==> forall k :: k in r.value ==> k in FieldsToRetrieve
  {
    var details := Index(homeData, DetailsKey);
    if details.Err? {
      return Err(details.error);
    }
    var result := Index(details.value, ResultKey);
    if result.Err? {
      return Err(result.error);
    }
    var property := Get(result.value, PropertyKey, JObject(map[]));
    if property.Err? {
      return Err(property.error);
    }
    // `result` has a `get` method, so this lookup cannot raise
    var assessment := Get(result.value, AssessmentKey, JObject(map[]));
    if !property.value.JObject? {
      return Err(AttributeError);
    }
    var propertyData := property.value.fields;
    match assessment.value {
      case JObject(more) =>
        propertyData := propertyData + more;
      case JStr(s) =>
        if s != "" {
          return Err(ValueError(assessment.value));
        }
      case _ =>
        return Err(TypeError);
    }
    r := Ok(Retrieve(propertyData));
  }

  /** A payload whose `property/details` container, or the `result` inside it,
      is missing fails with `KeyError` naming the missing key; a container that
      is not a JSON object is not subscriptable. */
  lemma ParseNeedsContainers(homeData: Json)
    ensures homeData.JObject? && DetailsKey !in homeData.fields ==>
              Parsed(homeData) == Err(KeyError(DetailsKey))
    ensures homeData.JObject? && DetailsKey in homeData.fields &&
            homeData.fields[DetailsKey].JObject? && ResultKey !in homeData.fields[DetailsKey].fields ==>
              Parsed(homeData) == Err(KeyError(ResultKey))
    ensures !homeData.JObject? ==> Parsed(homeData) == Err(TypeError)
  {
  }

  /** The `result` object of a payload, when the payload has one. */
  ghost predicate HasResult(homeData: Json, result: map<string, Json>)
  {
    && homeData.JObject?
    && DetailsKey in homeData.fields
    && homeData.fields[DetailsKey].JObject?
    && ResultKey in homeData.fields[DetailsKey].fields
    && homeData.fields[DetailsKey].fields[ResultKey] == JObject(result)
  }

  /** Given a `result` whose `property` and `assessment` entries are objects or
      absent (absent ones count as empty), parsing succeeds; its keys are the
      retrievable fields present in either object, and on a key present in both
      the assessment's value wins. Values pass through unchanged. */
  lemma ParseMerges(homeData: Json, result: map<string, Json>,
                    property: map<string, Json>, assessment: map<string, Json>)
    requires HasResult(homeData, result)
    requires if PropertyKey in result then result[PropertyKey] == JObject(property) else property == map[]
    requires if AssessmentKey in result then result[AssessmentKey] == JObject(assessment) else assessment == map[]
    ensures Parsed(homeData).Ok?
    ensures forall k :: k in Parsed(homeData).value <==>
                          k in FieldsToRetrieve && (k in property || k in assessment)
    ensures forall k :: k in Parsed(homeData).value ==>
                          Parsed(homeData).value[k] == if k in assessment then assessment[k] else property[k]
  {
  }

  /** A `result` with neither a `property` nor an `assessment` object parses to
      the empty dictionary. */
  lemma ParseAbsentObjectsAreEmpty(homeData: Json, result: map<string, Json>)
    requires HasResult(homeData, result)
    requires PropertyKey !in result && AssessmentKey !in result
    ensures Parsed(homeData) == Ok(map[])
  {
  }

  /** A `property` entry that is present but not an object has no `update`;
      an `assessment` entry that is neither an object nor the empty string
      cannot be merged. */
  lemma ParseRejectsMalformedObjects(homeData: Json, result: map<string, Json>)
    requires HasResult(homeData, result)
    ensures PropertyKey in result && !result[PropertyKey].JObject? ==>
              Parsed(homeData) == Err(AttributeError)
    ensures PropertyKey in result && result[PropertyKey].JObject? &&
            AssessmentKey in result && result[AssessmentKey] != JStr("") && !result[AssessmentKey].JObject? ==>
              Parsed(homeData).Err?
  {
  }

  // ------------------------------------------------------------ normalize

  /** What validating one parsed entry raises, if anything: the field lookup
      `HouseCanaryFields[name]` first, then the field's enum constructor. */
  function EntryError(name: string, value: Json): Option<Error>
  {
    match FieldFromName(name)
    case None => Some(KeyError(name))
    case Some(f) => if Validate(f, value).None? then Some(ValueError(value)) else None
  }

  /** `normalize_home_data`: validate every entry, rename its field through the
      field table and translate its value through the sewer table. */
  method NormalizeHomeData(homeData: map<string, Json>) returns (r: Result<map<string, Json>>)
    ensures r.Ok? <==> forall k :: k in homeData ==> EntryError(k, homeData[k]).None?
    ensures r.Err? ==> exists k :: k in homeData && EntryError(k, homeData[k]) == Some(r.error)
    ensures r.Ok? ==> r.value.Keys == homeData.Keys
    ensures r.Ok? ==> forall k :: k in r.value ==>
                        DetailOf(homeData[k]).Some? &&
                        r.value[k] == JStr(Mappings.Value(Generic(DetailOf(homeData[k]).value)))
    ensures r.Ok? ==> forall k :: k in r.value ==>
                        r.value[k].JStr? && Mappings.FromValue(r.value[k].s).Some? &&
                        r.value[k] != JStr(Mappings.Value(Mappings.ExistenceUnknown))
  {
    var normalized: map<string, Json> := map[];
    var todo := homeData.Keys;
    while todo != {}
      invariant todo <= homeData.Keys
      invariant normalized.Keys == homeData.Keys - todo
      invariant forall k :: k in normalized ==> EntryError(k, homeData[k]).None?
      invariant forall k :: k in normalized ==>
                  DetailOf(homeData[k]).Some? &&
                  normalized[k] == JStr(Mappings.Value(Generic(DetailOf(homeData[k]).value)))
      decreases todo
    {
      var name :| name in todo;
      var value := homeData[name];
      var field := FieldFromName(name);
      if field.None? {
        return Err(KeyError(name));
      }
      var detail := Validate(field.value, value);
      if detail.None? {
        return Err(ValueError(value));
      }
      FieldTableIsIdentityOnNames(field.value);
      var canonical := Mappings.FieldName(FieldToGeneric[name]);
      TranslateValidated(value, detail.value);
      var translated := TranslateSewer(value);
      normalized := normalized[canonical := JStr(translated.value)];
      todo := todo - {name};
    }
    forall k | k in normalized
      ensures normalized[k].JStr? && Mappings.FromValue(normalized[k].s).Some?
      ensures normalized[k] != JStr(Mappings.Value(Mappings.ExistenceUnknown))
    {
      var g := Generic(DetailOf(homeData[k]).value);
      Mappings.ValueInjective(g, Mappings.ExistenceUnknown);
    }
    r := Ok(normalized);
  }

  /** The outcome of normalizing a parsed dictionary, which holds at most the
      retrievable `sewer` field: nothing to do, a `ValueError` for a value
      outside the provider's vocabulary, or the translated value. */
  function Normalized(parsed: map<string, Json>): Result<map<string, Json>>
  {
    if FieldName(Sewer) !in parsed then Ok(map[])
    else
      match DetailOf(parsed[FieldName(Sewer)])
      case None => Err(ValueError(parsed[FieldName(Sewer)]))
      case Some(d) => Ok(map[Mappings.FieldName(Mappings.Sewer) := JStr(Mappings.Value(Generic(d)))])
  }

  /** On a dictionary holding only retrievable fields, the outcomes allowed by
      `NormalizeHomeData`'s contract are exactly `Normalized`. */
  lemma NormalizedIsDetermined(parsed: map<string, Json>, r: Result<map<string, Json>>)
    requires forall k :: k in parsed ==> k in FieldsToRetrieve
    requires r.Ok? <==> forall k :: k in parsed ==> EntryError(k, parsed[k]).None?
    requires r.Err? ==> exists k :: k in parsed && EntryError(k, parsed[k]) == Some(r.error)
    requires r.Ok? ==> r.value.Keys == parsed.Keys
    requires r.Ok? ==> forall k :: k in r.value ==>
                         DetailOf(parsed[k]).Some? &&
                         r.value[k] == JStr(Mappings.Value(Generic(DetailOf(parsed[k]).value)))
    ensures r == Normalized(parsed)
  {
    var sewer := FieldName(Sewer);
    if sewer !in parsed {
      assert parsed.Keys == {};
      assert r.Ok?;
      assert r.value == map[];
    } else {
      assert parsed.Keys == {sewer};
      if r.Ok? {
        assert r.value == map[sewer := r.value[sewer]];
      } else {
        var k :| k in parsed && EntryError(k, parsed[k]) == Some(r.error);
        assert k == sewer;
      }
    }
  }

  /** A value outside the provider's vocabulary is rejected rather than
      absorbed into `existence_unknown`. */
  lemma UnmappedValueRaises(code: string)
    requires code !in {"Municipal", "Septic", "Storm", "None", "Yes"}
    ensures Normalized(map["sewer" := JStr(code)]) == Err(ValueError(JStr(code)))
    ensures EntryError("sewer", JStr(code)) == Some(ValueError(JStr(code)))
  {
  }
}
