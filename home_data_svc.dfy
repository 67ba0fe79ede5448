/** The normalization pipeline: derived ("constructed") fields computed from
    normalized data, the final projection onto the caller's expected fields,
    and the House Canary service object that runs parse, normalize, construct
    and prune over an already fetched payload and keeps the result. */
module HomeDataSvc {
  import opened Payload
  import Mappings
  import HouseCanary

  /** The canonical key `has_septic` reads. */
  const SewerKey := Mappings.FieldName(Mappings.Sewer)

  /** The derived field's key. */
  const HasSepticKey := "has_septic"

  /** `has_septic`: whether the normalized `sewer` value is `septic`. It indexes
      the dictionary, so a missing `sewer` key raises `KeyError`. */
  function HasSeptic(data: map<string, Json>): (r: Result<Json>)
    ensures r.Ok? <==> SewerKey in data
    ensures r.Err? ==> r.error == KeyError(SewerKey)
    ensures r.Ok? ==> r.value.JBool? && (r.value.b <==> data[SewerKey] == JStr(Mappings.Value(Mappings.Septic)))
  {
    if SewerKey in data then Ok(JBool(data[SewerKey] == JStr(Mappings.Value(Mappings.Septic))))
    else Err(KeyError(SewerKey))
  }

  /** `constructed_fields`: the derived fields, in the order they are built. */
  const ConstructedFields: seq<string> := [HasSepticKey]

  /** `getattr(self, name)(data)`: the constructor bound to a derived field's
      name, applied to the data; a name without a constructor is an
      `AttributeError`. */
  function Construct(name: string, data: map<string, Json>): (r: Result<Json>)
    ensures r == Err(AttributeError) <==> name !in ConstructedFields
    ensures name in ConstructedFields ==> r == HasSeptic(data)
  {
    if name == HasSepticKey then HasSeptic(data) else Err(AttributeError)
  }

  /** What `_build_constructed_fields` leaves after handling the first
      `|names|` derived fields: each constructor sees the dictionary as the
      earlier ones left it; an `AttributeError` skips the field, any other
      error propagates. */
  function ConstructFields(names: seq<string>, data: map<string, Json>): Result<map<string, Json>>
    decreases |names|
  {
    if names == [] then Ok(data)
    else
      var built :- ConstructFields(names[..|names| - 1], data);
      var name := names[|names| - 1];
      match Construct(name, built)
      case Ok(v) => Ok(built[name := v])
      case Err(e) => if e.AttributeError? then Ok(built) else Err(e)
  }

  /** Once building fails, adding more derived fields cannot recover it. */
  lemma {:induction false} ConstructFieldsErrorSticks(names: seq<string>, i: nat, data: map<string, Json>)
    requires i <= |names|
    requires ConstructFields(names[..i], data).Err?
    ensures ConstructFields(names, data) == ConstructFields(names[..i], data)
    decreases |names| - i
  {
    if i < |names| {
      var longer := names[..i + 1];
      assert longer[..|longer| - 1] == names[..i];
      ConstructFieldsErrorSticks(names, i + 1, data);
    } else {
      assert names[..i] == names;
    }
  }

  /** The `except AttributeError` branch is dead: every listed derived field
      has a constructor, and `has_septic` raises nothing but `KeyError`. */
  lemma AttributeErrorIsUnreachable(name: string, data: map<string, Json>)
    requires name in ConstructedFields
    ensures Construct(name, data) != Err(AttributeError)
  {
  }

  /** Building the derived fields keeps every other key and value, adds
      `has_septic`, and fails with the uncaught `KeyError` exactly when the
      normalized data has no `sewer`. */
  lemma ConstructedFieldsEffect(data: map<string, Json>)
    ensures ConstructFields(ConstructedFields, data).Err? <==> SewerKey !in data
    ensures ConstructFields(ConstructedFields, data).Err? ==>
              ConstructFields(ConstructedFields, data).error == KeyError(SewerKey)
    ensures ConstructFields(ConstructedFields, data).Ok? ==>
              var built := ConstructFields(ConstructedFields, data).value;
              && built.Keys == data.Keys + {HasSepticKey}
              && (forall k :: k in data && k != HasSepticKey ==> built[k] == data[k])
              && built[HasSepticKey] == JBool(data[SewerKey] == JStr(Mappings.Value(Mappings.Septic)))
  {
  }

  /** `_build_constructed_fields`: add every derived field to the normalized
      dictionary, in order. */
  method BuildConstructedFields(normalized: map<string, Json>) returns (r: Result<map<string, Json>>)
    ensures r == ConstructFields(ConstructedFields, normalized)
    ensures r.Err? <==> SewerKey !in normalized
    ensures r.Err? ==> r.error == KeyError(SewerKey)
    ensures r.Ok? ==> r.value.Keys == normalized.Keys + {HasSepticKey}
    ensures r.Ok? ==> forall k :: k in normalized && k != HasSepticKey ==> r.value[k] == normalized[k]
    ensures r.Ok? ==> HasSeptic(normalized) == Ok(r.value[HasSepticKey])
  {
    ConstructedFieldsEffect(normalized);
    var data := normalized;
    var i := 0;
    while i < |ConstructedFields|
      invariant 0 <= i <= |ConstructedFields|
      invariant ConstructFields(ConstructedFields[..i], normalized) == Ok(data)
    {
      var name := ConstructedFields[i];
      var value := Construct(name, data);
      assert ConstructedFields[..i + 1][..i] == ConstructedFields[..i];
      if value.Ok? {
        data := data[name := value.value];
      } else if !value.error.AttributeError? {
        ConstructFieldsErrorSticks(ConstructedFields, i + 1, normalized);
        return Err(value.error);
      }
      i := i + 1;
    }
    assert ConstructedFields[..i] == ConstructedFields;
    r := Ok(data);
  }

  /** The projection onto the caller's expected fields. */
  function Prune(data: map<string, Json>, expectedFields: seq<string>): (r: map<string, Json>)
    ensures forall k :: k in r <==> k in data && k in expectedFields
    ensures forall k :: k in r ==> r[k] == data[k]
    ensures expectedFields == [] ==> r == map[]
  {
    map k | k in data && k in expectedFields :: data[k]
  }

  /** What `build_home_data` returns or raises for a fetched payload. */
  function Pipeline(fetched: Json, expectedFields: seq<string>): Result<map<string, Json>>
  {
    var parsed :- HouseCanary.Parsed(fetched);
    var normalized :- HouseCanary.Normalized(parsed);
    var built :- ConstructFields(ConstructedFields, normalized);
    Ok(Prune(built, expectedFields))
  }

  /** The pipeline succeeds exactly when parsing succeeds and yields a `sewer`
      value from the provider's vocabulary. Otherwise the parse error, the
      validator's `ValueError`, or `has_septic`'s `KeyError` escapes, the last
      one whatever the expected fields are. */
  lemma PipelineOutcome(fetched: Json, expectedFields: seq<string>)
    ensures HouseCanary.Parsed(fetched).Err? ==> Pipeline(fetched, expectedFields) == HouseCanary.Parsed(fetched)
    ensures HouseCanary.Parsed(fetched).Ok? ==>
              var parsed := HouseCanary.Parsed(fetched).value;
              && (SewerKey !in parsed ==> Pipeline(fetched, expectedFields) == Err(KeyError(SewerKey)))
              && (SewerKey in parsed && HouseCanary.DetailOf(parsed[SewerKey]).None? ==>
                    Pipeline(fetched, expectedFields) == Err(ValueError(parsed[SewerKey])))
              && (SewerKey in parsed && HouseCanary.DetailOf(parsed[SewerKey]).Some? ==>
                    Pipeline(fetched, expectedFields).Ok?)
  {
    var parsed := HouseCanary.Parsed(fetched);
    if parsed.Ok? {
      var normalized := HouseCanary.Normalized(parsed.value);
      if normalized.Ok? {
        ConstructedFieldsEffect(normalized.value);
      }
    }
  }

  /** A successful result holds exactly the expected fields among `sewer` and
      `has_septic`; `sewer` is the provider value's canonical translation, never
      `existence_unknown`, and `has_septic` is true exactly for a septic sewer. */
  lemma PipelineResult(fetched: Json, expectedFields: seq<string>)
    requires Pipeline(fetched, expectedFields).Ok?
    ensures var parsed := HouseCanary.Parsed(fetched).value;
            var out := Pipeline(fetched, expectedFields).value;
            && SewerKey in parsed
            && HouseCanary.DetailOf(parsed[SewerKey]).Some?
            && (forall k :: k in out <==> k in expectedFields && (k == SewerKey || k == HasSepticKey))
            && (SewerKey in out ==>
                  out[SewerKey] == JStr(Mappings.Value(HouseCanary.Generic(HouseCanary.DetailOf(parsed[SewerKey]).value))))
            && (SewerKey in out ==> out[SewerKey] != JStr(Mappings.Value(Mappings.ExistenceUnknown)))
            && (HasSepticKey in out ==>
                  out[HasSepticKey] == JBool(HouseCanary.DetailOf(parsed[SewerKey]) == Some(HouseCanary.Septic)))
  {
    var parsed := HouseCanary.Parsed(fetched).value;
    PipelineOutcome(fetched, expectedFields);
    var d := HouseCanary.DetailOf(parsed[SewerKey]).value;
    var normalized := HouseCanary.Normalized(parsed).value;
    assert normalized == map[SewerKey := JStr(Mappings.Value(HouseCanary.Generic(d)))];
    ConstructedFieldsEffect(normalized);
    Mappings.ValueInjective(HouseCanary.Generic(d), Mappings.ExistenceUnknown);
    Mappings.ValueInjective(HouseCanary.Generic(d), Mappings.Septic);
  }

  /** With no expected fields the result is empty, whatever the provider sent. */
  lemma EmptyExpectedFieldsGiveEmptyResult(fetched: Json)
    requires Pipeline(fetched, []).Ok?
    ensures Pipeline(fetched, []).value == map[]
  {
  }

  /** A payload whose `result.property` carries the given sewer value. */
  function PayloadWithSewer(sewer: Json): Json
  {
    JObject(map[HouseCanary.DetailsKey :=
      JObject(map[HouseCanary.ResultKey :=
        JObject(map[HouseCanary.PropertyKey := JObject(map["sewer" := sewer])])])])
  }

  /** Such a payload parses to its sewer value alone. */
  lemma ParsedPayloadWithSewer(sewer: Json)
    ensures HouseCanary.Parsed(PayloadWithSewer(sewer)) == Ok(map[SewerKey := sewer])
  {
    var property := map[SewerKey := sewer];
    assert property + map[] == property;
    assert HouseCanary.Retrieve(property) == property;
  }

  /** Any provider sewer value, with both fields expected, yields its canonical
      translation and `has_septic` true exactly for "Septic". */
  lemma PipelineOnProviderValue(d: HouseCanary.SewerDetail)
    ensures Pipeline(PayloadWithSewer(JStr(HouseCanary.DetailValue(d))), [SewerKey, HasSepticKey])
            == Ok(map[SewerKey := JStr(Mappings.Value(HouseCanary.Generic(d))),
                      HasSepticKey := JBool(d == HouseCanary.Septic)])
  {
    var fetched := PayloadWithSewer(JStr(HouseCanary.DetailValue(d)));
    ParsedPayloadWithSewer(JStr(HouseCanary.DetailValue(d)));
    var normalized := map[SewerKey := JStr(Mappings.Value(HouseCanary.Generic(d)))];
    assert HouseCanary.Normalized(map[SewerKey := JStr(HouseCanary.DetailValue(d))]) == Ok(normalized);
    ConstructedFieldsEffect(normalized);
    Mappings.ValueInjective(HouseCanary.Generic(d), Mappings.Septic);
    var built := normalized[HasSepticKey := JBool(d == HouseCanary.Septic)];
    assert ConstructFields(ConstructedFields, normalized) == Ok(built);
    assert Prune(built, [SewerKey, HasSepticKey]) == built;
  }

  /** "Septic" becomes `septic` with `has_septic` true. */
  lemma SepticScenario()
    ensures Pipeline(PayloadWithSewer(JStr("Septic")), ["sewer", "has_septic"])
            == Ok(map["sewer" := JStr("septic"), "has_septic" := JBool(true)])
  {
    PipelineOnProviderValue(HouseCanary.Septic);
    assert HouseCanary.DetailValue(HouseCanary.Septic) == "Septic";
    assert Mappings.Value(HouseCanary.Generic(HouseCanary.Septic)) == "septic";
    assert SewerKey == "sewer";
  }

  /** "Yes" becomes `type_unknown` with `has_septic` false. */
  lemma YesScenario()
    ensures Pipeline(PayloadWithSewer(JStr("Yes")), ["sewer", "has_septic"])
            == Ok(map["sewer" := JStr("type_unknown"), "has_septic" := JBool(false)])
  {
    PipelineOnProviderValue(HouseCanary.Yes);
    assert HouseCanary.DetailValue(HouseCanary.Yes) == "Yes";
    assert Mappings.Value(HouseCanary.Generic(HouseCanary.Yes)) == "type_unknown";
    assert SewerKey == "sewer";
  }

  /** "None" becomes `no_sewer` with `has_septic` false. */
  lemma NoneScenario()
    ensures Pipeline(PayloadWithSewer(JStr("None")), ["sewer", "has_septic"])
            == Ok(map["sewer" := JStr("no_sewer"), "has_septic" := JBool(false)])
  {
    PipelineOnProviderValue(HouseCanary.NoneReported);
    assert HouseCanary.DetailValue(HouseCanary.NoneReported) == "None";
    assert Mappings.Value(HouseCanary.Generic(HouseCanary.NoneReported)) == "no_sewer";
    assert SewerKey == "sewer";
  }

  /** An unknown provider code raises `ValueError` instead of becoming
      `existence_unknown`; a payload without `sewer` raises `KeyError` even when
      no field is expected. */
  lemma PipelineFailureScenarios()
    ensures Pipeline(PayloadWithSewer(JStr("Unknown-Provider-Code")), ["sewer"])
            == Err(ValueError(JStr("Unknown-Provider-Code")))
    ensures Pipeline(JObject(map[HouseCanary.DetailsKey := JObject(map[HouseCanary.ResultKey := JObject(map[])])]), [])
            == Err(KeyError("sewer"))
  {
    ParsedPayloadWithSewer(JStr("Unknown-Provider-Code"));
    ConstructedFieldsEffect(map[]);
  }

  /** `HouseCanaryHomeDataSvc`: one request's service object. `data` stays
      `None` until a build succeeds. */
  class HouseCanaryHomeDataSvc {
    var expectedFields: seq<string>
    var address: string
    var zipCode: string
    var data: Option<map<string, Json>>

    constructor (expectedFields: seq<string>, address: string, zipCode: string)
      ensures this.expectedFields == expectedFields
      ensures this.address == address && this.zipCode == zipCode
      ensures data == None
    {
      this.expectedFields := expectedFields;
      this.address := address;
      this.zipCode := zipCode;
      data := None;
    }

    /** `build_home_data` from the fetched payload on: parse, normalize, build
        the derived fields, prune to the expected fields, and store the result
        in `data`. An exception leaves `data` as it was. */
    method BuildHomeData(fetched: Json) returns (r: Result<map<string, Json>>)
      modifies this`data
      ensures r == Pipeline(fetched, expectedFields)
      ensures r.Ok? ==> data == Some(r.value)
      ensures r.Err? ==> data == old(data)
    {
      var parsed := HouseCanary.ParseHomeData(fetched);
      if parsed.Err? {
        return Err(parsed.error);
      }
      var normalized := HouseCanary.NormalizeHomeData(parsed.value);
      HouseCanary.NormalizedIsDetermined(parsed.value, normalized);
      if normalized.Err? {
        return Err(normalized.error);
      }
      var built := BuildConstructedFields(normalized.value);
      if built.Err? {
        return Err(built.error);
      }
      var pruned := Prune(built.value, expectedFields);
      data := Some(pruned);
      r := Ok(pruned);
    }
  }
}
