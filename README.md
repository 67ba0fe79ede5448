# House Canary home-data normalization, modelled in Dafny

This project models the core of the septic API service: the pipeline that
turns a House Canary property payload into the provider-independent
generic schema. `build_home_data` fetches the payload, then parses out the
`sewer` field, normalizes the field's name and value into the generic
vocabulary, adds the derived `has_septic` field and prunes the result to the
fields the caller asked for.

Modules, one per component:

- `Payload` (`payload.dfy`): the decoded JSON value (`Json`), the Python
  exceptions the core raises (`KeyError`, `TypeError`, `AttributeError`,
  `ValueError`), `Option`/`Result`, and the three dictionary operations the
  parser relies on (`d[key]`, `d.get(key, default)`, `d.update(other)`), each
  with its Python failure cases.
- `Mappings` (`mappings.dfy`, from `common/mappings.py`): the canonical sewer
  values `GenericSewerMappings` and the canonical field registry
  `GenericFieldsToMappings`.
- `HouseCanary` (`house_canary.dfy`, from `services/home_data_svc/base.py`):
  the provider enums, the two translation tables, and the parse and
  normalize stages.
- `HomeDataSvc` (`home_data_svc.dfy`, from `services/home_data_svc/base.py`):
  `has_septic`, the derived-field loop, the projection, the whole pipeline
  as a function (`Pipeline`), and the service class whose `BuildHomeData`
  runs the stages and stores the result in `data`.

Behaviour of the code that a reader might not expect:

- An unmapped provider sewer value (for example `"Unknown-Provider-Code"`)
  raises `ValueError`. The validator at services/home_data_svc/base.py:173-174
  calls the provider enum's constructor, which rejects any value outside the
  five provider strings. The comment at base.py:177-179 notes that a lookup
  default would hide unrecognized values. The value therefore never falls back
  to `existence_unknown`. The `.get` default at base.py:180-182 is dead code
  (`HouseCanary.TranslateValidated`), so `existence_unknown` never appears in
  any output.
- A payload without `sewer` makes `has_septic` (base.py:88) raise `KeyError`.
  The comment at base.py:100-101 says that a derived field whose dependencies
  are missing should be tolerated. The handler at base.py:99 catches only
  `AttributeError`, so the `KeyError` escapes and the whole pipeline fails.
  This happens even when the caller asked for neither `sewer` nor
  `has_septic`.
- Structural problems in the payload surface as the Python exceptions the
  code happens to raise. A missing container raises `KeyError`, and a
  container of the wrong kind raises `TypeError` or `AttributeError`
  (base.py:160-163). There are no dedicated error types.

Stateful parts are imperative. `NormalizeHomeData` and
`BuildConstructedFields` are methods with loops, and `ParseHomeData` builds
the merged dictionary step by step. `HouseCanaryHomeDataSvc.BuildHomeData`
assigns the `data` field. Each method is tied to a specification function
(`Parsed`, `Normalized`, `ConstructFields`, `Pipeline`), and the lemmas
state the properties of those functions.

## Model

| member | source | states |
|---|---|---|
| `Mappings.FromValue` | common/mappings.py:9-15 | Lookup by value finds the member whose value is the string, and finds nothing exactly when no member has that value |
| `Mappings.NameIsValue` | common/mappings.py:10-15 | Every canonical sewer member's name equals its string value |
| `Mappings.ValueInjective` | common/mappings.py:10-15 | The six canonical strings are pairwise distinct, and value lookup inverts `.value` |
| `Mappings.SewerDomainIsClosed` | common/mappings.py:9-15 | The canonical sewer domain contains every value and has exactly six members |
| `Mappings.OnlyFieldIsSewer` | common/mappings.py:17-18 | The only canonical field is `sewer`, and its domain is the whole sewer enumeration |
| `Payload.Index` | services/home_data_svc/base.py:160 | `d[key]` yields the entry of a dictionary that has the key. It raises `KeyError(key)` on a dictionary without it and `TypeError` on any other JSON value |
| `Payload.Get` | services/home_data_svc/base.py:161-162 | `d.get(key, default)` yields the entry, or `default` when the key is absent. It raises `AttributeError` on anything that is not a dictionary |
| `Payload.Update` | services/home_data_svc/base.py:163 | `target.update(source)` needs a dictionary target, else `AttributeError`. A dictionary source is merged with the source winning on shared keys. An empty string changes nothing, a non-empty string raises `ValueError`, and null, booleans and numbers raise `TypeError` |
| `HouseCanary.Retrieve` | services/home_data_svc/base.py:164 | The parse comprehension keeps exactly the keys listed in `fields_to_retrieve`, with their values unchanged |
| `HouseCanary.TranslateSewer` | services/home_data_svc/base.py:180-182 | `.get(value, existence_unknown)` on the sewer table always yields a canonical sewer value. It yields `existence_unknown` exactly when the value is not a key of the table, and raises `TypeError` for an unhashable JSON object |
| `HomeDataSvc.Construct` | services/home_data_svc/base.py:97-98 | `getattr(self, name)(data)` raises `AttributeError` exactly for a name outside `constructed_fields`. For `has_septic` it is `has_septic` applied to the data |
| `HomeDataSvc.Prune` | services/home_data_svc/base.py:79 | The projection keeps exactly the keys that are also expected fields, with their values unchanged. An empty list of expected fields gives the empty dictionary |
| `HouseCanary.DetailOf` | services/home_data_svc/base.py:16-29 | The provider enum constructor accepts exactly the strings "Municipal", "Septic", "Storm", "None" and "Yes", and returns the member with that value |
| `HouseCanary.FieldFromName` | services/home_data_svc/base.py:32-33 | `HouseCanaryFields[name]` succeeds exactly for the name `sewer` |
| `HouseCanary.FieldTableIsIdentityOnNames` | services/home_data_svc/base.py:36-38 | The field table covers the only provider field and renames `sewer` to the canonical `sewer` |
| `HouseCanary.SewerTableIsTotal` | services/home_data_svc/base.py:40-46 | The value table has an entry for exactly the five provider values, agrees with the reference translation `Generic`, never yields `existence_unknown`, and only yields canonical values |
| `HouseCanary.SewerTranslations` | services/home_data_svc/base.py:40-46 | Septic→septic, Municipal→municipal, Storm→storm, None→no_sewer, Yes→type_unknown |
| `HouseCanary.TranslateValidated` | services/home_data_svc/base.py:173-182 | Once the validator accepts a value, the table lookup hits, so the `existence_unknown` default is never used |
| `HouseCanary.Parsed` | services/home_data_svc/base.py:154-165 | Every key of a parsed result is one of `fields_to_retrieve` |
| `HouseCanary.ParseHomeData` | services/home_data_svc/base.py:154-165 | The step-by-step parse, with its merge, returns or raises exactly what `Parsed` specifies, and keeps only retrievable keys |
| `HouseCanary.ParseNeedsContainers` | services/home_data_svc/base.py:160 | A missing `property/details` or `result` raises `KeyError` naming it; a payload that is not an object raises `TypeError` |
| `HouseCanary.ParseMerges` | services/home_data_svc/base.py:161-164 | With `property` and `assessment` objects, where an absent one counts as empty, parsing succeeds. The output keys are the retrievable keys present in either object. The assessment value wins on shared keys, and values pass through unchanged |
| `HouseCanary.ParseAbsentObjectsAreEmpty` | services/home_data_svc/base.py:161-162 | A `result` with neither `property` nor `assessment` parses to the empty dictionary |
| `HouseCanary.ParseRejectsMalformedObjects` | services/home_data_svc/base.py:161-163 | A `property` entry that is not an object raises `AttributeError`. An `assessment` that is neither an object nor the empty string makes the merge fail |
| `HouseCanary.NormalizeHomeData` | services/home_data_svc/base.py:167-184 | Normalization succeeds exactly when every field name is known and every value passes the provider validator. Otherwise it raises the `KeyError` or `ValueError` of an offending entry. On success the keys are the input's canonical names. Each value is the canonical translation of its provider value, lies in the canonical sewer domain and is never `existence_unknown` |
| `HouseCanary.NormalizedIsDetermined` | services/home_data_svc/base.py:172-184 | On a parsed dictionary, which holds only retrievable fields, normalization's outcome is determined: `Normalized` gives it |
| `HouseCanary.UnmappedValueRaises` | services/home_data_svc/base.py:173-174 | A sewer value outside the provider vocabulary raises `ValueError`; it does not fall back to `existence_unknown` |
| `HomeDataSvc.HasSeptic` | services/home_data_svc/base.py:83-88 | `has_septic` is true iff `sewer` equals "septic", and raises `KeyError` when `sewer` is absent |
| `HomeDataSvc.ConstructFieldsErrorSticks` | services/home_data_svc/base.py:95-102 | Once a derived-field constructor raises something other than `AttributeError`, the later fields cannot recover and the error propagates |
| `HomeDataSvc.AttributeErrorIsUnreachable` | services/home_data_svc/base.py:96-102 | Every listed derived field has a constructor, and `has_septic` never raises `AttributeError`, so the `except` branch is dead |
| `HomeDataSvc.ConstructedFieldsEffect` | services/home_data_svc/base.py:95-103 | Building derived fields keeps every other key and value and adds `has_septic`. It fails with the uncaught `KeyError` exactly when `sewer` is absent |
| `HomeDataSvc.BuildConstructedFields` | services/home_data_svc/base.py:90-103 | The derived-field loop returns exactly what `ConstructFields` specifies. It raises `KeyError('sewer')` exactly when `sewer` is missing. Otherwise it leaves the other entries alone and adds `has_septic` as `has_septic` computes it |
| `HomeDataSvc.PipelineOutcome` | services/home_data_svc/base.py:74-81 | The pipeline succeeds exactly when parsing succeeds with a `sewer` value from the provider vocabulary. Otherwise the parse error, the validator's `ValueError` or `has_septic`'s `KeyError` escapes, whatever fields are expected |
| `HomeDataSvc.PipelineResult` | services/home_data_svc/base.py:76-81 | A successful result's keys are exactly the expected fields among `sewer` and `has_septic`. `sewer` holds the canonical translation and is never `existence_unknown`. `has_septic` is true exactly for a "Septic" provider value |
| `HomeDataSvc.EmptyExpectedFieldsGiveEmptyResult` | services/home_data_svc/base.py:79 | With no expected fields, a successful result is the empty dictionary |
| `HomeDataSvc.ParsedPayloadWithSewer` | services/home_data_svc/base.py:160-164 | A payload whose `result.property` carries a sewer value parses to that value alone |
| `HomeDataSvc.PipelineOnProviderValue` | services/home_data_svc/base.py:74-81 | For every provider sewer value, with both fields expected, the result is its canonical translation plus `has_septic` true exactly for "Septic" |
| `HomeDataSvc.SepticScenario` | services/home_data_svc/base.py:74-88 | A payload with sewer "Septic", both fields expected, gives `sewer` = `septic` and `has_septic` = true |
| `HomeDataSvc.YesScenario` | services/home_data_svc/base.py:74-88 | A payload with sewer "Yes", both fields expected, gives `sewer` = `type_unknown` and `has_septic` = false |
| `HomeDataSvc.NoneScenario` | services/home_data_svc/base.py:74-88 | A payload with sewer "None", both fields expected, gives `sewer` = `no_sewer` and `has_septic` = false |
| `HomeDataSvc.PipelineFailureScenarios` | services/home_data_svc/base.py:83-102 | An unknown provider code raises `ValueError`, and a payload without `sewer` raises `KeyError` even when no field is expected |
| `HomeDataSvc.HouseCanaryHomeDataSvc.constructor` | services/home_data_svc/base.py:53-65 | A new service holds the expected fields, address and zip code, and has no data yet |
| `HomeDataSvc.HouseCanaryHomeDataSvc.BuildHomeData` | services/home_data_svc/base.py:70-81 | Running the stages on a fetched payload returns exactly `Pipeline`'s outcome. On success `data` is the returned dictionary. On an exception `data` is unchanged |

## Left out

- `fetch_home_data` (services/home_data_svc/base.py:142-152) is network I/O: an HTTP GET with credentials and a timeout. `BuildHomeData` takes the decoded payload as a parameter instead, and fetch failures are not modelled. The `address` and `zipCode` fields are stored but only fetch would read them.
- `save_to_file` and `save_to_database` are no-op persistence hooks and are omitted.
- The abstract base class `HomeDataSvc` and its only subclass are merged into one class, `HouseCanaryHomeDataSvc`, because the `abc` machinery adds no behaviour. The `getattr` lookup of derived-field constructors is the static function `Construct`, which returns `AttributeError` for a name without a constructor.
- JSON arrays and non-integer numbers are not represented in `Json`. In particular, `dict.update` with a list of key/value pairs is not modelled.
- Dictionaries are Dafny maps, so iteration order is not modelled. When several entries are invalid, `NormalizeHomeData` reports one of their errors, not necessarily the first in the payload's order. In the pipeline at most one entry reaches normalization, so the outcome is determined.
- `parse_home_data` merges `assessment` into the payload's own `property` dictionary in place. That mutation of the caller's payload (aliasing) is not modelled, since nothing reads the payload afterwards.
- The HTTP endpoint and router (`septic_api/views.py`, `septic_api/urls.py`) are request and response glue and are not part of this model.
