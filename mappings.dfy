/** The generic schema: the canonical field names and, for each field, the
    closed set of canonical values every provider is translated into. */
module Mappings {
  import opened Payload

  /** `GenericSewerMappings`: the canonical sewer values. */
  datatype GenericSewer = Septic | Municipal | Storm | TypeUnknown | ExistenceUnknown | NoSewer

  /** The member's identifier (`.name`). */
  function Name(g: GenericSewer): string
  {
    match g
    case Septic => "septic"
    case Municipal => "municipal"
    case Storm => "storm"
    case TypeUnknown => "type_unknown"
    case ExistenceUnknown => "existence_unknown"
    case NoSewer => "no_sewer"
  }

  /** The member's string value (`.value`), the form the pipeline emits. */
  function Value(g: GenericSewer): string
  {
    match g
    case Septic => "septic"
    case Municipal => "municipal"
    case Storm => "storm"
    case TypeUnknown => "type_unknown"
    case ExistenceUnknown => "existence_unknown"
    case NoSewer => "no_sewer"
  }

  const AllSewer: set<GenericSewer> := {Septic, Municipal, Storm, TypeUnknown, ExistenceUnknown, NoSewer}

  /** Lookup by value, `GenericSewerMappings(s)`: the member whose value is `s`,
      if there is one. */
  function FromValue(s: string): (r: Option<GenericSewer>)
    ensures r.Some? ==> Value(r.value) == s
    ensures r.None? ==> forall g :: Value(g) != s
  {
    if s == "septic" then Some(Septic)
    else if s == "municipal" then Some(Municipal)
    else if s == "storm" then Some(Storm)
    else if s == "type_unknown" then Some(TypeUnknown)
    else if s == "existence_unknown" then Some(ExistenceUnknown)
    else if s == "no_sewer" then Some(NoSewer)
    else None
  }

  /** Every member's name and value coincide. */
  lemma NameIsValue(g: GenericSewer)
    ensures Name(g) == Value(g)
  {
  }

  /** The six values are pairwise distinct, so lookup by value is injective and
      inverts `Value`. */
  lemma ValueInjective(g: GenericSewer, h: GenericSewer)
    ensures Value(g) == Value(h) ==> g == h
    ensures FromValue(Value(g)) == Some(g)
  {
  }

  /** The canonical sewer domain is closed and has exactly six members. */
  lemma SewerDomainIsClosed()
    ensures forall g: GenericSewer :: g in AllSewer
    ensures |AllSewer| == 6
  {
    forall g: GenericSewer
      ensures g in AllSewer
    {
      match g
      case Septic =>
      case Municipal =>
      case Storm =>
      case TypeUnknown =>
      case ExistenceUnknown =>
      case NoSewer =>
    }
    var five := {Septic, Municipal, Storm, TypeUnknown, ExistenceUnknown};
    assert NoSewer !in five;
    var four := {Septic, Municipal, Storm, TypeUnknown};
    assert ExistenceUnknown !in four;
    var three := {Septic, Municipal, Storm};
    assert TypeUnknown !in three;
    assert |{Septic, Municipal}| == 2;
    assert |three| == 3;
    assert |four| == 4;
    assert |five| == 5;
    assert AllSewer == five + {NoSewer};
  }

  /** `GenericFieldsToMappings`: the canonical fields; `sewer` is the only one. */
  datatype GenericField = Sewer

  /** The canonical field's name (`.name`). */
  function FieldName(f: GenericField): string
  {
    match f
    case Sewer => "sewer"
  }

  /** The canonical field's value domain (`.value`, the enum class). */
  function Domain(f: GenericField): set<GenericSewer>
  {
    match f
    case Sewer => AllSewer
  }

  /** The schema has one field, `sewer`, whose domain is the sewer enumeration. */
  lemma OnlyFieldIsSewer(f: GenericField)
    ensures FieldName(f) == "sewer"
    ensures Domain(f) == AllSewer
    ensures forall g: GenericSewer :: g in Domain(f)
  {
    SewerDomainIsClosed();
  }
}
