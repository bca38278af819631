/**
 From submitted form values to the payload of a save: the catalog engine starts from the current object
 (update) or from the catalogued defaults (create), drops what may not be sent, writes the submitted
 values in their stored encoding and checks that required fields are filled.
 */
module CatalogValues {
  import opened Wrappers
  import opened JsonTrees
  import opened OptionTrees
  import opened DottedEdit
  import Text

  datatype Kind = Text | Boolean | Number

  /** One catalogued field; `options` is empty when any value is allowed. */
  datatype FieldSpec = FieldSpec(
    name: string, kind: Kind, multiple: bool, readonly: bool, writeOnly: bool, secret: bool, generated: bool,
    required: bool, min: Option<int>, max: Option<int>, options: seq<string>, default: Json)

  type Catalogue = seq<FieldSpec>

  /** Field names are distinct. */
  predicate DistinctNames(spec: Catalogue) {
    forall i, j :: 0 <= i < j < |spec| ==> spec[i].name != spec[j].name
  }

  /** Field names are not dotted prefixes of one another. */
  ghost predicate IndependentNames(spec: Catalogue) {
    forall i, j :: 0 <= i < |spec| && 0 <= j < |spec| && i != j ==> Independent(spec[i].name, spec[j].name)
  }

  function Find(spec: Catalogue, name: string): (field: Option<FieldSpec>)
    ensures field.Some? ==> field.value in spec && field.value.name == name
    ensures field.None? ==> forall f :: f in spec ==> f.name != name
  {
    if spec == [] then None
    else if spec[0].name == name then Some(spec[0])
    else Find(spec[1..], name)
  }

  predicate IsBlank(value: Json) {
    value == Str("") || value.Null?
  }

  // ---- Encoding one submitted value -----------------------------------------

  /** What a submitted value does to the payload. */
  datatype Edit = Skip | Write(text: string) | Refuse

  /** A list of strings is joined; anything else that is not text is refused. */
  function JoinChoices(value: Json): Option<string> {
    match value
    case Str(s) => Some(s)
    case Arr(items) => if AllText(items) then Some(Text.Join(Texts(items), ',')) else None
    case _ => None
  }

  predicate AllText(items: Items) {
    items.Cons? ==> items.head.Str? && AllText(items.tail)
  }

  function Texts(items: Items): seq<string>
    requires AllText(items)
  {
    if items.Nil? then [] else [items.head.text] + Texts(items.tail)
  }

  predicate Sendable(s: string) {
    |s| <= 65536 && '\0' !in s
  }

  /** `s.lstrip("-")`. */
  function StripSigns(s: string): string {
    if s != "" && s[0] == '-' then StripSigns(s[1..]) else s
  }

  /** `int(s)` for text that passed the sign-stripped digit test; two signs are not a number. */
  function SignedValue(s: string): Option<int> {
    if Text.IsDigits(s) then Some(Text.NatValue(s))
    else if s != "" && s[0] == '-' && Text.IsDigits(s[1..]) then
      var magnitude: int := Text.NatValue(s[1..]);
      Some(-magnitude)
    else None
  }

  predicate InRange(field: FieldSpec, s: string) {
    field.min.Some? || field.max.Some? ==>
      && SignedValue(s).Some?
      && (field.min.Some? ==> field.min.value <= SignedValue(s).value)
      && (field.max.Some? ==> SignedValue(s).value <= field.max.value)
  }

  /** `str(value)` where it can be a number. */
  function NumberText(value: Json): Option<string> {
    match value
    case Str(s) => if Text.IsDigits(StripSigns(s)) then Some(s) else None
    case Num(n) => Some(Text.IntText(n))
    case _ => None
  }

  predicate Permitted(field: FieldSpec, text: string) {
    field.options != [] && text != "" ==>
      forall choice :: choice in (if field.multiple then Text.Split(text, ',') else [text]) ==> choice in field.options
  }

  function Checked(field: FieldSpec, text: string): Edit {
    if Permitted(field, text) then Write(text) else Refuse
  }

  function Encode(field: FieldSpec, value: Json, creating: bool): Edit {
    if field.generated && IsBlank(value) then Skip
    else if field.readonly then Refuse
    else if (field.secret || field.writeOnly) && IsBlank(value) && !creating then Skip
    else if field.multiple then
      match JoinChoices(value)
      case Some(text) => if Sendable(text) then Checked(field, text) else Refuse
      case None => Refuse
    else match field.kind
         case Boolean => if value.Bool? then Checked(field, if value.flag then "1" else "0") else Refuse
         case Number =>
           if value == Str("") && !field.required then Write("")
           else (match NumberText(value)
                 case Some(text) => if InRange(field, text) then Checked(field, text) else Refuse
                 case None => Refuse)
         case Text => if value.Str? && Sendable(value.text) then Checked(field, value.text) else Refuse
  }

  // ---- The three passes -----------------------------------------------------

  function Default(field: FieldSpec, merged: Fields, current: Fields): Fields {
    if field.readonly then merged
    else match Get(current, field.name)
         case Some(v) => if v.Null? then merged else Put(merged, field.name, v)
         case None => if field.default.Null? then merged else Put(merged, field.name, field.default)
  }

  /** Creation starts from the catalogued fields only. */
  function Defaults(spec: Catalogue, merged: Fields, current: Fields): Fields {
    if spec == [] then merged else Defaults(spec[1..], Default(spec[0], merged, current), current)
  }

  predicate Withheld(field: FieldSpec) {
    field.readonly || field.writeOnly
  }

  function DropWithheld(spec: Catalogue, merged: Fields): Fields {
    if spec == [] then merged
    else DropWithheld(spec[1..], if Withheld(spec[0]) then Drop(merged, spec[0].name) else merged)
  }

  /** Writes the submitted values in order; None when one is refused. */
  function WriteAll(spec: Catalogue, values: Fields, merged: Fields, creating: bool): Option<Fields> {
    if values.Empty? then Some(merged)
    else match Find(spec, values.key)
         case None => None
         case Some(field) =>
           match Encode(field, values.value, creating)
           case Refuse => None
           case Skip => WriteAll(spec, values.rest, merged, creating)
           case Write(text) => WriteAll(spec, values.rest, Put(merged, values.key, Str(text)), creating)
  }

  predicate Filled(field: FieldSpec, merged: Fields, creating: bool) {
    field.required && !(field.writeOnly && !creating) ==>
      Get(merged, field.name).Some? && !IsBlank(Get(merged, field.name).value)
  }

  predicate KnownNames(spec: Catalogue, values: Fields) {
    forall k :: k in Keys(values) ==> Find(spec, k).Some?
  }

  function Base(spec: Catalogue, current: Fields, creating: bool): Fields {
    DropWithheld(spec, NormalizeEmptyFields(if creating then Defaults(spec, Empty, current) else current))
  }

  /** The payload, or None for a request that is refused before anything is sent. */
  function Payload(spec: Catalogue, values: Json, current: Fields, creating: bool): Option<Fields> {
    if !values.Obj? || !KnownNames(spec, values.fields) then None
    else match WriteAll(spec, values.fields, Base(spec, current, creating), creating)
         case None => None
         case Some(merged) =>
           if forall field :: field in spec ==> Filled(field, merged, creating) then Some(merged) else None
  }

  /** `_values`, pass by pass. */
  method Values(spec: Catalogue, values: Json, current: Fields, creating: bool) returns (payload: Option<Fields>)
    requires DistinctNames(spec)
    ensures payload == Payload(spec, values, current, creating)
  {
    if !values.Obj? {
      return None;
    }
    if !KnownNames(spec, values.fields) {
      return None;
    }
    var merged := current;
    if creating {
      merged := Empty;
      for i := 0 to |spec|
        invariant Defaults(spec[i..], merged, current) == Defaults(spec, Empty, current)
      {
        assert spec[i..][0] == spec[i] && spec[i..][1..] == spec[i + 1..];
        merged := Default(spec[i], merged, current);
      }
    }
    merged := NormalizeEmptyFields(merged);
    for i := 0 to |spec|
      invariant DropWithheld(spec[i..], merged) == Base(spec, current, creating)
    {
      assert spec[i..][0] == spec[i] && spec[i..][1..] == spec[i + 1..];
      if Withheld(spec[i]) {
        merged := Drop(merged, spec[i].name);
      }
    }
    var rest := values.fields;
    while rest.Field?
      invariant WriteAll(spec, rest, merged, creating)
                == WriteAll(spec, values.fields, Base(spec, current, creating), creating)
      decreases rest
    {
      var field := Find(spec, rest.key);
      if field.None? {
        return None;
      }
      match Encode(field.value, rest.value, creating) {
        case Refuse =>
          return None;
        case Skip =>
        case Write(text) =>
          merged := Put(merged, rest.key, Str(text));
      }
      rest := rest.rest;
    }
    for i := 0 to |spec|
      invariant forall j :: 0 <= j < i ==> Filled(spec[j], merged, creating)
    {
      if !Filled(spec[i], merged, creating) {
        return None;
      }
    }
    return Some(merged);
  }

}
