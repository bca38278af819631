/**
 Option dictionaries. A form field is served as a dict of options, each holding a "selected" flag;
 its stored value is the comma-joined list of the selected keys. The repository has two copies of
 this conversion: the firewall writer's (objects only) and the catalog engine's (lists too).
 */
module OptionTrees {
  import opened Wrappers
  import opened JsonTrees
  import Text

  predicate IsOption(v: Json) {
    v.Obj? && "selected" in Keys(v.fields)
  }

  predicate AllOptions(f: Fields) {
    f.Field? ==> IsOption(f.value) && AllOptions(f.rest)
  }

  predicate AllOptionItems(items: Items) {
    items.Cons? ==> IsOption(items.head) && AllOptionItems(items.tail)
  }

  /** `str(v["selected"]) == "1"`. */
  predicate IsChosen(v: Json)
    requires IsOption(v)
  {
    Lookup(v.fields, "selected").value in {Str("1"), Num(1)}
  }

  function ChosenKeys(f: Fields): seq<string>
    requires AllOptions(f)
  {
    if f.Empty? then [] else (if IsChosen(f.value) then [f.key] else []) + ChosenKeys(f.rest)
  }

  function ChosenIndices(items: Items, index: nat): seq<string>
    requires AllOptionItems(items)
  {
    if items.Nil? then []
    else (if IsChosen(items.head) then [Text.NatText(index)] else []) + ChosenIndices(items.tail, index + 1)
  }

  // ---- The firewall writer's copy -------------------------------------------

  function Selected(v: Json): Json {
    match v
    case Obj(f) =>
      if f.Field? && AllOptions(f) then Str(Text.Join(ChosenKeys(f), ',')) else Obj(SelectedFields(f))
    case _ => v
  }

  function SelectedFields(f: Fields): Fields {
    if f.Empty? then Empty else Field(f.key, Selected(f.value), SelectedFields(f.rest))
  }

  // ---- The catalog engine's copy --------------------------------------------

  function EngineSelected(v: Json): Json {
    match v
    case Obj(f) =>
      if f.Empty? then Str("")
      else if AllOptions(f) then Str(Text.Join(ChosenKeys(f), ','))
      else Obj(EngineSelectedFields(f))
    case Arr(items) =>
      if items.Nil? then Str("")
      else if AllOptionItems(items) then Str(Text.Join(ChosenIndices(items, 0), ','))
      else Arr(EngineSelectedItems(items))
    case _ => v
  }

  function EngineSelectedFields(f: Fields): Fields {
    if f.Empty? then Empty else Field(f.key, EngineSelected(f.value), EngineSelectedFields(f.rest))
  }

  function EngineSelectedItems(items: Items): Items {
    if items.Nil? then Nil else Cons(EngineSelected(items.head), EngineSelectedItems(items.tail))
  }

  /** `normalize_empty_options`: empty objects inside an object become empty text. */
  function NormalizeEmpty(v: Json): Json {
    match v
    case Obj(f) => Obj(NormalizeEmptyFields(f))
    case _ => v
  }

  function NormalizeEmptyFields(f: Fields): Fields {
    if f.Empty? then Empty
    else Field(f.key, if f.value == Obj(Empty) then Str("") else NormalizeEmpty(f.value), NormalizeEmptyFields(f.rest))
  }

  // ---- What conversion keeps ------------------------------------------------

  lemma {:induction false} SelectedFieldsKeepsShape(f: Fields)
    ensures Keys(SelectedFields(f)) == Keys(f)
    ensures AllOptions(SelectedFields(f)) ==> AllOptions(f)
    ensures forall k :: k in Keys(f) ==> Lookup(SelectedFields(f), k) == Some(Selected(Lookup(f, k).value))
    decreases f
  {
    if f.Field? {
      SelectedFieldsKeepsShape(f.rest);
      if f.value.Obj? {
        SelectedFieldsKeepsShape(f.value.fields);
      }
    }
  }

  lemma {:induction false} EngineSelectedFieldsKeepsShape(f: Fields)
    ensures Keys(EngineSelectedFields(f)) == Keys(f)
    ensures AllOptions(EngineSelectedFields(f)) ==> AllOptions(f)
    decreases f
  {
    if f.Field? {
      EngineSelectedFieldsKeepsShape(f.rest);
      if f.value.Obj? {
        EngineSelectedFieldsKeepsShape(f.value.fields);
      }
    }
  }

  lemma {:induction false} EngineSelectedItemsKeepsShape(items: Items)
    ensures AllOptionItems(EngineSelectedItems(items)) ==> AllOptionItems(items)
  {
    if items.Cons? {
      EngineSelectedItemsKeepsShape(items.tail);
      if items.head.Obj? {
        EngineSelectedFieldsKeepsShape(items.head.fields);
      }
      assert IsOption(EngineSelected(items.head)) ==> IsOption(items.head);
    }
  }

  lemma {:induction false} SelectedKeepsDistinct(v: Json)
    requires Distinct(v)
    ensures Distinct(Selected(v))
    decreases v
  {
    if v.Obj? {
      SelectedFieldsKeepsDistinct(v.fields);
    }
  }

  lemma {:induction false} SelectedFieldsKeepsDistinct(f: Fields)
    requires DistinctFields(f)
    ensures DistinctFields(SelectedFields(f))
    decreases f
  {
    if f.Field? {
      SelectedKeepsDistinct(f.value);
      SelectedFieldsKeepsDistinct(f.rest);
      SelectedFieldsKeepsShape(f.rest);
    }
  }

  // ---- Idempotence ----------------------------------------------------------

  lemma {:induction false} SelectedIdempotent(v: Json)
    ensures Selected(Selected(v)) == Selected(v)
    decreases v
  {
    if v.Obj? {
      SelectedFieldsIdempotent(v.fields);
      SelectedFieldsKeepsShape(v.fields);
    }
  }

  lemma {:induction false} SelectedFieldsIdempotent(f: Fields)
    ensures SelectedFields(SelectedFields(f)) == SelectedFields(f)
    decreases f
  {
    if f.Field? {
      SelectedIdempotent(f.value);
      SelectedFieldsIdempotent(f.rest);
    }
  }

  lemma {:induction false} EngineSelectedIdempotent(v: Json)
    ensures EngineSelected(EngineSelected(v)) == EngineSelected(v)
    decreases v
  {
    match v
    case Obj(f) =>
      EngineSelectedFieldsIdempotent(f);
      EngineSelectedFieldsKeepsShape(f);
    case Arr(items) =>
      EngineSelectedItemsIdempotent(items);
      EngineSelectedItemsKeepsShape(items);
    case _ =>
  }

  lemma {:induction false} EngineSelectedFieldsIdempotent(f: Fields)
    ensures EngineSelectedFields(EngineSelectedFields(f)) == EngineSelectedFields(f)
    decreases f
  {
    if f.Field? {
      EngineSelectedIdempotent(f.value);
      EngineSelectedFieldsIdempotent(f.rest);
    }
  }

  lemma {:induction false} EngineSelectedItemsIdempotent(items: Items)
    ensures EngineSelectedItems(EngineSelectedItems(items)) == EngineSelectedItems(items)
    decreases items
  {
    if items.Cons? {
      EngineSelectedIdempotent(items.head);
      EngineSelectedItemsIdempotent(items.tail);
    }
  }

  // ---- Where the two copies agree -------------------------------------------

  /** No list and no empty object anywhere. */
  predicate Plain(v: Json) {
    match v
    case Arr(_) => false
    case Obj(f) => f.Field? && PlainFields(f)
    case _ => true
  }

  predicate PlainFields(f: Fields) {
    f.Field? ==> Plain(f.value) && PlainFields(f.rest)
  }

  lemma {:induction false} CopiesAgree(v: Json)
    requires Plain(v)
    ensures EngineSelected(v) == Selected(v)
    decreases v
  {
    if v.Obj? {
      CopiesAgreeOnFields(v.fields);
    }
  }

  lemma {:induction false} CopiesAgreeOnFields(f: Fields)
    requires PlainFields(f)
    ensures EngineSelectedFields(f) == SelectedFields(f)
    decreases f
  {
    if f.Field? {
      CopiesAgree(f.value);
      CopiesAgreeOnFields(f.rest);
    }
  }

  /** The engine's copy leaves no empty object behind, so its extra clean-up pass changes nothing. */
  lemma {:induction false} NormalizeEmptyAfterSelected(v: Json)
    ensures EngineSelected(v) != Obj(Empty)
    ensures NormalizeEmpty(EngineSelected(v)) == EngineSelected(v)
    decreases v
  {
    if v.Obj? {
      NormalizeEmptyAfterSelectedFields(v.fields);
    }
  }

  lemma {:induction false} NormalizeEmptyAfterSelectedFields(f: Fields)
    ensures NormalizeEmptyFields(EngineSelectedFields(f)) == EngineSelectedFields(f)
    decreases f
  {
    if f.Field? {
      NormalizeEmptyAfterSelected(f.value);
      NormalizeEmptyAfterSelectedFields(f.rest);
    }
  }

}
