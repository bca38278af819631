/** Decoded JSON documents. Objects are Python dicts: fields in insertion order. */
module JsonTrees {
  import opened Wrappers

  datatype Json =
    | Null
    | Bool(flag: bool)
    | Num(number: int)
    | Str(text: string)
    | Arr(items: Items)
    | Obj(fields: Fields)

  datatype Items = Nil | Cons(head: Json, tail: Items)

  datatype Fields = Empty | Field(key: string, value: Json, rest: Fields)

  /** Python's truth of a value. */
  predicate IsTrue(v: Json) {
    match v
    case Null => false
    case Bool(b) => b
    case Num(n) => n != 0
    case Str(s) => s != ""
    case Arr(items) => items.Cons?
    case Obj(fields) => fields.Field?
  }

  /** The keys of a dict. */
  function Keys(f: Fields): set<string> {
    match f
    case Empty => {}
    case Field(k, _, rest) => {k} + Keys(rest)
  }

  /** `f.get(key)`, telling an absent key from a null value. */
  function Lookup(f: Fields, key: string): (v: Option<Json>)
    ensures v.Some? <==> key in Keys(f)
  {
    match f
    case Empty => None
    case Field(k, value, rest) => if k == key then Some(value) else Lookup(rest, key)
  }

  /** `f[key] = value`: replaced in place, or added last. */
  function Set(f: Fields, key: string, value: Json): Fields {
    match f
    case Empty => Field(key, value, Empty)
    case Field(k, v, rest) => if k == key then Field(k, value, rest) else Field(k, v, Set(rest, key, value))
  }

  /** `f.pop(key, None)`. */
  function Remove(f: Fields, key: string): Fields {
    match f
    case Empty => Empty
    case Field(k, v, rest) => if k == key then rest else Field(k, v, Remove(rest, key))
  }

  /** No key occurs twice in any object of the tree. */
  predicate Distinct(v: Json) {
    match v
    case Arr(items) => DistinctItems(items)
    case Obj(fields) => DistinctFields(fields)
    case _ => true
  }

  predicate DistinctItems(items: Items) {
    items.Cons? ==> Distinct(items.head) && DistinctItems(items.tail)
  }

  predicate DistinctFields(f: Fields) {
    f.Field? ==> f.key !in Keys(f.rest) && Distinct(f.value) && DistinctFields(f.rest)
  }

  /** Equality up to the order of object keys, at every depth. */
  predicate Equal(a: Json, b: Json) {
    match (a, b)
    case (Arr(s), Arr(t)) => EqualItems(s, t)
    case (Obj(f), Obj(g)) => Keys(f) == Keys(g) && FieldsWithin(f, g)
    case _ => a == b
  }

  predicate EqualItems(s: Items, t: Items) {
    match (s, t)
    case (Nil, Nil) => true
    case (Cons(x, xs), Cons(y, ys)) => Equal(x, y) && EqualItems(xs, ys)
    case _ => false
  }

  /** Every field of `f` is in `g` with an equal value. */
  predicate FieldsWithin(f: Fields, g: Fields) {
    match f
    case Empty => true
    case Field(k, v, rest) => k in Keys(g) && Equal(v, Lookup(g, k).value) && FieldsWithin(rest, g)
  }

  lemma {:induction false} SetIsUpdate(f: Fields, key: string, value: Json)
    ensures Keys(Set(f, key, value)) == Keys(f) + {key}
    ensures forall k :: Lookup(Set(f, key, value), k) == if k == key then Some(value) else Lookup(f, k)
    ensures DistinctFields(f) && Distinct(value) ==> DistinctFields(Set(f, key, value))
  {
    match f
    case Empty =>
    case Field(k, v, rest) =>
      if k != key {
        SetIsUpdate(rest, key, value);
      }
  }

  lemma {:induction false} RemoveIsErasure(f: Fields, key: string)
    requires DistinctFields(f)
    ensures Keys(Remove(f, key)) == Keys(f) - {key}
    ensures forall k :: Lookup(Remove(f, key), k) == if k == key then None else Lookup(f, k)
    ensures DistinctFields(Remove(f, key))
  {
    match f
    case Empty =>
    case Field(k, v, rest) =>
      if k != key {
        RemoveIsErasure(rest, key);
      }
  }

  lemma {:induction false} DistinctValue(f: Fields, key: string)
    requires DistinctFields(f) && key in Keys(f)
    ensures Distinct(Lookup(f, key).value)
  {
    if f.key != key {
      DistinctValue(f.rest, key);
    }
  }

}
