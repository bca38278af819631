/**
 The text behind every revision: JSON with sorted keys and no white space, non-ASCII left as is.
 Its main result is that the text is unambiguous: two documents print alike exactly when they are
 equal up to key order, so that a collision-free digest identifies the document.
 */
module Canonical {
  import opened Wrappers
  import opened JsonTrees
  import Text

  // ---- Printing -------------------------------------------------------------

  function HexChar(d: nat): char
    requires d < 16
  {
    if d < 10 then '0' + d as char else 'a' + (d - 10) as char
  }

  /** One character inside a string literal. */
  function Escape(c: char): (e: string)
    ensures e != "" && e[0] != '"'
  {
    if c == '"' then "\\\""
    else if c == '\\' then "\\\\"
    else if c == '\n' then "\\n"
    else if c == '\r' then "\\r"
    else if c == '\t' then "\\t"
    else if c == '\U{8}' then "\\b"
    else if c == '\U{c}' then "\\f"
    else if c < ' ' then ['\\', 'u', '0', '0', HexChar(c as int / 16), HexChar(c as int % 16)]
    else [c]
  }

  /** The rest of a string literal, up to and including its closing quote. */
  function Literal(s: string): string {
    if s == "" then "\"" else Escape(s[0]) + Literal(s[1..])
  }

  function Print(v: Json): (text: string)
    ensures text != ""
    decreases v, 0
  {
    match v
    case Null => "null"
    case Bool(b) => if b then "true" else "false"
    case Num(n) => Text.IntText(n)
    case Str(s) => "\"" + Literal(s)
    case Arr(items) => "[" + PrintArray(items)
    case Obj(f) => "{" + PrintObject(f)
  }

  function PrintArray(items: Items): string
    decreases items, 0
  {
    if items.Nil? then "]" else Print(items.head) + PrintItems(items.tail)
  }

  function PrintObject(f: Fields): string
    decreases f, 0
  {
    if f.Empty? then "}" else Label(f.key) + (Print(f.value) + PrintFields(f.rest))
  }

  /** A key and its colon. */
  function Label(key: string): string {
    "\"" + Literal(key) + ":"
  }

  function PrintItems(items: Items): string
    decreases items, 1
  {
    if items.Nil? then "]" else "," + PrintArray(items)
  }

  function PrintFields(f: Fields): string
    decreases f, 1
  {
    if f.Empty? then "}" else "," + PrintObject(f)
  }

  // ---- Key order ------------------------------------------------------------

  function Insert(key: string, value: Json, f: Fields): Fields {
    match f
    case Empty => Field(key, value, Empty)
    case Field(k, v, rest) =>
      if Text.Le(key, k) then Field(key, value, f) else Field(k, v, Insert(key, value, rest))
  }

  /** The tree with the keys of every object in code point order. */
  function Normal(v: Json): Json {
    match v
    case Arr(items) => Arr(NormalItems(items))
    case Obj(f) => Obj(NormalFields(f))
    case _ => v
  }

  function NormalItems(items: Items): Items {
    if items.Nil? then Nil else Cons(Normal(items.head), NormalItems(items.tail))
  }

  function NormalFields(f: Fields): Fields {
    if f.Empty? then Empty else Insert(f.key, Normal(f.value), NormalFields(f.rest))
  }

  /** `json.dumps(v, sort_keys=True, separators=(",", ":"), ensure_ascii=False)`. */
  function CanonicalText(v: Json): string {
    Print(Normal(v))
  }

  /** `hash_payload`: the empty revision for no payload, otherwise the digest of the canonical text. */
  function Revision(payload: Json, digest: string -> string): string {
    if payload.Null? then "" else digest(CanonicalText(payload))
  }

  // ---- Printing is prefix-free ----------------------------------------------

  /** What may follow a value: nothing, or a delimiter. */
  predicate Delimited(rest: string) {
    rest == "" || rest[0] in {',', ']', '}'}
  }

  lemma EscapePrefix(c: char, s: string, d: char, t: string)
    requires Escape(c) + s == Escape(d) + t
    ensures c == d && s == t
  {
    var whole := Escape(c) + s;
    EscapeShape(c, s);
    EscapeShape(d, t);
    assert s == whole[|Escape(c)|..] && t == whole[|Escape(d)|..];
  }

  /** An escape can be decoded from the text that starts with it. */
  function Unescape(text: string): (char, nat)
    requires text != ""
  {
    if text[0] != '\\' || |text| == 1 then (text[0], 1)
    else if text[1] == 'n' then ('\n', 2)
    else if text[1] == 'r' then ('\r', 2)
    else if text[1] == 't' then ('\t', 2)
    else if text[1] == 'b' then ('\U{8}', 2)
    else if text[1] == 'f' then ('\U{c}', 2)
    else if text[1] != 'u' || |text| < 6 then (text[1], 2)
    else ((16 * HexDigit(text[4]) + HexDigit(text[5])) as char, 6)
  }

  function HexDigit(c: char): nat {
    if '0' <= c <= '9' then (c - '0') as nat else if 'a' <= c <= 'f' then (c - 'a') as nat + 10 else 0
  }

  lemma EscapeShape(c: char, rest: string)
    ensures Unescape(Escape(c) + rest) == (c, |Escape(c)|)
  {
    var text := Escape(c) + rest;
    var e := Escape(c);
    assert text[0] == e[0];
    assert |e| >= 2 ==> text[1] == e[1];
    if |e| == 6 {
      assert text[4] == e[4] && text[5] == e[5];
    }
  }

  lemma LiteralHead(x: string, rest: string)
    ensures (Literal(x) + rest)[0] == '"' <==> x == ""
    ensures x == "" ==> (Literal(x) + rest)[1..] == rest
    ensures x != "" ==> Literal(x) + rest == Escape(x[0]) + (Literal(x[1..]) + rest)
  {
    if x != "" {
      Regroup(Escape(x[0]), Literal(x[1..]), rest);
    }
  }

  /** Concatenation regroups, and keeps the first character of a nonempty head. */
  lemma Regroup(a: string, b: string, c: string)
    requires a != ""
    ensures (a + b) + c == a + (b + c)
    ensures ((a + b) + c)[0] == a[0]
  {
  }

  lemma {:induction false} LiteralPrefix(x: string, s: string, y: string, t: string)
    requires Literal(x) + s == Literal(y) + t
    ensures x == y && s == t
  {
    LiteralHead(x, s);
    LiteralHead(y, t);
    if x != "" {
      EscapePrefix(x[0], Literal(x[1..]) + s, y[0], Literal(y[1..]) + t);
      LiteralPrefix(x[1..], s, y[1..], t);
      assert x == [x[0]] + x[1..] && y == [y[0]] + y[1..];
    }
  }

  lemma LabelPrefix(k: string, s: string, l: string, t: string)
    requires Label(k) + s == Label(l) + t
    ensures k == l && s == t
  {
    LabelBody(k, s);
    LabelBody(l, t);
    LiteralPrefix(k, ":" + s, l, ":" + t);
    assert (":" + s)[1..] == s && (":" + t)[1..] == t;
  }

  lemma LabelBody(k: string, rest: string)
    ensures (Label(k) + rest)[1..] == Literal(k) + (":" + rest)
  {
    var literal := Literal(k);
    assert ((("\"" + literal) + ":") + rest)[1..] == literal + (":" + rest);
  }

  /** The first character tells the kind of value. */
  function Kind(c: char): nat {
    if c == 'n' then 0 else if c == 't' then 1 else if c == 'f' then 2
    else if c == '-' || Text.IsDigit(c) then 3
    else if c == '"' then 4 else if c == '[' then 5 else if c == '{' then 6 else 7
  }

  function KindOf(v: Json): nat {
    match v
    case Null => 0
    case Bool(b) => if b then 1 else 2
    case Num(_) => 3
    case Str(_) => 4
    case Arr(_) => 5
    case Obj(_) => 6
  }

  lemma PrintKind(v: Json, rest: string)
    ensures Kind((Print(v) + rest)[0]) == KindOf(v)
    ensures v.Str? || v.Arr? || v.Obj? ==> Print(v)[1..] + rest == (Print(v) + rest)[1..]
  {
    assert (Print(v) + rest)[0] == Print(v)[0];
  }

  /** A value is decoded unambiguously from the front of any text it begins. */
  lemma {:induction false} PrintPrefix(a: Json, s: string, b: Json, t: string)
    requires Print(a) + s == Print(b) + t
    requires Delimited(s) && Delimited(t)
    ensures a == b && s == t
    decreases a, 1
  {
    PrintKind(a, s);
    PrintKind(b, t);
    match a
    case Null => assert s == (Print(a) + s)[4..] == t;
    case Bool(x) => assert s == (Print(a) + s)[|Print(a)|..] == t;
    case Num(n) => Text.IntTextPrefix(n, s, b.number, t);
    case Str(x) =>
      assert Print(a)[1..] == Literal(x) && Print(b)[1..] == Literal(b.text);
      LiteralPrefix(x, s, b.text, t);
    case Arr(x) =>
      assert Print(a)[1..] == PrintArray(x) && Print(b)[1..] == PrintArray(b.items);
      ArrayPrefix(x, s, b.items, t);
    case Obj(f) =>
      assert Print(a)[1..] == PrintObject(f) && Print(b)[1..] == PrintObject(b.fields);
      ObjectPrefix(f, s, b.fields, t);
  }

  lemma {:induction false} ArrayPrefix(x: Items, s: string, y: Items, t: string)
    requires PrintArray(x) + s == PrintArray(y) + t
    ensures x == y && s == t
    decreases x, 0
  {
    var whole := PrintArray(x) + s;
    if x.Cons? {
      PrintKind(x.head, PrintItems(x.tail) + s);
      Regroup(Print(x.head), PrintItems(x.tail), s);
    }
    if y.Cons? {
      PrintKind(y.head, PrintItems(y.tail) + t);
      Regroup(Print(y.head), PrintItems(y.tail), t);
    }
    if x.Nil? {
      assert s == whole[1..] == t;
    } else {
      PrintPrefix(x.head, PrintItems(x.tail) + s, y.head, PrintItems(y.tail) + t);
      ItemsPrefix(x.tail, s, y.tail, t);
    }
  }

  /** What follows the separator or the closing bracket. */
  lemma ItemsHead(x: Items, s: string)
    ensures (PrintItems(x) + s)[0] == if x.Nil? then ']' else ','
    ensures (PrintItems(x) + s)[1..] == if x.Nil? then s else PrintArray(x) + s
  {
    hide Print, PrintArray;
  }

  lemma {:induction false} ItemsPrefix(x: Items, s: string, y: Items, t: string)
    requires PrintItems(x) + s == PrintItems(y) + t
    ensures x == y && s == t
    decreases x, 1
  {
    hide PrintItems, PrintArray, Print;
    ItemsHead(x, s);
    ItemsHead(y, t);
    if x.Cons? {
      ArrayPrefix(x, s, y, t);
    }
  }

  lemma {:induction false} ObjectPrefix(f: Fields, s: string, g: Fields, t: string)
    requires PrintObject(f) + s == PrintObject(g) + t
    ensures f == g && s == t
    decreases f, 0
  {
    var whole := PrintObject(f) + s;
    assert whole[0] == PrintObject(f)[0] == PrintObject(g)[0];
    if f.Empty? {
      assert s == whole[1..] == t;
    } else {
      Regroup(Label(f.key), Print(f.value) + PrintFields(f.rest), s);
      Regroup(Label(g.key), Print(g.value) + PrintFields(g.rest), t);
      Regroup(Print(f.value), PrintFields(f.rest), s);
      Regroup(Print(g.value), PrintFields(g.rest), t);
      var s', t' := PrintFields(f.rest) + s, PrintFields(g.rest) + t;
      LabelPrefix(f.key, Print(f.value) + s', g.key, Print(g.value) + t');
      PrintPrefix(f.value, s', g.value, t');
      FieldsPrefix(f.rest, s, g.rest, t);
    }
  }

  lemma FieldsHead(f: Fields, s: string)
    ensures (PrintFields(f) + s)[0] == if f.Empty? then '}' else ','
    ensures (PrintFields(f) + s)[1..] == if f.Empty? then s else PrintObject(f) + s
  {
    hide Print, PrintObject;
  }

  lemma {:induction false} FieldsPrefix(f: Fields, s: string, g: Fields, t: string)
    requires PrintFields(f) + s == PrintFields(g) + t
    ensures f == g && s == t
    decreases f, 1
  {
    hide PrintFields, PrintObject, Print;
    FieldsHead(f, s);
    FieldsHead(g, t);
    if f.Field? {
      ObjectPrefix(f, s, g, t);
    }
  }

  // ---- Key order carries no information -------------------------------------

  /** Keys strictly ascend. */
  ghost predicate Ascending(f: Fields) {
    f.Field? ==> (forall k :: k in Keys(f.rest) ==> Text.Le(f.key, k) && k != f.key) && Ascending(f.rest)
  }

  lemma {:induction false} InsertAscends(key: string, value: Json, f: Fields)
    requires key !in Keys(f) && Ascending(f)
    ensures Keys(Insert(key, value, f)) == Keys(f) + {key}
    ensures forall k :: Lookup(Insert(key, value, f), k) == if k == key then Some(value) else Lookup(f, k)
    ensures Ascending(Insert(key, value, f))
  {
    match f
    case Empty =>
    case Field(k, v, rest) =>
      if Text.Le(key, k) {
        forall j | j in Keys(f) ensures Text.Le(key, j) && j != key {
          if j != k {
            Text.LeTransitive(key, k, j);
          }
        }
      } else {
        Text.LeTotal(key, k);
        InsertAscends(key, value, rest);
      }
  }

  lemma {:induction false} NormalKeepsLookups(f: Fields)
    requires DistinctFields(f)
    ensures Keys(NormalFields(f)) == Keys(f)
    ensures forall k :: k in Keys(f) ==> Lookup(NormalFields(f), k) == Some(Normal(Lookup(f, k).value))
    ensures Ascending(NormalFields(f))
  {
    if f.Field? {
      NormalKeepsLookups(f.rest);
      InsertAscends(f.key, Normal(f.value), NormalFields(f.rest));
    }
  }

  /** An object with ascending keys is determined by its lookups. */
  lemma {:induction false} AscendingUnique(f: Fields, g: Fields)
    requires Ascending(f) && Ascending(g)
    requires Keys(f) == Keys(g) && forall k :: k in Keys(f) ==> Lookup(f, k) == Lookup(g, k)
    ensures f == g
  {
    assert f.Field? ==> f.key in Keys(g);
    assert g.Field? ==> g.key in Keys(f);
    if f.Field? && g.Field? {
      if f.key != g.key {
        Text.LeAntisymmetric(f.key, g.key);
      }
      assert Keys(f.rest) == Keys(f) - {f.key} == Keys(g) - {g.key} == Keys(g.rest);
      forall k | k in Keys(f.rest) ensures Lookup(f.rest, k) == Lookup(g.rest, k) {
        assert Lookup(f, k) == Lookup(g, k);
      }
      assert Lookup(f, f.key) == Lookup(g, f.key);
      AscendingUnique(f.rest, g.rest);
    }
  }

  /** Trees are equal up to key order exactly when they have the same normal form. */
  lemma {:induction false} EqualIffNormal(a: Json, b: Json)
    requires Distinct(a) && Distinct(b)
    ensures Equal(a, b) <==> Normal(a) == Normal(b)
    decreases a
  {
    match (a, b)
    case (Arr(s), Arr(t)) => EqualItemsIffNormal(s, t);
    case (Obj(f), Obj(g)) =>
      NormalKeepsLookups(f);
      NormalKeepsLookups(g);
      if Keys(f) == Keys(g) {
        WithinIffNormal(f, g);
        if FieldsWithin(f, g) {
          AscendingUnique(NormalFields(f), NormalFields(g));
        }
      }
    case _ =>
  }

  lemma {:induction false} EqualItemsIffNormal(s: Items, t: Items)
    requires DistinctItems(s) && DistinctItems(t)
    ensures EqualItems(s, t) <==> NormalItems(s) == NormalItems(t)
    decreases s
  {
    if s.Cons? && t.Cons? {
      EqualIffNormal(s.head, t.head);
      EqualItemsIffNormal(s.tail, t.tail);
    }
  }

  lemma {:induction false} WithinIffNormal(f: Fields, g: Fields)
    requires DistinctFields(f) && DistinctFields(g) && Keys(f) <= Keys(g)
    ensures FieldsWithin(f, g) <==>
            forall k :: k in Keys(f) ==> Normal(Lookup(f, k).value) == Normal(Lookup(g, k).value)
    decreases f
  {
    if f.Field? {
      DistinctValue(g, f.key);
      EqualIffNormal(f.value, Lookup(g, f.key).value);
      WithinIffNormal(f.rest, g);
      forall k | k in Keys(f.rest) ensures Lookup(f, k) == Lookup(f.rest, k) {
      }
      assert Lookup(f, f.key) == Some(f.value);
    }
  }

  // ---- Main results ---------------------------------------------------------

  /** The canonical text is unambiguous. */
  lemma CanonicalTextUnambiguous(a: Json, b: Json)
    requires Distinct(a) && Distinct(b)
    ensures CanonicalText(a) == CanonicalText(b) <==> Equal(a, b)
  {
    EqualIffNormal(a, b);
    if CanonicalText(a) == CanonicalText(b) {
      assert Print(Normal(a)) + "" == Print(Normal(b)) + "";
      PrintPrefix(Normal(a), "", Normal(b), "");
    }
  }

  /** A digest without collisions that is never the empty text. */
  ghost predicate CollisionFree(digest: string -> string) {
    && (forall s, t :: digest(s) == digest(t) ==> s == t)
    && (forall s :: digest(s) != "")
  }

  /** Equal revisions mean equal payloads. */
  lemma RevisionIdentifies(a: Json, b: Json, digest: string -> string)
    requires Distinct(a) && Distinct(b) && CollisionFree(digest)
    ensures Revision(a, digest) == Revision(b, digest) <==> Equal(a, b)
  {
    CanonicalTextUnambiguous(a, b);
  }

}
