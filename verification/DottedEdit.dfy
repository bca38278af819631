/**
 Reading, writing and dropping dotted names in a nested object. A name that is literally a top-level
 key is used as that key; otherwise its dot-separated parts are followed down the tree.
 */
module DottedEdit {
  import opened Wrappers
  import opened JsonTrees
  import Text

  function Parts(name: string): (parts: seq<string>)
    ensures parts != []
  {
    Text.Split(name, '.')
  }

  /** The subtree reached by following keys one by one. */
  function At(f: Fields, path: seq<string>): (v: Option<Json>)
    ensures v.Some? ==> path != [] && path[0] in Keys(f)
    decreases |path|
  {
    if path == [] || path[0] !in Keys(f) then None
    else if |path| == 1 then Lookup(f, path[0])
    else match Lookup(f, path[0]).value
         case Obj(g) => At(g, path[1..])
         case _ => None
  }

  /** The object below `key`, or an empty one where there is none. */
  function Child(f: Fields, key: string): Fields {
    match Lookup(f, key)
    case Some(Obj(g)) => g
    case _ => Empty
  }

  function PutAt(f: Fields, path: seq<string>, value: Json): Fields
    requires path != []
    decreases |path|
  {
    if |path| == 1 then Set(f, path[0], value)
    else Set(f, path[0], Obj(PutAt(Child(f, path[0]), path[1..], value)))
  }

  function DropAt(f: Fields, path: seq<string>): Fields
    requires path != []
    decreases |path|
  {
    if |path| == 1 then Remove(f, path[0])
    else match Lookup(f, path[0])
         case Some(Obj(g)) => Set(f, path[0], Obj(DropAt(g, path[1..])))
         case _ => f
  }

  /** `_get(f, name)`; None when absent. */
  function Get(f: Fields, name: string): Option<Json> {
    if name in Keys(f) then Lookup(f, name) else At(f, Parts(name))
  }

  /** `_put(f, name, value)`. */
  function Put(f: Fields, name: string, value: Json): Fields {
    if name in Keys(f) then Set(f, name, value) else PutAt(f, Parts(name), value)
  }

  /** `_drop(f, name)`. */
  function Drop(f: Fields, name: string): Fields {
    if name in Keys(f) then Remove(f, name) else DropAt(f, Parts(name))
  }

  // ---- Paths ----------------------------------------------------------------

  /** Neither path runs through the other. */
  ghost predicate Apart(p: seq<string>, q: seq<string>) {
    !(p <= q) && !(q <= p)
  }

  /** Names that are not dotted prefixes of one another. */
  ghost predicate Independent(a: string, b: string) {
    Apart(Parts(a), Parts(b))
  }

  /** The path that a name denotes in `f`. */
  function Target(f: Fields, name: string): (path: seq<string>)
    ensures path != []
  {
    if name in Keys(f) then [name] else Parts(name)
  }

  lemma PartsOfPlainName(name: string)
    requires '.' !in name
    ensures Parts(name) == [name]
  {
    Text.SplitFirst(name, "", '.');
  }

  lemma FirstPart(name: string)
    ensures '.' !in Parts(name)[0]
    ensures |Parts(name)| == 1 ==> Parts(name) == [name]
    ensures Parts(name)[0] == name ==> Parts(name) == [name]
  {
    assert Parts(name)[0] in Parts(name);
    Text.JoinSplit(name, '.');
    if '.' !in name {
      PartsOfPlainName(name);
    }
  }

  lemma NameAsFirstPart(name: string, of: string)
    ensures Parts(of)[0] == name ==> Parts(name) <= Parts(of)
  {
    FirstPart(of);
    if Parts(of)[0] == name {
      PartsOfPlainName(name);
    }
  }

  /** Independent names denote separate paths, whichever way each is read. */
  lemma IndependentTargets(a: string, b: string)
    requires Independent(a, b)
    ensures a != b && Parts(a)[0] != b && Parts(b)[0] != a
    ensures Apart([a], [b]) && Apart([a], Parts(b)) && Apart(Parts(a), [b])
  {
    NameAsFirstPart(b, a);
    NameAsFirstPart(a, b);
    assert [a][0] != [b][0] && [a][0] != Parts(b)[0] && [b][0] != Parts(a)[0];
  }

  // ---- One path -------------------------------------------------------------

  lemma {:induction false} PutAtReadsBack(f: Fields, path: seq<string>, value: Json)
    requires path != []
    ensures At(PutAt(f, path, value), path) == Some(value)
    ensures Keys(PutAt(f, path, value)) == Keys(f) + {path[0]}
    decreases |path|
  {
    if |path| == 1 {
      SetIsUpdate(f, path[0], value);
    } else {
      var below := PutAt(Child(f, path[0]), path[1..], value);
      SetIsUpdate(f, path[0], Obj(below));
      PutAtReadsBack(Child(f, path[0]), path[1..], value);
    }
  }

  lemma {:induction false} PutAtElsewhere(f: Fields, path: seq<string>, value: Json, q: seq<string>)
    requires path != [] && Apart(path, q)
    ensures At(PutAt(f, path, value), q) == At(f, q)
    decreases |path|
  {
    var below := if |path| == 1 then value else Obj(PutAt(Child(f, path[0]), path[1..], value));
    SetIsUpdate(f, path[0], below);
    if path[0] == q[0] {
      assert path == [path[0]] + path[1..] && q == [q[0]] + q[1..];
      PutAtElsewhere(Child(f, path[0]), path[1..], value, q[1..]);
    }
  }

  lemma {:induction false} PutAtDistinct(f: Fields, path: seq<string>, value: Json)
    requires path != [] && DistinctFields(f) && Distinct(value)
    ensures DistinctFields(PutAt(f, path, value))
    decreases |path|
  {
    if |path| == 1 {
      SetIsUpdate(f, path[0], value);
    } else {
      if path[0] in Keys(f) {
        DistinctValue(f, path[0]);
      }
      PutAtDistinct(Child(f, path[0]), path[1..], value);
      SetIsUpdate(f, path[0], Obj(PutAt(Child(f, path[0]), path[1..], value)));
    }
  }

  lemma {:induction false} DropAtErases(f: Fields, path: seq<string>)
    requires path != [] && DistinctFields(f)
    ensures At(DropAt(f, path), path) == None
    ensures DistinctFields(DropAt(f, path))
    ensures Keys(f) - {path[0]} <= Keys(DropAt(f, path)) <= Keys(f)
    decreases |path|
  {
    if |path| == 1 {
      RemoveIsErasure(f, path[0]);
    } else if Lookup(f, path[0]).Some? && Lookup(f, path[0]).value.Obj? {
      DistinctValue(f, path[0]);
      var g := Lookup(f, path[0]).value.fields;
      DropAtErases(g, path[1..]);
      SetIsUpdate(f, path[0], Obj(DropAt(g, path[1..])));
    }
  }

  lemma {:induction false} DropAtElsewhere(f: Fields, path: seq<string>, q: seq<string>)
    requires path != [] && Apart(path, q) && DistinctFields(f)
    ensures At(DropAt(f, path), q) == At(f, q)
    decreases |path|
  {
    if |path| == 1 {
      RemoveIsErasure(f, path[0]);
      assert q != [] ==> q[0] != path[0];
    } else if Lookup(f, path[0]).Some? && Lookup(f, path[0]).value.Obj? {
      var g := Lookup(f, path[0]).value.fields;
      SetIsUpdate(f, path[0], Obj(DropAt(g, path[1..])));
      if path[0] == q[0] {
        DistinctValue(f, path[0]);
        assert path == [path[0]] + path[1..] && q == [q[0]] + q[1..];
        DropAtElsewhere(g, path[1..], q[1..]);
      }
    }
  }

  // ---- One name -------------------------------------------------------------

  lemma PutReadsBack(f: Fields, name: string, value: Json)
    ensures Get(Put(f, name, value), name) == Some(value)
  {
    PutAtReadsBack(f, Target(f, name), value);
    FirstPart(name);
  }

  /** Writing one name changes nothing apart from the path it denotes. */
  lemma PutElsewhere(f: Fields, name: string, value: Json, q: seq<string>)
    requires Apart([name], q) && Apart(Parts(name), q)
    ensures At(Put(f, name, value), q) == At(f, q)
  {
    PutAtElsewhere(f, Target(f, name), value, q);
  }

  lemma DropElsewhere(f: Fields, name: string, q: seq<string>)
    requires Apart([name], q) && Apart(Parts(name), q) && DistinctFields(f)
    ensures At(Drop(f, name), q) == At(f, q)
  {
    DropAtElsewhere(f, Target(f, name), q);
  }

  /** Writing one name does not disturb an independent one. */
  lemma PutOtherName(f: Fields, name: string, value: Json, other: string)
    requires Independent(name, other)
    ensures Get(Put(f, name, value), other) == Get(f, other)
    ensures other in Keys(Put(f, name, value)) <==> other in Keys(f)
    ensures At(Put(f, name, value), Parts(other)) == At(f, Parts(other))
  {
    IndependentTargets(name, other);
    PutAtReadsBack(f, Target(f, name), value);
    PutElsewhere(f, name, value, Parts(other));
    PutElsewhere(f, name, value, [other]);
  }

  lemma DropOtherName(f: Fields, name: string, other: string)
    requires Independent(name, other) && DistinctFields(f)
    ensures Get(Drop(f, name), other) == Get(f, other)
    ensures other in Keys(Drop(f, name)) <==> other in Keys(f)
    ensures At(Drop(f, name), Parts(other)) == At(f, Parts(other))
    ensures DistinctFields(Drop(f, name))
  {
    IndependentTargets(name, other);
    DropAtErases(f, Target(f, name));
    DropElsewhere(f, name, Parts(other));
    DropElsewhere(f, name, [other]);
  }

  /** A dotted name that is both a literal key and a nested path. */
  predicate Shadowed(f: Fields, name: string) {
    name in Keys(f) && '.' in name && At(f, Parts(name)).Some?
  }

  /** Dropping a name makes it unreadable, except that a shadowed name uncovers the nested value. */
  lemma DropErasesUnlessShadowed(f: Fields, name: string)
    requires DistinctFields(f)
    ensures Get(Drop(f, name), name) == if Shadowed(f, name) then At(f, Parts(name)) else None
    ensures DistinctFields(Drop(f, name))
  {
    FirstPart(name);
    DropAtErases(f, Target(f, name));
    if name in Keys(f) {
      RemoveIsErasure(f, name);
      if '.' in name {
        assert Parts(name)[0] != name;
        DropAtElsewhere(f, [name], Parts(name));
      } else {
        PartsOfPlainName(name);
      }
    }
  }

  /** The exception is real: the literal key goes, the nested value stays. */
  lemma DropLeavesShadowedValue()
    ensures var f := Field("a.b", Str("x"), Field("a", Obj(Field("b", Str("y"), Empty)), Empty));
            Get(f, "a.b") == Some(Str("x")) && Get(Drop(f, "a.b"), "a.b") == Some(Str("y"))
  {
    Text.SplitFirst("a", "b", '.');
    Text.SplitFirst("b", "", '.');
    assert "a" + ['.'] + "b" == "a.b";
    assert Parts("a.b") == ["a", "b"];
    var f := Field("a.b", Str("x"), Field("a", Obj(Field("b", Str("y"), Empty)), Empty));
    var g := Field("a", Obj(Field("b", Str("y"), Empty)), Empty);
    assert Drop(f, "a.b") == g;
    assert At(g, ["a", "b"]) == At(Field("b", Str("y"), Empty), ["a", "b"][1..]);
    assert ["a", "b"][1..] == ["b"];
    assert At(Field("b", Str("y"), Empty), ["b"]) == Some(Str("y"));
  }

}
