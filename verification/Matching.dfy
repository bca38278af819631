/**
 Readback comparison. The source flattens both trees to dotted names and compares texts; this module
 proves that this is the comparison of the trees, leaf path by leaf path.
 `show` is how Python prints a list that sits at a leaf; every result holds for any such function.
 */
module Matching {
  import opened Wrappers
  import opened JsonTrees
  import opened OptionTrees
  import Text

  /** `"" if val is None else str(val)`. */
  function LeafText(v: Json, show: Json -> string): string {
    match v
    case Null => ""
    case Bool(b) => if b then "True" else "False"
    case Num(n) => Text.IntText(n)
    case Str(s) => s
    case _ => show(v)
  }

  /** `str(val)`. */
  function StrOf(v: Json, show: Json -> string): string {
    if v.Null? then "None" else LeafText(v, show)
  }

  /** Dotted names to texts; a later field overwrites an earlier one of the same name. */
  function Flatten(f: Fields, prefix: string, show: Json -> string): map<string, string> {
    if f.Empty? then map[]
    else
      var name := prefix + f.key;
      var head := if f.value.Obj? then Flatten(f.value.fields, name + ".", show)
                  else map[name := LeafText(f.value, show)];
      head + Flatten(f.rest, prefix, show)
  }

  /** Alias content is served comma-separated and written newline-separated. */
  function Words(content: string): seq<string> {
    Text.SortWords(Text.Split(Text.Replace(content, '\n', ','), ','))
  }

  predicate SameValue(name: string, observed: string, wanted: string) {
    if name == "protocol" then Text.Lower(observed) == Text.Lower(wanted)
    else if name == "content" then Words(observed) == Words(wanted)
    else observed == wanted
  }

  predicate FlatMatches(observed: map<string, string>, wanted: map<string, string>) {
    forall name :: name in wanted ==> name in observed && SameValue(name, observed[name], wanted[name])
  }

  /** Does the object read back hold everything that was asked for? */
  predicate Matches(actual: Json, expected: Fields, show: Json -> string)
    requires Selected(actual).Obj?
  {
    FlatMatches(Flatten(Selected(actual).fields, "", show), Flatten(expected, "", show))
  }

  // ---- Reference: comparison of trees by path -------------------------------

  /** The leaf reached by following keys one by one. */
  function LeafAt(f: Fields, path: seq<string>): (leaf: Option<Json>)
    ensures leaf.Some? ==> path != [] && path[0] in Keys(f) && !leaf.value.Obj?
    decreases |path|
  {
    if path == [] || path[0] !in Keys(f) then None
    else
      var v := Lookup(f, path[0]).value;
      if v.Obj? then LeafAt(v.fields, path[1..])
      else if |path| == 1 then Some(v) else None
  }

  predicate SameLeaf(path: seq<string>, observed: string, wanted: string) {
    if path == ["protocol"] then Text.Lower(observed) == Text.Lower(wanted)
    else if path == ["content"] then
      multiset(Text.Split(Text.Replace(observed, '\n', ','), ','))
      == multiset(Text.Split(Text.Replace(wanted, '\n', ','), ','))
    else observed == wanted
  }

  ghost predicate TreeMatches(observed: Fields, wanted: Fields, show: Json -> string) {
    forall path :: LeafAt(wanted, path).Some? ==>
      && LeafAt(observed, path).Some?
      && SameLeaf(path, LeafText(LeafAt(observed, path).value, show), LeafText(LeafAt(wanted, path).value, show))
  }

  predicate DotFree(f: Fields) {
    f.Field? ==> '.' !in f.key && (f.value.Obj? ==> DotFree(f.value.fields)) && DotFree(f.rest)
  }

  // ---- Paths and dotted names -----------------------------------------------

  function Name(path: seq<string>): string {
    Text.Join(path, '.')
  }

  ghost predicate DotFreePath(path: seq<string>) {
    path != [] && forall part :: part in path ==> '.' !in part
  }

  /** A dotted name spells only one path. */
  lemma NameInjective(p: seq<string>, q: seq<string>)
    requires DotFreePath(p) && DotFreePath(q) && Name(p) == Name(q)
    ensures p == q
  {
    Text.SplitJoin(p, '.');
    Text.SplitJoin(q, '.');
  }

  lemma {:induction false} DotFreeLookup(f: Fields, key: string)
    requires DotFree(f) && key in Keys(f)
    ensures '.' !in key
    ensures Lookup(f, key).value.Obj? ==> DotFree(Lookup(f, key).value.fields)
  {
    if f.key != key {
      DotFreeLookup(f.rest, key);
    }
  }

  lemma {:induction false} LeafPathDotFree(f: Fields, path: seq<string>)
    requires DotFree(f) && LeafAt(f, path).Some?
    ensures DotFreePath(path)
    decreases |path|
  {
    DotFreeLookup(f, path[0]);
    var v := Lookup(f, path[0]).value;
    if v.Obj? {
      LeafPathDotFree(v.fields, path[1..]);
      assert path == [path[0]] + path[1..];
    }
  }

  /** Every flattened name comes from a leaf. */
  lemma {:induction false} FlattenedNameHasPath(f: Fields, prefix: string, show: Json -> string, name: string)
    returns (path: seq<string>)
    requires DotFree(f) && DistinctFields(f)
    requires name in Flatten(f, prefix, show)
    ensures LeafAt(f, path).Some? && name == prefix + Name(path)
    decreases f
  {
    if name in Flatten(f.rest, prefix, show) {
      path := FlattenedNameHasPath(f.rest, prefix, show, name);
      assert Lookup(f, path[0]) == Lookup(f.rest, path[0]);
    } else if f.value.Obj? {
      var below := FlattenedNameHasPath(f.value.fields, prefix + f.key + ".", show, name);
      path := [f.key] + below;
      assert path[1..] == below;
    } else {
      path := [f.key];
    }
  }

  /** Every leaf is flattened to its own name, with its own text. */
  lemma {:induction false} LeafIsFlattened(f: Fields, prefix: string, show: Json -> string, path: seq<string>)
    requires DotFree(f) && DistinctFields(f)
    requires LeafAt(f, path).Some?
    ensures prefix + Name(path) in Flatten(f, prefix, show)
    ensures Flatten(f, prefix, show)[prefix + Name(path)] == LeafText(LeafAt(f, path).value, show)
    decreases f
  {
    var name := prefix + Name(path);
    if path[0] != f.key {
      assert Lookup(f, path[0]) == Lookup(f.rest, path[0]);
      LeafIsFlattened(f.rest, prefix, show, path);
    } else {
      if name in Flatten(f.rest, prefix, show) {
        var other := FlattenedNameHasPath(f.rest, prefix, show, name);
        assert Name(path) == name[|prefix|..] == Name(other);
        LeafPathDotFree(f, path);
        LeafPathDotFree(f.rest, other);
        NameInjective(path, other);
      }
      if f.value.Obj? {
        LeafIsFlattened(f.value.fields, prefix + f.key + ".", show, path[1..]);
        assert name == prefix + f.key + "." + Name(path[1..]);
      } else {
        assert path == [f.key];
      }
    }
  }

  lemma SameValueIsSameLeaf(path: seq<string>, observed: string, wanted: string)
    requires DotFreePath(path)
    ensures SameValue(Name(path), observed, wanted) <==> SameLeaf(path, observed, wanted)
  {
    if Name(path) == "protocol" {
      NameInjective(path, ["protocol"]);
    }
    if Name(path) == "content" {
      NameInjective(path, ["content"]);
    }
    Text.SortWordsIffSameWords(Text.Split(Text.Replace(observed, '\n', ','), ','),
                               Text.Split(Text.Replace(wanted, '\n', ','), ','));
  }

  // ---- Main results ---------------------------------------------------------

  /** A leaf of both objects and the two flat entries of its name say the same. */
  lemma LeavesAreEntries(observed: Fields, wanted: Fields, show: Json -> string, path: seq<string>)
    requires DistinctFields(observed) && DotFree(observed) && DistinctFields(wanted) && DotFree(wanted)
    requires LeafAt(observed, path).Some? && LeafAt(wanted, path).Some?
    ensures var o, w, name := Flatten(observed, "", show), Flatten(wanted, "", show), Name(path);
            && name in o && name in w
            && (SameValue(name, o[name], w[name]) <==>
                SameLeaf(path, LeafText(LeafAt(observed, path).value, show),
                         LeafText(LeafAt(wanted, path).value, show)))
  {
    hide Flatten, SameValue, SameLeaf, LeafText, LeafAt;
    assert "" + Name(path) == Name(path);
    LeafIsFlattened(observed, "", show, path);
    LeafIsFlattened(wanted, "", show, path);
    LeafPathDotFree(wanted, path);
    SameValueIsSameLeaf(path, Flatten(observed, "", show)[Name(path)], Flatten(wanted, "", show)[Name(path)]);
  }

  /** A leaf whose name is flattened from the other object, too, is a leaf there. */
  lemma NamedLeafExists(observed: Fields, wanted: Fields, show: Json -> string, path: seq<string>)
    requires DistinctFields(observed) && DotFree(observed) && DotFree(wanted)
    requires LeafAt(wanted, path).Some? && Name(path) in Flatten(observed, "", show)
    ensures LeafAt(observed, path).Some?
  {
    hide Flatten, LeafAt;
    LeafPathDotFree(wanted, path);
    var other := FlattenedNameHasPath(observed, "", show, Name(path));
    assert "" + Name(other) == Name(other);
    LeafPathDotFree(observed, other);
    NameInjective(path, other);
  }

  /** The flat comparison decides the tree comparison. */
  lemma FlatRefinesTree(observed: Fields, wanted: Fields, show: Json -> string)
    requires DistinctFields(observed) && DotFree(observed)
    requires DistinctFields(wanted) && DotFree(wanted)
    ensures FlatMatches(Flatten(observed, "", show), Flatten(wanted, "", show))
            <==> TreeMatches(observed, wanted, show)
  {
    hide Flatten, SameValue, SameLeaf, LeafText, LeafAt, DotFree;
    var o, w := Flatten(observed, "", show), Flatten(wanted, "", show);
    if FlatMatches(o, w) {
      forall path | LeafAt(wanted, path).Some?
        ensures LeafAt(observed, path).Some?
        ensures SameLeaf(path, LeafText(LeafAt(observed, path).value, show), LeafText(LeafAt(wanted, path).value, show))
      {
        LeafIsFlattened(wanted, "", show, path);
        assert "" + Name(path) == Name(path);
        NamedLeafExists(observed, wanted, show, path);
        LeavesAreEntries(observed, wanted, show, path);
      }
    }
    if TreeMatches(observed, wanted, show) {
      forall name | name in w ensures name in o && SameValue(name, o[name], w[name]) {
        var path := FlattenedNameHasPath(wanted, "", show, name);
        assert "" + Name(path) == Name(path) == name;
        LeavesAreEntries(observed, wanted, show, path);
      }
    }
  }

  /** What `matches` decides about the object read back. */
  lemma MatchesIffEveryLeafMatches(actual: Json, expected: Fields, show: Json -> string)
    requires Distinct(actual) && Selected(actual).Obj? && DotFree(Selected(actual).fields)
    requires DistinctFields(expected) && DotFree(expected)
    ensures Matches(actual, expected, show) <==> TreeMatches(Selected(actual).fields, expected, show)
  {
    SelectedKeepsDistinct(actual);
    FlatRefinesTree(Selected(actual).fields, expected, show);
  }

  /** On canonical objects matching is a preorder. */
  lemma MatchingIsPreorder(a: Json, b: Fields, c: Fields, show: Json -> string)
    requires Selected(a).Obj? && Selected(Obj(b)) == Obj(b)
    ensures Matches(Obj(b), b, show)
    ensures Matches(a, b, show) && Matches(Obj(b), c, show) ==> Matches(a, c, show)
  {
    var x, y, z := Flatten(Selected(a).fields, "", show), Flatten(b, "", show), Flatten(c, "", show);
    if FlatMatches(x, y) && FlatMatches(y, z) {
      assert FlatMatches(x, z);
    }
  }

}
