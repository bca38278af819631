/** What the payload of a save keeps, writes and withholds. */
module CatalogPayloads {
  import opened Wrappers
  import opened JsonTrees
  import opened OptionTrees
  import opened DottedEdit
  import opened CatalogValues

  /** The text a submitted value is stored as, if it is written at all. */
  function Written(spec: Catalogue, values: Fields, name: string, creating: bool): Option<string> {
    match (Lookup(values, name), Find(spec, name))
    case (Some(value), Some(field)) =>
      (match Encode(field, value, creating) case Write(text) => Some(text) case _ => None)
    case _ => None
  }

  /** What a field reads as in the payload of an update. */
  function Expected(spec: Catalogue, values: Fields, field: FieldSpec, current: Fields, creating: bool): Option<Json> {
    match Written(spec, values, field.name, creating)
    case Some(text) => Some(Str(text))
    case None => if Withheld(field) then Get(Drop(current, field.name), field.name) else Get(current, field.name)
  }

  /** A path that runs neither through nor under the field, however its name is read. */
  ghost predicate Outside(path: seq<string>, name: string) {
    Apart([name], path) && Apart(Parts(name), path)
  }

  // ---- Dropping withheld fields ---------------------------------------------

  lemma {:induction false} DropWithheldOther(spec: Catalogue, merged: Fields, name: string)
    requires DistinctFields(merged)
    requires forall f :: f in spec ==> Independent(f.name, name)
    ensures DistinctFields(DropWithheld(spec, merged))
    ensures Get(DropWithheld(spec, merged), name) == Get(merged, name)
    ensures name in Keys(DropWithheld(spec, merged)) <==> name in Keys(merged)
    ensures At(DropWithheld(spec, merged), Parts(name)) == At(merged, Parts(name))
  {
    if spec != [] {
      DropOtherName(merged, spec[0].name, name);
      DropWithheldOther(spec[1..], if Withheld(spec[0]) then Drop(merged, spec[0].name) else merged, name);
    }
  }

  lemma {:induction false} DropWithheldReads(spec: Catalogue, merged: Fields, i: nat)
    requires IndependentNames(spec) && DistinctFields(merged) && i < |spec|
    ensures DistinctFields(DropWithheld(spec, merged))
    ensures var name := spec[i].name;
            Get(DropWithheld(spec, merged), name)
            == if Withheld(spec[i]) then Get(Drop(merged, name), name) else Get(merged, name)
  {
    var next := if Withheld(spec[0]) then Drop(merged, spec[0].name) else merged;
    DropErasesUnlessShadowed(merged, spec[0].name);
    var name := spec[i].name;
    DropErasesUnlessShadowed(merged, name);
    DropErasesUnlessShadowed(next, name);
    if i == 0 {
      forall f | f in spec[1..] ensures Independent(f.name, name) {
        var j :| 0 <= j < |spec[1..]| && spec[1..][j] == f;
        assert f == spec[j + 1];
      }
      DropWithheldOther(spec[1..], next, name);
    } else {
      DropOtherName(merged, spec[0].name, name);
      assert IndependentNames(spec[1..]) by {
        forall j, k | 0 <= j < |spec[1..]| && 0 <= k < |spec[1..]| && j != k
          ensures Independent(spec[1..][j].name, spec[1..][k].name) {
          assert spec[1..][j] == spec[j + 1] && spec[1..][k] == spec[k + 1];
        }
      }
      DropWithheldReads(spec[1..], next, i - 1);
    }
  }

  lemma {:induction false} DropWithheldElsewhere(spec: Catalogue, merged: Fields, path: seq<string>)
    requires DistinctFields(merged)
    requires forall f :: f in spec && Withheld(f) ==> Outside(path, f.name)
    ensures At(DropWithheld(spec, merged), path) == At(merged, path)
  {
    if spec != [] {
      var next := if Withheld(spec[0]) then Drop(merged, spec[0].name) else merged;
      if Withheld(spec[0]) {
        DropElsewhere(merged, spec[0].name, path);
        DropErasesUnlessShadowed(merged, spec[0].name);
      }
      DropWithheldElsewhere(spec[1..], next, path);
    }
  }

  // ---- Writing submitted values ---------------------------------------------

  lemma {:induction false} WriteAllReads(
    spec: Catalogue, values: Fields, merged: Fields, creating: bool, field: FieldSpec)
    requires IndependentNames(spec) && field in spec && DistinctFields(values)
    requires WriteAll(spec, values, merged, creating).Some?
    ensures Get(WriteAll(spec, values, merged, creating).value, field.name)
            == match Written(spec, values, field.name, creating)
               case Some(text) => Some(Str(text))
               case None => Get(merged, field.name)
    decreases values
  {
    if values.Field? {
      var here := Find(spec, values.key).value;
      var edit := Encode(here, values.value, creating);
      var next := if edit.Write? then Put(merged, values.key, Str(edit.text)) else merged;
      WriteAllReads(spec, values.rest, next, creating, field);
      if values.key == field.name {
        assert Lookup(values.rest, field.name) == None;
        if edit.Write? {
          PutReadsBack(merged, values.key, Str(edit.text));
        }
      } else {
        assert Lookup(values, field.name) == Lookup(values.rest, field.name);
        var i :| 0 <= i < |spec| && spec[i] == here;
        var j :| 0 <= j < |spec| && spec[j] == field;
        assert Independent(spec[i].name, spec[j].name);
        if edit.Write? {
          PutOtherName(merged, values.key, Str(edit.text), field.name);
        }
      }
    }
  }

  lemma {:induction false} WriteAllElsewhere(
    spec: Catalogue, values: Fields, merged: Fields, creating: bool, path: seq<string>)
    requires WriteAll(spec, values, merged, creating).Some? && DistinctFields(values)
    requires forall k :: k in Keys(values) && Written(spec, values, k, creating).Some? ==> Outside(path, k)
    ensures At(WriteAll(spec, values, merged, creating).value, path) == At(merged, path)
    decreases values
  {
    if values.Field? {
      var edit := Encode(Find(spec, values.key).value, values.value, creating);
      var next := if edit.Write? then Put(merged, values.key, Str(edit.text)) else merged;
      if edit.Write? {
        assert Written(spec, values, values.key, creating).Some?;
        PutElsewhere(merged, values.key, Str(edit.text), path);
      }
      forall k | k in Keys(values.rest) && Written(spec, values.rest, k, creating).Some? ensures Outside(path, k) {
        assert Lookup(values, k) == Lookup(values.rest, k);
        assert Written(spec, values, k, creating).Some?;
      }
      WriteAllElsewhere(spec, values.rest, next, creating, path);
    }
  }

  // ---- Main results ---------------------------------------------------------

  /** What an update may rest on: a canonical object with distinct keys. */
  ghost predicate Canonical(current: Fields) {
    exists raw :: EngineSelected(raw) == Obj(current) && DistinctFields(current)
  }

  lemma CanonicalNeedsNoCleanup(current: Fields)
    requires Canonical(current)
    ensures NormalizeEmptyFields(current) == current
  {
    var raw :| EngineSelected(raw) == Obj(current) && DistinctFields(current);
    NormalizeEmptyAfterSelected(raw);
  }

  /** Every field of an accepted update reads as its new text, its old value, or not at all. */
  lemma UpdateReads(spec: Catalogue, values: Fields, current: Fields, field: FieldSpec)
    requires IndependentNames(spec) && field in spec
    requires Canonical(current) && DistinctFields(values)
    requires Payload(spec, Obj(values), current, false).Some?
    ensures Get(Payload(spec, Obj(values), current, false).value, field.name)
            == Expected(spec, values, field, current, false)
  {
    CanonicalNeedsNoCleanup(current);
    var i :| 0 <= i < |spec| && spec[i] == field;
    DropWithheldReads(spec, current, i);
    WriteAllReads(spec, values, Base(spec, current, false), false, field);
  }

  /** A read-only field, and a write-only field that was not submitted, is sent only if its name is shadowed. */
  lemma UpdateWithholds(spec: Catalogue, values: Fields, current: Fields, field: FieldSpec)
    requires IndependentNames(spec) && field in spec && Withheld(field)
    requires Canonical(current) && DistinctFields(values)
    requires Written(spec, values, field.name, false).None?
    requires Payload(spec, Obj(values), current, false).Some?
    ensures Get(Payload(spec, Obj(values), current, false).value, field.name).Some? <==> Shadowed(current, field.name)
  {
    UpdateReads(spec, values, current, field);
    DropErasesUnlessShadowed(current, field.name);
  }

  /** A secret that is left blank or not submitted keeps its stored value. */
  lemma UpdateKeepsBlankSecret(spec: Catalogue, values: Fields, current: Fields, field: FieldSpec)
    requires IndependentNames(spec) && field in spec && field.secret && !Withheld(field)
    requires Canonical(current) && DistinctFields(values)
    requires field.name in Keys(values) ==> IsBlank(Lookup(values, field.name).value)
    requires Payload(spec, Obj(values), current, false).Some?
    ensures Get(Payload(spec, Obj(values), current, false).value, field.name) == Get(current, field.name)
  {
    UpdateReads(spec, values, current, field);
    FindUnique(spec, field);
  }

  lemma SameNameSameField(spec: Catalogue)
    requires IndependentNames(spec)
    ensures forall i, j :: 0 <= i < |spec| && 0 <= j < |spec| && spec[i].name == spec[j].name ==> i == j
  {
    forall i, j | 0 <= i < |spec| && 0 <= j < |spec| && i != j ensures spec[i].name != spec[j].name {
      assert Independent(spec[i].name, spec[j].name);
    }
  }

  lemma FindUnique(spec: Catalogue, field: FieldSpec)
    requires IndependentNames(spec) && field in spec
    ensures Find(spec, field.name) == Some(field)
  {
    var i :| 0 <= i < |spec| && spec[i] == field;
    var found := Find(spec, field.name).value;
    var j :| 0 <= j < |spec| && spec[j] == found;
    SameNameSameField(spec);
  }

  /** Nothing outside the withheld and the written fields changes. */
  lemma UpdateKeepsOtherPaths(spec: Catalogue, values: Fields, current: Fields, path: seq<string>)
    requires Canonical(current) && DistinctFields(values)
    requires Payload(spec, Obj(values), current, false).Some?
    requires forall f :: f in spec && (Withheld(f) || Written(spec, values, f.name, false).Some?) ==>
               Outside(path, f.name)
    ensures At(Payload(spec, Obj(values), current, false).value, path) == At(current, path)
  {
    CanonicalNeedsNoCleanup(current);
    DropWithheldElsewhere(spec, current, path);
    WriteAllElsewhere(spec, values, Base(spec, current, false), false, path);
  }

  // ---- Creation -------------------------------------------------------------

  /** The path lies at or under a catalogued field that may be written. */
  ghost predicate Covered(spec: Catalogue, path: seq<string>) {
    exists f :: f in spec && !f.readonly && Parts(f.name) <= path
  }

  /** No key of the top object contains a dot, so every name denotes its nested path. */
  predicate TopPlain(f: Fields) {
    forall k :: k in Keys(f) ==> '.' !in k
  }

  /** Every scalar, list and empty object sits at a covered path. */
  ghost predicate EndsCovered(spec: Catalogue, f: Fields) {
    forall path :: At(f, path).Some? && (At(f, path).value.Obj? ==> At(f, path).value.fields.Empty?) ==>
      Covered(spec, path)
  }

  /** Every scalar and list sits at a covered path. */
  ghost predicate LeavesCovered(spec: Catalogue, f: Fields) {
    forall path :: At(f, path).Some? && !At(f, path).value.Obj? ==> Covered(spec, path)
  }

  lemma PutIsNested(f: Fields, name: string, value: Json)
    requires TopPlain(f)
    ensures Put(f, name, value) == PutAt(f, Parts(name), value)
    ensures TopPlain(Put(f, name, value))
  {
    if name in Keys(f) {
      PartsOfPlainName(name);
    }
    FirstPart(name);
    PutAtReadsBack(f, Parts(name), value);
  }

  lemma {:induction false} PutAtParents(f: Fields, path: seq<string>, value: Json, q: seq<string>)
    requires [] < q < path
    ensures At(PutAt(f, path, value), q).Some?
    ensures At(PutAt(f, path, value), q).value.Obj? && At(PutAt(f, path, value), q).value.fields.Field?
    decreases |path|
  {
    var below := PutAt(Child(f, path[0]), path[1..], value);
    SetIsUpdate(f, path[0], Obj(below));
    PutAtReadsBack(Child(f, path[0]), path[1..], value);
    assert q[0] == path[0];
    if |q| > 1 {
      assert [] < q[1..] < path[1..];
      PutAtParents(Child(f, path[0]), path[1..], value, q[1..]);
    }
  }

  lemma PutKeepsEndsCovered(spec: Catalogue, f: Fields, field: FieldSpec, value: Json)
    requires TopPlain(f) && field in spec && !field.readonly
    ensures EndsCovered(spec, f) ==> EndsCovered(spec, Put(f, field.name, value))
    ensures LeavesCovered(spec, f) ==> LeavesCovered(spec, Put(f, field.name, value))
  {
    var p := Parts(field.name);
    PutIsNested(f, field.name, value);
    forall q | At(PutAt(f, p, value), q).Some? && !Covered(spec, q)
      ensures var found := At(PutAt(f, p, value), q);
              found == At(f, q) || (found.value.Obj? && found.value.fields.Field?)
    {
      if q < p {
        PutAtParents(f, p, value, q);
      } else {
        PutAtElsewhere(f, p, value, q);
      }
    }
  }

  lemma {:induction false} DefaultsCovered(spec: Catalogue, all: Catalogue, merged: Fields, current: Fields)
    requires forall f :: f in spec ==> f in all && Distinct(f.default)
    requires DistinctFields(current) && DistinctFields(merged)
    requires TopPlain(merged) && EndsCovered(all, merged)
    ensures TopPlain(Defaults(spec, merged, current)) && EndsCovered(all, Defaults(spec, merged, current))
    ensures DistinctFields(Defaults(spec, merged, current))
  {
    if spec != [] {
      var next := Default(spec[0], merged, current);
      if next != merged {
        var v := if Get(current, spec[0].name).Some? then Get(current, spec[0].name).value else spec[0].default;
        AtDistinct(current, Target(current, spec[0].name));
        PutIsNested(merged, spec[0].name, v);
        PutKeepsEndsCovered(all, merged, spec[0], v);
        PutAtDistinct(merged, Parts(spec[0].name), v);
      }
      DefaultsCovered(spec[1..], all, next, current);
    }
  }

  lemma {:induction false} AtDistinct(f: Fields, path: seq<string>)
    requires DistinctFields(f)
    ensures At(f, path).Some? ==> Distinct(At(f, path).value)
    decreases |path|
  {
    if path != [] && path[0] in Keys(f) {
      DistinctValue(f, path[0]);
      if |path| > 1 && Lookup(f, path[0]).value.Obj? {
        AtDistinct(Lookup(f, path[0]).value.fields, path[1..]);
      }
    }
  }

  lemma {:induction false} NormalizeEmptyLookup(f: Fields)
    ensures Keys(NormalizeEmptyFields(f)) == Keys(f)
    ensures forall k :: k in Keys(f) ==>
              Lookup(NormalizeEmptyFields(f), k) ==
              Some(if Lookup(f, k).value == Obj(Empty) then Str("") else NormalizeEmpty(Lookup(f, k).value))
    ensures DistinctFields(f) ==> DistinctFields(NormalizeEmptyFields(f))
    decreases f
  {
    if f.Field? {
      NormalizeEmptyLookup(f.rest);
      if f.value.Obj? {
        NormalizeEmptyLookup(f.value.fields);
      }
      assert Distinct(f.value) ==> Distinct(NormalizeEmpty(f.value));
    }
  }

  /** A leaf after clean-up was a leaf or an empty object before. */
  lemma {:induction false} NormalizeEmptyLeaf(f: Fields, path: seq<string>)
    requires At(NormalizeEmptyFields(f), path).Some? && !At(NormalizeEmptyFields(f), path).value.Obj?
    ensures At(f, path).Some? && (At(f, path).value.Obj? ==> At(f, path).value.fields.Empty?)
    decreases |path|
  {
    NormalizeEmptyLookup(f);
    if |path| > 1 {
      NormalizeEmptyLeaf(Lookup(f, path[0]).value.fields, path[1..]);
    }
  }

  lemma {:induction false} DropAtLeaf(f: Fields, path: seq<string>, q: seq<string>)
    requires path != [] && DistinctFields(f)
    requires At(DropAt(f, path), q).Some? && !At(DropAt(f, path), q).value.Obj?
    ensures At(f, q) == At(DropAt(f, path), q)
    decreases |path|
  {
    if |path| == 1 {
      RemoveIsErasure(f, path[0]);
    } else if Lookup(f, path[0]).Some? && Lookup(f, path[0]).value.Obj? {
      var g := Lookup(f, path[0]).value.fields;
      SetIsUpdate(f, path[0], Obj(DropAt(g, path[1..])));
      DistinctValue(f, path[0]);
      if path[0] == q[0] && |q| > 1 {
        DropAtLeaf(g, path[1..], q[1..]);
      }
    }
  }

  lemma {:induction false} DropWithheldCovered(spec: Catalogue, all: Catalogue, merged: Fields)
    requires DistinctFields(merged) && TopPlain(merged) && LeavesCovered(all, merged)
    ensures TopPlain(DropWithheld(spec, merged)) && LeavesCovered(all, DropWithheld(spec, merged))
  {
    if spec != [] {
      var next := if Withheld(spec[0]) then Drop(merged, spec[0].name) else merged;
      var p := Target(merged, spec[0].name);
      DropAtErases(merged, p);
      forall q | At(next, q).Some? && !At(next, q).value.Obj? ensures Covered(all, q) {
        if Withheld(spec[0]) {
          DropAtLeaf(merged, p, q);
        }
      }
      DropWithheldCovered(spec[1..], all, next);
    }
  }

  lemma {:induction false} WriteAllCovered(spec: Catalogue, values: Fields, merged: Fields)
    requires TopPlain(merged) && LeavesCovered(spec, merged)
    requires WriteAll(spec, values, merged, true).Some?
    ensures LeavesCovered(spec, WriteAll(spec, values, merged, true).value)
    decreases values
  {
    if values.Field? {
      var field := Find(spec, values.key).value;
      var edit := Encode(field, values.value, true);
      if edit.Write? {
        PutIsNested(merged, values.key, Str(edit.text));
        PutKeepsEndsCovered(spec, merged, field, Str(edit.text));
      }
      WriteAllCovered(spec, values.rest, if edit.Write? then Put(merged, values.key, Str(edit.text)) else merged);
    }
  }

  /** A creation payload holds catalogued, writable fields only, whatever the form object contained. */
  lemma CreateHoldsOnlyCatalogued(spec: Catalogue, values: Json, current: Fields, path: seq<string>)
    requires DistinctFields(current) && forall f :: f in spec ==> Distinct(f.default)
    requires Payload(spec, values, current, true).Some?
    requires At(Payload(spec, values, current, true).value, path).Some?
    requires !At(Payload(spec, values, current, true).value, path).value.Obj?
    ensures Covered(spec, path)
  {
    var defaults := Defaults(spec, Empty, current);
    DefaultsCovered(spec, spec, Empty, current);
    var cleaned := NormalizeEmptyFields(defaults);
    NormalizeEmptyLookup(defaults);
    forall q | At(cleaned, q).Some? && !At(cleaned, q).value.Obj? ensures Covered(spec, q) {
      NormalizeEmptyLeaf(defaults, q);
    }
    DropWithheldCovered(spec, spec, cleaned);
    WriteAllCovered(spec, values.fields, DropWithheld(spec, cleaned));
  }

}
