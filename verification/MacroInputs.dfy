/** Keeping a macro's inputs in step with the names its script mentions (`src/macroScript.ts`). */
module MacroInputs {
  /** Ids come from a counter: an id made up later is larger. */
  datatype Field = Field(id: nat, name: string, settings: string)

  datatype Inputs = Inputs(fields: seq<Field>, auto: set<nat>, nextId: nat)

  const DEFAULTS := "text, required"

  /** No id in use has yet to be made up. */
  ghost predicate Valid(s: Inputs) {
    && (forall f :: f in s.fields ==> f.id < s.nextId)
    && (forall id :: id in s.auto ==> id < s.nextId)
  }

  function Kept(fields: seq<Field>, auto: set<nat>, names: seq<string>): (r: seq<Field>)
    ensures forall f :: f in r <==> f in fields && (f.name in names || f.id !in auto)
  {
    if fields == [] then []
    else
      var n := |fields| - 1;
      var f, before := fields[n], Kept(fields[..n], auto, names);
      assert fields == fields[..n] + [f];
      if f.name in names || f.id !in auto then before + [f] else before
  }

  function Names(fields: seq<Field>): set<string> {
    set f | f in fields :: f.name
  }

  function Ids(fields: seq<Field>): set<nat> {
    set f | f in fields :: f.id
  }

  /** The names not known, each once, in order. */
  function Missing(names: seq<string>, known: set<string>): (r: seq<string>)
    ensures forall name :: name in r <==> name in names && name !in known
    ensures forall i, j :: 0 <= i < j < |r| ==> r[i] != r[j]
  {
    if names == [] then []
    else
      var n := |names| - 1;
      var before := Missing(names[..n], known);
      assert names == names[..n] + [names[n]];
      if names[n] in known || names[n] in names[..n] then before
      else
        assert forall i :: 0 <= i < |before| ==> before[i] in before;
        before + [names[n]]
  }

  function Made(names: seq<string>, nextId: nat): seq<Field> {
    seq(|names|, i requires 0 <= i < |names| => Field(nextId + i, names[i], DEFAULTS))
  }

  /** The kept fields and one new field for each name. */
  function Grown(kept: seq<Field>, auto: set<nat>, names: seq<string>, nextId: nat): Inputs {
    var made := Made(names, nextId);
    Inputs(kept + made, (auto * Ids(kept)) + Ids(made), nextId + |made|)
  }

  function Sync(s: Inputs, names: seq<string>): Inputs {
    var kept := Kept(s.fields, s.auto, names);
    Grown(kept, s.auto, Missing(names, Names(kept)), s.nextId)
  }

  function SetOf(names: seq<string>): set<string> {
    set name | name in names
  }

  lemma NextName(names: seq<string>, i: nat, known: set<string>)
    requires i < |names|
    ensures SetOf(names[..i + 1]) == SetOf(names[..i]) + {names[i]}
    ensures var before := Missing(names[..i], known);
      Missing(names[..i + 1], known)
        == if names[i] in known + SetOf(names[..i]) then before else before + [names[i]]
  {
    var so := names[..i + 1];
    assert so[..i] == names[..i] && so[i] == names[i];
    assert so == names[..i] + [names[i]];
  }

  lemma GrownNext(kept: seq<Field>, auto: set<nat>, names: seq<string>, name: string, nextId: nat)
    ensures var g := Grown(kept, auto, names, nextId);
      Grown(kept, auto, names + [name], nextId)
        == Inputs(g.fields + [Field(g.nextId, name, DEFAULTS)], g.auto + {g.nextId}, g.nextId + 1)
  {
    var made, field := Made(names, nextId), Field(nextId + |names|, name, DEFAULTS);
    assert Made(names + [name], nextId) == made + [field];
    assert Ids(made + [field]) == Ids(made) + {field.id};
    assert (kept + made) + [field] == kept + (made + [field]);
  }

  lemma InBoth(a: seq<Field>, b: seq<Field>, f: Field)
    ensures f in a + b <==> f in a || f in b
  {
  }

  lemma GrownNothing(kept: seq<Field>, auto: set<nat>, nextId: nat)
    ensures Grown(kept, auto, [], nextId) == Inputs(kept, auto * Ids(kept), nextId)
  {
    assert Made([], nextId) == [] && kept + [] == kept && Ids([]) == {};
  }

  method SyncInputsWithSteps(s: Inputs, names: seq<string>) returns (r: Inputs)
    ensures r == Sync(s, names)
  {
    var kept := KeepFields(s.fields, s.auto, names);
    var nextAuto := s.auto * Ids(kept);
    GrownNothing(kept, s.auto, s.nextId);
    r := AddMissing(kept, s.auto, names, Inputs(kept, nextAuto, s.nextId));
  }

  /** A field for each name that is not known yet. */
  method AddMissing(kept: seq<Field>, ghost auto: set<nat>, names: seq<string>, start: Inputs) returns (r: Inputs)
    requires start == Grown(kept, auto, [], start.nextId)
    ensures r == Grown(kept, auto, Missing(names, Names(kept)), start.nextId)
  {
    var known := Names(kept);
    r := start;
    ghost var missing: seq<string> := [];
    for i := 0 to |names|
      invariant missing == Missing(names[..i], Names(kept))
      invariant known == Names(kept) + SetOf(names[..i])
      invariant r == Grown(kept, auto, missing, start.nextId)
    {
      var name := names[i];
      NextName(names, i, Names(kept));
      missing := Missing(names[..i + 1], Names(kept));
      if name !in known {
        GrownNext(kept, auto, Missing(names[..i], Names(kept)), name, start.nextId);
        r := Inputs(r.fields + [Field(r.nextId, name, DEFAULTS)], r.auto + {r.nextId}, r.nextId + 1);
        known := known + {name};
      }
    }
    assert names[..|names|] == names;
  }

  method KeepFields(fields: seq<Field>, auto: set<nat>, names: seq<string>) returns (kept: seq<Field>)
    ensures kept == Kept(fields, auto, names)
  {
    kept := [];
    for i := 0 to |fields|
      invariant kept == Kept(fields[..i], auto, names)
    {
      assert fields[..i + 1][..i] == fields[..i];
      if fields[i].name in names || fields[i].id !in auto {
        kept := kept + [fields[i]];
      }
    }
    assert fields[..|fields|] == fields;
  }

  // ---- What the sync promises ----

  lemma MadeIs(names: seq<string>, nextId: nat, f: Field)
    ensures f in Made(names, nextId) ==> f.name in names && nextId <= f.id < nextId + |names|
    ensures forall i :: 0 <= i < |names| ==> Field(nextId + i, names[i], DEFAULTS) in Made(names, nextId)
  {
    forall i | 0 <= i < |names| ensures Field(nextId + i, names[i], DEFAULTS) in Made(names, nextId) {
      assert Made(names, nextId)[i] == Field(nextId + i, names[i], DEFAULTS);
    }
  }

  /** Every mentioned name has an input. */
  lemma SyncCovers(s: Inputs, names: seq<string>, name: string)
    requires name in names
    ensures exists f :: f in Sync(s, names).fields && f.name == name
  {
    var kept := Kept(s.fields, s.auto, names);
    var missing := Missing(names, Names(kept));
    if name in Names(kept) {
      var f :| f in kept && f.name == name;
      InBoth(kept, Made(missing, s.nextId), f);
    } else {
      var i :| 0 <= i < |missing| && missing[i] == name;
      var f := Field(s.nextId + i, name, DEFAULTS);
      MadeIs(missing, s.nextId, f);
      InBoth(kept, Made(missing, s.nextId), f);
    }
  }

  /** An input goes exactly when detection made it, the user never edited it and nothing mentions it; new inputs
      are for mentioned names that no remaining input has, one each, and belong to detection. */
  lemma SyncExactly(s: Inputs, names: seq<string>, f: Field)
    requires Valid(s)
    ensures var r := Sync(s, names);
      && Valid(r)
      && (f in s.fields ==> (f in r.fields <==> f.name in names || f.id !in s.auto))
      && (f in r.fields && f !in s.fields ==>
            && f.name in names && f.id in r.auto && f.id >= s.nextId
            && forall g :: g in r.fields && g.name == f.name ==> g == f)
  {
    var kept := Kept(s.fields, s.auto, names);
    var missing := Missing(names, Names(kept));
    var made, r := Made(missing, s.nextId), Sync(s, names);
    forall g ensures g in made ==> g.name in missing && s.nextId <= g.id < r.nextId {
      MadeIs(missing, s.nextId, g);
    }
    forall g ensures g in kept ==> g.name in Names(kept) && g.id < s.nextId {
    }
    forall g ensures g in r.fields <==> g in kept || g in made {
      InBoth(kept, made, g);
    }
    if f in r.fields && f !in s.fields {
      assert f in made;
      forall g | g in r.fields && g.name == f.name ensures g == f {
        assert g in made;
        SameName(missing, s.nextId, f, g);
      }
    }
  }

  lemma SameName(names: seq<string>, nextId: nat, f: Field, g: Field)
    requires forall i, j :: 0 <= i < j < |names| ==> names[i] != names[j]
    requires f in Made(names, nextId) && g in Made(names, nextId) && f.name == g.name
    ensures f == g
  {
    var i :| 0 <= i < |names| && Made(names, nextId)[i] == f;
    var j :| 0 <= j < |names| && Made(names, nextId)[j] == g;
  }

  lemma {:induction false} KeepsAll(fields: seq<Field>, auto: set<nat>, names: seq<string>)
    requires forall f :: f in fields ==> f.name in names || f.id !in auto
    ensures Kept(fields, auto, names) == fields
  {
    if fields != [] {
      var n := |fields| - 1;
      assert fields == fields[..n] + [fields[n]];
      KeepsAll(fields[..n], auto, names);
    }
  }

  lemma {:induction false} NothingMissing(names: seq<string>, known: set<string>)
    requires forall name :: name in names ==> name in known
    ensures Missing(names, known) == []
  {
    if names != [] {
      NothingMissing(names[..|names| - 1], known);
    }
  }

  lemma StillKept(s: Inputs, names: seq<string>, f: Field)
    requires Valid(s) && f in Sync(s, names).fields
    ensures f.name in names || f.id !in Sync(s, names).auto
  {
    var kept := Kept(s.fields, s.auto, names);
    var missing := Missing(names, Names(kept));
    var made := Made(missing, s.nextId);
    forall g ensures g in made ==> g.name in missing && g.id >= s.nextId {
      MadeIs(missing, s.nextId, g);
    }
    InBoth(kept, made, f);
  }

  /** A second sync with the same script changes nothing. */
  lemma SyncIsIdempotent(s: Inputs, names: seq<string>)
    requires Valid(s)
    ensures Sync(Sync(s, names), names) == Sync(s, names)
  {
    var r := Sync(s, names);
    forall f | f in r.fields ensures f.name in names || f.id !in r.auto {
      StillKept(s, names, f);
    }
    KeepsAll(r.fields, r.auto, names);
    AutoIsOfFields(s, names);
    forall name | name in names ensures name in Names(r.fields) {
      SyncCovers(s, names, name);
    }
    NothingMissing(names, Names(r.fields));
    NothingToDo(r, names);
  }

  lemma NothingToDo(r: Inputs, names: seq<string>)
    requires Kept(r.fields, r.auto, names) == r.fields && Missing(names, Names(r.fields)) == []
    requires r.auto * Ids(r.fields) == r.auto
    ensures Sync(r, names) == r
  {
    assert Made([], r.nextId) == [] && r.fields + [] == r.fields && Ids([]) == {};
  }

  lemma AutoIsOfFields(s: Inputs, names: seq<string>)
    ensures var r := Sync(s, names); r.auto * Ids(r.fields) == r.auto
  {
    var kept := Kept(s.fields, s.auto, names);
    var made := Made(Missing(names, Names(kept)), s.nextId);
    assert forall f :: f in kept || f in made ==> f in kept + made;
  }
}
