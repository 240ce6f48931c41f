/**
 * The template registry: templates stored under their artifact's lower-cased category,
 * type, format and variant, four levels deep, each level keeping insertion order.
 * PHP turns a key that spells an integer into that integer, but does so the same way
 * on every write and read, so the keys are kept here as the lower-cased strings.
 */
module Templates {
  import opened Wrappers
  import opened PhpStrings
  import opened OrderedMap
  import opened Artifacts

  type Variants = seq<(string, Template)>
  type Formats = seq<(string, Variants)>
  type Types = seq<(string, Formats)>
  type Registry = seq<(string, Types)>

  /** `$templates[c][t][f][v] ?? null`. */
  function Find(reg: Registry, c: string, t: string, f: string, v: string): Option<Template>
  {
    Get(Get(Get(Get(reg, c).GetOr([]), t).GetOr([]), f).GetOr([]), v)
  }

  /** `$templates[c][t][f][v] = $template`, creating the intermediate levels. */
  function Store(reg: Registry, c: string, t: string, f: string, v: string, x: Template): (r: Registry)
    ensures Find(r, c, t, f, v) == Some(x)
    ensures forall c', t', f', v' :: (c', t', f', v') != (c, t, f, v) ==> Find(r, c', t', f', v') == Find(reg, c', t', f', v')
  {
    var types := Get(reg, c).GetOr([]);
    var formats := Get(types, t).GetOr([]);
    var variants := Get(formats, f).GetOr([]);
    Put(reg, c, Put(types, t, Put(formats, f, Put(variants, v, x))))
  }

  /** The four keys a template is filed under. */
  function Added(reg: Registry, x: Template): Registry
  {
    var a := x.artifact;
    Store(reg, Lower(a.category), Lower(a.kind), Lower(a.format), Lower(a.variant), x)
  }

  const NoTemplatePrefix := "No template available for category "

  function NoTemplate(c: string, t: string, f: string, v: string): string
  {
    NoTemplatePrefix + c + ", type " + t + ", format " + f + ", variant " + v
  }

  /** `getTemplate` over a registry: the lookup is case-insensitive and a miss is an error. */
  function Lookup(reg: Registry, c: string, t: string, f: string, v: string): (r: Result<Template>)
    ensures r.Success? <==> Find(reg, Lower(c), Lower(t), Lower(f), Lower(v)).Some?
    ensures r.Success? ==> Find(reg, Lower(c), Lower(t), Lower(f), Lower(v)) == Some(r.value)
    ensures r.Failure? ==> r.error == Error(Generic, NoTemplate(Lower(c), Lower(t), Lower(f), Lower(v)))
  {
    match Find(reg, Lower(c), Lower(t), Lower(f), Lower(v))
    case Some(x) => Success(x)
    case None => Failure(Error(Generic, NoTemplate(Lower(c), Lower(t), Lower(f), Lower(v))))
  }

  /** Every template of a variant list, in order. */
  function AllOf(vs: Variants): (r: seq<Template>)
    ensures |r| == |vs|
    ensures forall i :: 0 <= i < |vs| ==> r[i] == vs[i].1
  {
    Values(vs)
  }

  /** Every template under a type: the formats in order, each format's variants in order. */
  function AllFormats(fs: Formats): seq<Template>
  {
    if fs == [] then [] else AllFormats(fs[..|fs| - 1]) + AllOf(fs[|fs| - 1].1)
  }

  /** Every template under a category. */
  function AllTypes(ts: Types): seq<Template>
  {
    if ts == [] then [] else AllTypes(ts[..|ts| - 1]) + AllFormats(ts[|ts| - 1].1)
  }

  /** `listTemplates` over a registry: everything under the given prefix, [] when it is unknown. */
  function Listed(reg: Registry, c: string, t: Option<string>, f: Option<string>): seq<Template>
  {
    var types := Get(reg, Lower(c)).GetOr([]);
    match t
    case None => AllTypes(types)
    case Some(t) =>
      var formats := Get(types, Lower(t)).GetOr([]);
      match f
      case None => AllFormats(formats)
      case Some(f) => AllOf(Get(formats, Lower(f)).GetOr([]))
  }

  /** The templates the constructor registers, in registration order. */
  const Defaults: seq<Template> := [
    Template("BusinessModel", Artifact(Code, "model", "php")),
    Template("PlainEntity", Artifact(Code, "entity", "php")),
    Template("DoctrineOrmEntity", Artifact(Code, "entity", "php", "doctrineOrm")),
    Template("DoctrineOrmRepository", Artifact(Code, "repository", "php", "doctrineOrm")),
    Template("DoctrineMigration", Artifact(Code, "migration", "php", "doctrine")),
    Template("setup", Artifact(Project, "symfony", "sh", "setup")),
    Template("PlainEntity", Artifact(Code, "entity", "java")),
    Template("CreateDatabase", Artifact(Code, "migration", "mysql", "createDatabase")),
    Template("RevertDatabase", Artifact(Code, "migration", "mysql", "revertDatabase")),
    Template("CreateUser", Artifact(Code, "migration", "mysql", "createUser")),
    Template("DataModel", Artifact(Documentation, "model", "markdown"))]

  /** Templates added one after the other. */
  function AddedAll(reg: Registry, xs: seq<Template>): Registry
  {
    if xs == [] then reg else Added(AddedAll(reg, xs[..|xs| - 1]), xs[|xs| - 1])
  }

  class TemplateRegistry {
    var templates: Registry

    constructor ()
      ensures templates == AddedAll([], Defaults)
    {
      templates := [];
      new;
      AddAll(Defaults);
    }

    /** The `init*Templates` calls: the default templates added in order. */
    method AddAll(xs: seq<Template>)
      modifies this
      ensures templates == AddedAll(old(templates), xs)
    {
      var i := 0;
      while i < |xs|
        invariant i <= |xs|
        invariant templates == AddedAll(old(templates), xs[..i])
      {
        assert xs[..i + 1][..i] == xs[..i];
        AddTemplate(xs[i]);
        i := i + 1;
      }
      assert xs[..i] == xs;
    }

    method AddTemplate(x: Template)
      modifies this
      ensures templates == Added(old(templates), x)
    {
      var a := x.artifact;
      templates := Store(templates, Lower(a.category), Lower(a.kind), Lower(a.format), Lower(a.variant), x);
    }

    function GetTemplate(c: string, t: string, f: string, v: string := ""): (r: Result<Template>)
      reads this
      ensures r == Lookup(templates, c, t, f, v)
    {
      Lookup(templates, c, t, f, v)
    }

    function GetTemplateForArtifact(a: Artifact): (r: Result<Template>)
      reads this
      ensures r == GetTemplate(a.category, a.kind, a.format, a.variant)
    {
      GetTemplate(a.category, a.kind, a.format, a.variant)
    }

    method ListTemplates(c: string, t: Option<string> := None, f: Option<string> := None) returns (results: seq<Template>)
      ensures results == Listed(templates, c, t, f)
    {
      var types := Get(templates, Lower(c)).GetOr([]);
      if t.Some? {
        var formats := Get(types, Lower(t.value)).GetOr([]);
        if f.Some? {
          results := CollectVariants([], Get(formats, Lower(f.value)).GetOr([]));
        } else {
          results := CollectFormats([], formats);
        }
      } else {
        results := [];
        var i := 0;
        while i < |types|
          invariant i <= |types|
          invariant results == AllTypes(types[..i])
        {
          assert types[..i + 1][..i] == types[..i];
          results := CollectFormats(results, types[i].1);
          i := i + 1;
        }
        assert types[..i] == types;
      }
    }
  }

  /** The innermost loop: append a variant list's templates. */
  method CollectVariants(acc: seq<Template>, vs: Variants) returns (r: seq<Template>)
    ensures r == acc + AllOf(vs)
  {
    r := acc;
    var j := 0;
    while j < |vs|
      invariant j <= |vs|
      invariant r == acc + AllOf(vs[..j])
    {
      assert AllOf(vs[..j + 1]) == AllOf(vs[..j]) + [vs[j].1];
      r := r + [vs[j].1];
      j := j + 1;
    }
    assert vs[..j] == vs;
  }

  /** The middle loop: append every format's templates. */
  method CollectFormats(acc: seq<Template>, fs: Formats) returns (r: seq<Template>)
    ensures r == acc + AllFormats(fs)
  {
    r := acc;
    var j := 0;
    while j < |fs|
      invariant j <= |fs|
      invariant r == acc + AllFormats(fs[..j])
    {
      assert fs[..j + 1][..j] == fs[..j];
      r := CollectVariants(r, fs[j].1);
      j := j + 1;
    }
    assert fs[..j] == fs;
  }

  // ---------------------------------------------------------------------------------
  // Properties

  /** Adding a template makes it the answer for its own parts, in any case, and changes no other answer. */
  lemma AddThenGet(reg: Registry, x: Template, c: string, t: string, f: string, v: string)
    ensures var a := x.artifact;
      Lower(c) == Lower(a.category) && Lower(t) == Lower(a.kind) && Lower(f) == Lower(a.format) && Lower(v) == Lower(a.variant)
      ==> Lookup(Added(reg, x), c, t, f, v) == Success(x)
    ensures var a := x.artifact;
      !(Lower(c) == Lower(a.category) && Lower(t) == Lower(a.kind) && Lower(f) == Lower(a.format) && Lower(v) == Lower(a.variant))
      ==> Lookup(Added(reg, x), c, t, f, v) == Lookup(reg, c, t, f, v)
  {
  }

  /** Lookup ignores case: inputs equal up to case give the same answer. */
  lemma LookupIgnoresCase(reg: Registry, c: string, t: string, f: string, v: string)
    ensures Lookup(reg, c, t, f, v) == Lookup(reg, Upper(c), Upper(t), Upper(f), Upper(v))
  {
    UpperThenLower(c);
    UpperThenLower(t);
    UpperThenLower(f);
    UpperThenLower(v);
  }

  /** The keys a template is filed under: its artifact's four parts, lower-cased. */
  function FiledUnder(x: Template): (string, string, string, string)
  {
    (Lower(x.artifact.category), Lower(x.artifact.kind), Lower(x.artifact.format), Lower(x.artifact.variant))
  }

  /** The last template in `xs` filed under `key`, if any. */
  function LastFiled(xs: seq<Template>, key: (string, string, string, string)): (r: Option<Template>)
    ensures r.Some? ==> r.value in xs && FiledUnder(r.value) == key
    ensures r.None? ==> forall i :: 0 <= i < |xs| ==> FiledUnder(xs[i]) != key
  {
    if xs == [] then None
    else if FiledUnder(xs[|xs| - 1]) == key then Some(xs[|xs| - 1])
    else LastFiled(xs[..|xs| - 1], key)
  }

  /** After a run of additions, each key answers with the last template filed under it, or as before. */
  lemma {:induction false} FindAddedAll(reg: Registry, xs: seq<Template>, c: string, t: string, f: string, v: string)
    ensures Find(AddedAll(reg, xs), c, t, f, v) ==
      match LastFiled(xs, (c, t, f, v))
      case Some(x) => Some(x)
      case None => Find(reg, c, t, f, v)
    decreases |xs|
  {
    if xs != [] {
      FindAddedAll(reg, xs[..|xs| - 1], c, t, f, v);
    }
  }

  /**
   * The constructor's registry answers `getTemplate` for each default template's parts
   * with that template and for no other parts.
   */
  lemma DefaultContents(c: string, t: string, f: string, v: string)
    ensures forall i :: 0 <= i < |Defaults| ==>
      var k := FiledUnder(Defaults[i]);
      Find(AddedAll([], Defaults), k.0, k.1, k.2, k.3) == Some(Defaults[i])
    ensures Find(AddedAll([], Defaults), c, t, f, v).Some? <==> exists i :: 0 <= i < |Defaults| && FiledUnder(Defaults[i]) == (c, t, f, v)
  {
    DefaultsDistinct();
    hide Defaults;
    ContentsOfDistinct(Defaults, c, t, f, v);
  }

  /** Templates filed under distinct keys are each found, and nothing else is. */
  lemma ContentsOfDistinct(xs: seq<Template>, c: string, t: string, f: string, v: string)
    requires forall j, k :: 0 <= j < k < |xs| ==> FiledUnder(xs[j]) != FiledUnder(xs[k])
    ensures forall i :: 0 <= i < |xs| ==>
      var k := FiledUnder(xs[i]);
      Find(AddedAll([], xs), k.0, k.1, k.2, k.3) == Some(xs[i])
    ensures Find(AddedAll([], xs), c, t, f, v).Some? <==> exists i :: 0 <= i < |xs| && FiledUnder(xs[i]) == (c, t, f, v)
  {
    forall i | 0 <= i < |xs|
      ensures var k := FiledUnder(xs[i]);
        Find(AddedAll([], xs), k.0, k.1, k.2, k.3) == Some(xs[i])
    {
      var k := FiledUnder(xs[i]);
      FindAddedAll([], xs, k.0, k.1, k.2, k.3);
      LastFiledDistinct(xs, i);
    }
    FindAddedAll([], xs, c, t, f, v);
    LastFiledFinds(xs, (c, t, f, v));
  }

  /** LastFiled finds something exactly when some template is filed under the key. */
  lemma LastFiledFinds(xs: seq<Template>, key: (string, string, string, string))
    ensures LastFiled(xs, key).Some? <==> exists i :: 0 <= i < |xs| && FiledUnder(xs[i]) == key
  {
    if LastFiled(xs, key).Some? {
      var x := LastFiled(xs, key).value;
      var i :| 0 <= i < |xs| && xs[i] == x;
      assert FiledUnder(xs[i]) == key;
    }
  }

  /**
   * Eleven default templates: the project template is the sixth, the documentation
   * template the last, and the other nine are code templates.
   */
  lemma DefaultCategories()
    ensures |Defaults| == 11
    ensures forall i :: 0 <= i < |Defaults| ==>
      (Defaults[i].artifact.category == Project <==> i == 5) &&
      (Defaults[i].artifact.category == Documentation <==> i == 10) &&
      (Defaults[i].artifact.category == Code <==> i != 5 && i != 10)
  {
  }

  /** No two default templates are filed under the same keys. */
  lemma DefaultsDistinct()
    ensures forall j, k :: 0 <= j < k < |Defaults| ==> FiledUnder(Defaults[j]) != FiledUnder(Defaults[k])
  {
    SizesDistinct();
    forall j, k | 0 <= j < k < |Defaults|
      ensures FiledUnder(Defaults[j]) != FiledUnder(Defaults[k])
    {
      if (j, k) == (7, 8) {
        assert Lower(Defaults[j].artifact.variant)[0] != Lower(Defaults[k].artifact.variant)[0];
      } else {
        assert Sizes(Defaults[j]) != Sizes(Defaults[k]);
      }
    }
  }

  /** The lengths of an artifact's four parts, which lower-casing keeps. */
  function Sizes(x: Template): (int, int, int, int)
  {
    (|x.artifact.category|, |x.artifact.kind|, |x.artifact.format|, |x.artifact.variant|)
  }

  lemma SizesDistinct()
    ensures forall j, k :: 0 <= j < k < |Defaults| && (j, k) != (7, 8) ==> Sizes(Defaults[j]) != Sizes(Defaults[k])
  {
  }

  /** With distinct keys, the template at position i is the last one filed under its key. */
  lemma {:induction false} LastFiledDistinct(xs: seq<Template>, i: nat)
    requires i < |xs|
    requires forall j, k :: 0 <= j < k < |xs| ==> FiledUnder(xs[j]) != FiledUnder(xs[k])
    ensures LastFiled(xs, FiledUnder(xs[i])) == Some(xs[i])
    decreases |xs|
  {
    if i < |xs| - 1 {
      LastFiledDistinct(xs[..|xs| - 1], i);
    }
  }

  // ---------------------------------------------------------------------------------
  // Listing

  /** Every level of the registry is a PHP array: no key twice at any depth. */
  predicate FormatsOk(fs: Formats)
  {
    Distinct(fs) && forall p :: p in fs ==> Distinct(p.1)
  }

  predicate TypesOk(ts: Types)
  {
    Distinct(ts) && forall p :: p in ts ==> FormatsOk(p.1)
  }

  predicate WellFormed(reg: Registry)
  {
    Distinct(reg) && forall p :: p in reg ==> TypesOk(p.1)
  }

  /** Storing a template keeps every level free of repeated keys. */
  lemma StoreWellFormed(reg: Registry, c: string, t: string, f: string, v: string, x: Template)
    requires WellFormed(reg)
    ensures WellFormed(Store(reg, c, t, f, v, x))
  {
    var types := Get(reg, c).GetOr([]);
    var formats := Get(types, t).GetOr([]);
    var variants := Get(formats, f).GetOr([]);
    assert TypesOk(types);
    assert FormatsOk(formats);
    var variants' := Put(variants, v, x);
    PutKeepsDistinct(variants, v, x);
    var formats' := Put(formats, f, variants');
    PutKeepsDistinct(formats, f, variants');
    PutEntries(formats, f, variants');
    assert FormatsOk(formats');
    var types' := Put(types, t, formats');
    PutKeepsDistinct(types, t, formats');
    PutEntries(types, t, formats');
    assert TypesOk(types');
    PutKeepsDistinct(reg, c, types');
    PutEntries(reg, c, types');
  }

  lemma {:induction false} AddedAllWellFormed(reg: Registry, xs: seq<Template>)
    requires WellFormed(reg)
    ensures WellFormed(AddedAll(reg, xs))
    decreases |xs|
  {
    if xs != [] {
      AddedAllWellFormed(reg, xs[..|xs| - 1]);
      var a := xs[|xs| - 1].artifact;
      StoreWellFormed(AddedAll(reg, xs[..|xs| - 1]), Lower(a.category), Lower(a.kind), Lower(a.format), Lower(a.variant), xs[|xs| - 1]);
    }
  }

  /** The templates under a variant list are exactly the ones its keys read. */
  lemma VariantsMembers(vs: Variants, x: Template)
    requires Distinct(vs)
    ensures x in AllOf(vs) <==> exists v :: Get(vs, v) == Some(x)
  {
    if x in AllOf(vs) {
      var i :| 0 <= i < |vs| && AllOf(vs)[i] == x;
      GetAt(vs, i);
    }
    if exists v :: Get(vs, v) == Some(x) {
      var v :| Get(vs, v) == Some(x);
      var i :| 0 <= i < |vs| && vs[i] == (v, x);
      assert AllOf(vs)[i] == x;
    }
  }

  lemma {:induction false} AllFormatsAt(fs: Formats, x: Template)
    ensures x in AllFormats(fs) <==> exists i :: 0 <= i < |fs| && x in AllOf(fs[i].1)
    decreases |fs|
  {
    if fs != [] {
      var init := fs[..|fs| - 1];
      var last := fs[|fs| - 1];
      AllFormatsAt(init, x);
      assert AllFormats(fs) == AllFormats(init) + AllOf(last.1);
      hide AllFormats, AllOf;
      if x in AllFormats(fs) {
        if x in AllFormats(init) {
          var i :| 0 <= i < |init| && x in AllOf(init[i].1);
          assert fs[i] == init[i];
        } else {
          assert x in AllOf(fs[|fs| - 1].1);
        }
      }
      if exists i :: 0 <= i < |fs| && x in AllOf(fs[i].1) {
        var i :| 0 <= i < |fs| && x in AllOf(fs[i].1);
        if i < |init| {
          assert init[i] == fs[i];
        }
      }
    }
  }

  lemma {:induction false} AllTypesAt(ts: Types, x: Template)
    ensures x in AllTypes(ts) <==> exists i :: 0 <= i < |ts| && x in AllFormats(ts[i].1)
    decreases |ts|
  {
    if ts != [] {
      var init := ts[..|ts| - 1];
      var last := ts[|ts| - 1];
      AllTypesAt(init, x);
      assert AllTypes(ts) == AllTypes(init) + AllFormats(last.1);
      hide AllTypes, AllFormats;
      if x in AllTypes(ts) {
        if x in AllTypes(init) {
          var i :| 0 <= i < |init| && x in AllFormats(init[i].1);
          assert ts[i] == init[i];
        } else {
          assert x in AllFormats(ts[|ts| - 1].1);
        }
      }
      if exists i :: 0 <= i < |ts| && x in AllFormats(ts[i].1) {
        var i :| 0 <= i < |ts| && x in AllFormats(ts[i].1);
        if i < |init| {
          assert init[i] == ts[i];
        }
      }
    }
  }

  /** The templates under a type are exactly the ones some format and variant read. */
  lemma FormatsMembers(fs: Formats, x: Template)
    requires FormatsOk(fs)
    ensures x in AllFormats(fs) <==> exists f, v :: Get(Get(fs, f).GetOr([]), v) == Some(x)
  {
    AllFormatsAt(fs, x);
    if x in AllFormats(fs) {
      var i :| 0 <= i < |fs| && x in AllOf(fs[i].1);
      GetAt(fs, i);
      assert fs[i] in fs;
      VariantsMembers(fs[i].1, x);
      var v :| Get(fs[i].1, v) == Some(x);
      assert Get(Get(fs, fs[i].0).GetOr([]), v) == Some(x);
    }
    if exists f, v :: Get(Get(fs, f).GetOr([]), v) == Some(x) {
      var f, v :| Get(Get(fs, f).GetOr([]), v) == Some(x);
      var vs := Get(fs, f).value;
      var i :| 0 <= i < |fs| && fs[i] == (f, vs);
      assert fs[i] in fs;
      VariantsMembers(vs, x);
    }
  }

  /** The templates under a category are exactly the ones some type, format and variant read. */
  lemma TypesMembers(ts: Types, x: Template)
    requires TypesOk(ts)
    ensures x in AllTypes(ts) <==> exists t, f, v :: Get(Get(Get(ts, t).GetOr([]), f).GetOr([]), v) == Some(x)
  {
    AllTypesAt(ts, x);
    if x in AllTypes(ts) {
      var i :| 0 <= i < |ts| && x in AllFormats(ts[i].1);
      var t := ts[i].0;
      GetAt(ts, i);
      TypesEntry(ts, t);
      hide TypesOk, FormatsOk;
      FormatsMembers(ts[i].1, x);
      var f, v :| Get(Get(ts[i].1, f).GetOr([]), v) == Some(x);
      assert Get(Get(Get(ts, t).GetOr([]), f).GetOr([]), v) == Some(x);
    }
    if exists t, f, v :: Get(Get(Get(ts, t).GetOr([]), f).GetOr([]), v) == Some(x) {
      var t, f, v :| Get(Get(Get(ts, t).GetOr([]), f).GetOr([]), v) == Some(x);
      var fs := Get(ts, t).value;
      var i :| 0 <= i < |ts| && ts[i] == (t, fs);
      TypesEntry(ts, t);
      hide TypesOk, FormatsOk;
      FormatsMembers(fs, x);
      assert Get(Get(fs, f).GetOr([]), v) == Some(x);
      assert x in AllFormats(ts[i].1);
    }
  }

  lemma RegistryEntry(reg: Registry, c: string)
    requires WellFormed(reg)
    ensures TypesOk(Get(reg, c).GetOr([]))
  {
  }

  lemma TypesEntry(ts: Types, t: string)
    requires TypesOk(ts)
    ensures FormatsOk(Get(ts, t).GetOr([]))
  {
  }

  lemma FormatsEntry(fs: Formats, f: string)
    requires FormatsOk(fs)
    ensures Distinct(Get(fs, f).GetOr([]))
  {
  }

  /**
   * `listTemplates(c)` holds exactly the templates some lookup under category c finds;
   * an unknown category lists nothing.
   */
  lemma ListedCategory(reg: Registry, c: string, x: Template)
    requires WellFormed(reg)
    ensures x in Listed(reg, c, None, None) <==> exists t, f, v :: Find(reg, Lower(c), t, f, v) == Some(x)
  {
    var ts := Get(reg, Lower(c)).GetOr([]);
    RegistryEntry(reg, Lower(c));
    hide WellFormed, TypesOk, FormatsOk;
    assert Listed(reg, c, None, None) == AllTypes(ts);
    TypesMembers(ts, x);
    if x in AllTypes(ts) {
      var t, f, v :| Get(Get(Get(ts, t).GetOr([]), f).GetOr([]), v) == Some(x);
      assert Find(reg, Lower(c), t, f, v) == Some(x);
    }
    if exists t, f, v :: Find(reg, Lower(c), t, f, v) == Some(x) {
      var t, f, v :| Find(reg, Lower(c), t, f, v) == Some(x);
      assert Get(Get(Get(ts, t).GetOr([]), f).GetOr([]), v) == Some(x);
    }
  }

  /** `listTemplates(c, t)` holds exactly the templates some lookup under c and t finds. */
  lemma ListedType(reg: Registry, c: string, t: string, x: Template)
    requires WellFormed(reg)
    ensures x in Listed(reg, c, Some(t), None) <==> exists f, v :: Find(reg, Lower(c), Lower(t), f, v) == Some(x)
  {
    var types := Get(reg, Lower(c)).GetOr([]);
    var fs := Get(types, Lower(t)).GetOr([]);
    RegistryEntry(reg, Lower(c));
    TypesEntry(types, Lower(t));
    hide WellFormed, TypesOk, FormatsOk;
    assert Listed(reg, c, Some(t), None) == AllFormats(fs);
    FormatsMembers(fs, x);
    if x in AllFormats(fs) {
      var f, v :| Get(Get(fs, f).GetOr([]), v) == Some(x);
      assert Find(reg, Lower(c), Lower(t), f, v) == Some(x);
    }
    if exists f, v :: Find(reg, Lower(c), Lower(t), f, v) == Some(x) {
      var f, v :| Find(reg, Lower(c), Lower(t), f, v) == Some(x);
      assert Get(Get(fs, f).GetOr([]), v) == Some(x);
    }
  }

  /** `listTemplates(c, t, f)` holds exactly the variants stored under c, t and f. */
  lemma ListedFormat(reg: Registry, c: string, t: string, f: string, x: Template)
    requires WellFormed(reg)
    ensures x in Listed(reg, c, Some(t), Some(f)) <==> exists v :: Find(reg, Lower(c), Lower(t), Lower(f), v) == Some(x)
  {
    var types := Get(reg, Lower(c)).GetOr([]);
    var formats := Get(types, Lower(t)).GetOr([]);
    var vs := Get(formats, Lower(f)).GetOr([]);
    RegistryEntry(reg, Lower(c));
    TypesEntry(types, Lower(t));
    FormatsEntry(formats, Lower(f));
    hide WellFormed, TypesOk, FormatsOk;
    assert Listed(reg, c, Some(t), Some(f)) == AllOf(vs);
    VariantsMembers(vs, x);
    if x in AllOf(vs) {
      var v :| Get(vs, v) == Some(x);
      assert Find(reg, Lower(c), Lower(t), Lower(f), v) == Some(x);
    }
    if exists v :: Find(reg, Lower(c), Lower(t), Lower(f), v) == Some(x) {
      var v :| Find(reg, Lower(c), Lower(t), Lower(f), v) == Some(x);
      assert Get(vs, v) == Some(x);
    }
  }

  /** The constructor's registry is well formed, so the listing lemmas apply to it. */
  lemma DefaultsWellFormed()
    ensures WellFormed(AddedAll([], Defaults))
  {
    AddedAllWellFormed([], Defaults);
  }
}
