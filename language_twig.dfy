/**
 * The language-independent Twig filters and tests (src/Twig/LanguageTwigExtension.php):
 * names, paths, accessor names, yes/no, the generic type names, the parameter list and the
 * relation tests. The language extensions reuse these and override the type filters.
 */
module LanguageTwig {
  import opened Wrappers
  import opened PhpStrings
  import opened PhpValues
  import opened FieldHelper
  import opened Inflection
  import opened TwigValues
  import Model
  import DatabaseAdapter

  // ---- names ----

  /** `getName($obj)`: null becomes '', a named model object its name, anything else itself. */
  function GetName(obj: Mixed): (r: Mixed)
    ensures obj == Scalar(VNull) ==> r == Str("")
    ensures obj.Scalar? && obj.v != VNull ==> r == obj
    ensures obj.FieldObj? ==> r == Str(obj.field.attrs.name)
    ensures obj.ModelObj? ==> r == Str(obj.model.name)
    ensures obj.DataObj? ==> r == if obj.data.name.Some? then Str(obj.data.name.value) else Scalar(VNull)
    ensures obj.BundleObj? ==> r == Str(obj.name)
    ensures obj.DataBundleObj? ==> r == Str(obj.bundleName)
    ensures obj.DatasetObj? ==> r == Str(obj.dataset.name)
    ensures obj.NamedObj? ==> r == Str(obj.objName)
    ensures obj.Items? || obj.EntityObj? || obj.SideObj? || obj.ElementObj? || obj.IndexObj? || obj.OtherObj? ==> r == obj
  {
    match obj
    case Scalar(v) => if v == VNull then Str("") else obj
    case FieldObj(f) => Str(f.attrs.name)
    case ModelObj(m) => Str(m.name)
    case NamedObj(_, n) => Str(n)
    case BundleObj(_, n) => Str(n)
    case DataBundleObj(n, _) => Str(n)
    case DataObj(d) => if d.name.Some? then Str(d.name.value) else Scalar(VNull)
    case DatasetObj(d) => Str(d.name)
    case _ => obj
  }

  /**
   * A name is taken only once: what getName returns has itself for a name, except the null
   * an unnamed Data gives, which becomes ''.
   */
  lemma GetNameIdempotent(obj: Mixed)
    ensures GetName(obj) != Scalar(VNull) ==> GetName(GetName(obj)) == GetName(obj)
    ensures GetName(obj) == Scalar(VNull) <==> obj.DataObj? && obj.data.name.None?
  {
  }

  /** getName's result is a string unless the object has no name getName knows of. */
  lemma GetNameGivesString(obj: Mixed)
    requires !obj.Scalar? && !obj.Items? && !obj.EntityObj? && !obj.SideObj? && !obj.ElementObj?
             && !obj.IndexObj? && !obj.OtherObj? && !(obj.DataObj? && obj.data.name.None?)
    ensures GetName(obj).Scalar? && GetName(obj).v.VString?
  {
  }

  const ArrayToString := "Array to string conversion"

  /**
   * The string a string function receives for `getName($obj)`: a scalar is converted as PHP
   * converts it; an array or an object without a name cannot be converted.
   */
  function NameText(obj: Mixed): (r: Result<string>)
    ensures GetName(obj).Scalar? && GetName(obj).v.VString? ==> r == Success(GetName(obj).v.s)
    ensures !GetName(obj).Scalar? ==> r.Failure?
  {
    match GetName(obj)
    case Scalar(v) => StringOf(v)
    case Items(_) => Failure(Error(Fatal, ArrayToString))
    case other => Failure(Error(Fatal, "Object of class " + ClassName(other) + " could not be converted to string"))
  }

  /** `pluralFilter`: the plural of a string name; any other name is returned as it is. */
  function Plural(inf: Inflector, obj: Mixed): (r: Mixed)
    ensures GetName(obj).Scalar? && GetName(obj).v.VString? ==> r == Str(inf.pluralize(GetName(obj).v.s))
    ensures !(GetName(obj).Scalar? && GetName(obj).v.VString?) ==> r == GetName(obj)
  {
    var name := GetName(obj);
    if name.Scalar? && name.v.VString? then Str(inf.pluralize(name.v.s)) else name
  }

  /** `singularFilter`, `camelFilter`, `classFilter`: one inflection of the name. */
  function Inflected(transform: string -> string, obj: Mixed): (r: Result<string>)
    ensures r.Success? <==> NameText(obj).Success?
    ensures r.Success? ==> r.value == transform(NameText(obj).value)
  {
    var text :- NameText(obj);
    Success(transform(text))
  }

  /** `wordsFilter`: underscores become spaces and nothing else changes. */
  function Words(obj: Mixed): (r: Result<string>)
    ensures r.Success? <==> NameText(obj).Success?
    ensures r.Success? ==> |r.value| == |NameText(obj).value| && '_' !in r.value
    ensures r.Success? ==> forall i :: 0 <= i < |r.value| ==>
              r.value[i] == if NameText(obj).value[i] == '_' then ' ' else NameText(obj).value[i]
  {
    var text :- NameText(obj);
    Success(MapChars(text, {'_'}, ' '))
  }

  /** `underscoreFilter`: a string name in the database adapter's snake case; any other name as it is. */
  function Underscore(inf: Inflector, obj: Mixed): (r: Mixed)
    ensures GetName(obj).Scalar? && GetName(obj).v.VString? ==>
              r == Str(DatabaseAdapter.ColumnName(inf, GetName(obj).v.s))
    ensures !(GetName(obj).Scalar? && GetName(obj).v.VString?) ==> r == GetName(obj)
  {
    var name := GetName(obj);
    if name.Scalar? && name.v.VString? then
      Str(CollapseDoubleUnderscore(inf.tableize(MapChars(name.v.s, {'-', ' ', '.'}, '_'))))
    else name
  }

  /**
   * `constantFilter`: upper case, then spaces and dashes to underscores; dots stay. A name
   * strtoupper cannot take as a string (an array, an object) makes it warn and return null,
   * which str_replace turns into ''.
   */
  function Constant(obj: Mixed): (r: string)
    ensures NameText(obj).Failure? ==> r == ""
    ensures NameText(obj).Success? ==> |r| == |NameText(obj).value|
    ensures NameText(obj).Success? ==> forall i :: 0 <= i < |r| ==>
              r[i] == if UpperChar(NameText(obj).value[i]) in {' ', '-'} then '_'
                      else UpperChar(NameText(obj).value[i])
    ensures forall i :: 0 <= i < |r| ==> r[i] !in {' ', '-'} && !('a' <= r[i] <= 'z')
  {
    match NameText(obj)
    case Success(text) => MapChars(Upper(text), {' ', '-'}, '_')
    case Failure(_) => ""
  }

  /** `variableFilter` and `memberFilter` of the base extension: the camel-cased name. */
  function Variable(inf: Inflector, obj: Mixed): (r: Result<string>)
    ensures r.Success? <==> NameText(obj).Success?
    ensures r.Success? ==> r.value == inf.camelize(NameText(obj).value)
  {
    Inflected(inf.camelize, obj)
  }

  // ---- paths ----

  /** The text pathFilter and lastPathFilter start from: a bundle's namespace or a string. */
  function PathSource(obj: Mixed): (r: string)
    ensures obj.BundleObj? ==> r == obj.namespace
    ensures obj.Scalar? && obj.v.VString? ==> r == obj.v.s
    ensures !obj.BundleObj? && !(obj.Scalar? && obj.v.VString?) ==> r == ""
  {
    match obj
    case BundleObj(ns, _) => ns
    case Scalar(VString(s)) => s
    case _ => ""
  }

  const PathSeparators: set<char> := {'.', '\\', ' '}
  const PathOrSlash: set<char> := {'.', '\\', ' ', '/'}

  /** `pathFilter`: dots, backslashes and spaces become slashes; empty input gives ''. */
  function Path(obj: Mixed): (r: string)
    ensures IsEmpty(PathSource(obj)) <==> r == ""
    ensures r != "" ==> |r| == |PathSource(obj)|
    ensures forall i :: 0 <= i < |r| ==> r[i] !in PathSeparators
    ensures forall i :: 0 <= i < |r| ==>
              r[i] == if PathSource(obj)[i] in PathSeparators then '/' else PathSource(obj)[i]
  {
    var s := PathSource(obj);
    if !IsEmpty(s) then MapChars(s, PathSeparators, '/') else ""
  }

  /**
   * `lastPathFilter`: slashes and backslashes count as dots (dots are listed too, which
   * changes nothing), and the text after the last dot is kept.
   */
  function LastPath(obj: Mixed): (r: string)
    ensures IsEmpty(PathSource(obj)) ==> r == ""
    ensures '.' !in r
  {
    var s := PathSource(obj);
    if !IsEmpty(s) then LastSegment(MapChars(s, LastPathSeparators, '.'), '.') else ""
  }

  const LastPathSeparators: set<char> := {'.', '/', '\\'}

  /**
   * `r` is what follows the last character of `seps` in `s`: a suffix of `s` free of
   * them, preceded by one of them unless it is all of `s`.
   */
  predicate IsLastSegment(s: string, r: string, seps: set<char>)
  {
    |r| <= |s| && (|r| == |s| || s[|s| - |r| - 1] in seps)
    && forall i :: 0 <= i < |r| ==> r[i] == s[|s| - |r| + i] && r[i] !in seps
  }

  /**
   * What lastPathFilter keeps: the end of the text after its last dot, slash or backslash
   * (all of it when it has none).
   */
  lemma LastPathMeans(obj: Mixed)
    requires !IsEmpty(PathSource(obj))
    ensures IsLastSegment(PathSource(obj), LastPath(obj), LastPathSeparators)
  {
    var s := PathSource(obj);
    assert LastPath(obj) == LastSegment(MapChars(s, LastPathSeparators, '.'), '.');
    assert '.' in LastPathSeparators;
    hide *;
    LastSegmentOfMapped(s, LastPathSeparators);
  }

  /** The last segment of a text whose separators all became dots. */
  lemma LastSegmentOfMapped(s: string, seps: set<char>)
    requires '.' in seps
    ensures IsLastSegment(s, LastSegment(MapChars(s, seps, '.'), '.'), seps)
  {
    var dotted := MapChars(s, seps, '.');
    var r := LastSegment(dotted, '.');
    hide MapChars, LastSegment;
    var k := |s| - |r|;
    assert r == dotted[k..];
    forall i | 0 <= i < |r|
      ensures r[i] == s[k + i] && r[i] !in seps
    {
      assert r[i] == dotted[k + i];
      assert r[i] != '.';
      assert dotted[k + i] == if s[k + i] in seps then '.' else s[k + i];
    }
    if |r| < |s| {
      assert dotted[k - 1] == '.';
      assert s[k - 1] in seps;
    }
  }

  lemma MapTwice(s: string)
    ensures MapChars(MapChars(s, PathSeparators, '/'), LastPathSeparators, '.') == MapChars(s, PathOrSlash, '.')
  {
  }

  /** A path's last segment is the text after its last separator or slash. */
  lemma LastPathOfPath(s: string)
    requires !IsEmpty(s)
    ensures IsLastSegment(s, LastPath(Str(Path(Str(s)))), PathOrSlash)
  {
    assert '.' in PathOrSlash;
    hide *;
    PathThenLastPath(s);
    LastSegmentOfMapped(s, PathOrSlash);
  }

  lemma PathThenLastPath(s: string)
    requires !IsEmpty(s)
    ensures LastPath(Str(Path(Str(s)))) == LastSegment(MapChars(s, PathOrSlash, '.'), '.')
  {
    var p := MapChars(s, PathSeparators, '/');
    assert Path(Str(s)) == p;
    assert p != "0" by {
      if |p| == 1 { assert p[0] == s[0] || p[0] == '/'; }
    }
    MapTwice(s);
  }

  // ---- accessor method names ----

  datatype Accessor = Getter | Setter | Adder | Remover | Container

  /**
   * `getterFilter`, `setterFilter`, `addMethodFilter`, `removeMethodFilter` and
   * `containsMethodFilter`: a non-empty string name gives the prefixed class-style name (add,
   * remove and contains take its singular; a getter ends with '()'); any other name is
   * returned as it is.
   */
  function AccessorName(inf: Inflector, kind: Accessor, obj: Mixed): (r: Mixed)
    ensures var n := GetName(obj);
            !(n.Scalar? && n.v.VString? && !IsEmpty(n.v.s)) ==> r == n
    ensures var n := GetName(obj);
            n.Scalar? && n.v.VString? && !IsEmpty(n.v.s) ==>
              r.Scalar? && r.v.VString? && |r.v.s| >= 3
              && (kind == Getter ==> r.v.s == "get" + inf.classify(n.v.s) + "()")
              && (kind == Setter ==> r.v.s == "set" + inf.classify(n.v.s))
              && (kind == Adder ==> r.v.s == "add" + inf.singularize(inf.classify(n.v.s)))
              && (kind == Remover ==> r.v.s == "remove" + inf.singularize(inf.classify(n.v.s)))
              && (kind == Container ==> r.v.s == "contains" + inf.singularize(inf.classify(n.v.s)))
  {
    var name := GetName(obj);
    if name.Scalar? && name.v.VString? && !IsEmpty(name.v.s) then
      var c := inf.classify(name.v.s);
      Str(match kind
          case Getter => "get" + c + "()"
          case Setter => "set" + c
          case Adder => "add" + inf.singularize(c)
          case Remover => "remove" + inf.singularize(c)
          case Container => "contains" + inf.singularize(c))
    else name
  }

  /** A getter and a setter for the same name differ only in their prefix and the getter's '()'. */
  lemma GetterSetterAgree(inf: Inflector, obj: Mixed)
    requires var n := GetName(obj); n.Scalar? && n.v.VString? && !IsEmpty(n.v.s)
    ensures var g := AccessorName(inf, Getter, obj).v.s;
            var s := AccessorName(inf, Setter, obj).v.s;
            g[..3] == "get" && s[..3] == "set" && g[3..|g| - 2] == s[3..] && g[|g| - 2..] == "()"
  {
  }

  // ---- yes / no ----

  /** `yesNoFilter`. */
  function YesNo(obj: Mixed): (r: string)
    ensures r in {"yes", "no", "N/A"}
    ensures obj.Scalar? && (obj.v.VBool? || obj.v.VInt?) ==> (r == "yes" <==> Truthy(obj.v)) && r != "N/A"
    ensures obj.Scalar? && obj.v.VString? ==>
              (r == "yes" <==> Lower(obj.v.s) in {"yes", "true"})
              && (r == "no" <==> Lower(obj.v.s) in {"no", "false"})
    ensures !(obj.Scalar? && (obj.v.VBool? || obj.v.VInt? || obj.v.VString?)) ==> r == "N/A"
  {
    match obj
    case Scalar(VBool(b)) => if b then "yes" else "no"
    case Scalar(VInt(i)) => if i != 0 then "yes" else "no"
    case Scalar(VString(s)) =>
      var l := Lower(s);
      if l == "yes" || l == "true" then "yes"
      else if l == "no" || l == "false" then "no"
      else "N/A"
    case _ => "N/A"
  }

  lemma YesNoIgnoresCase()
    ensures YesNo(Str("TRUE")) == "yes" && YesNo(Str("No")) == "no" && YesNo(Str("maybe")) == "N/A"
  {
    assert Lower("TRUE") == "true";
    assert Lower("No") == "no";
    assert Lower("maybe") == "maybe";
  }

  // ---- type names ----

  /**
   * The chain of type tests every type filter runs: the first FieldHelper family that matches
   * names the type through `table`; failing all of them, a model of the context's package is
   * named by its type; anything else is a 'string'. The families are disjoint, so the order
   * of the tests does not matter.
   */
  function ScalarName(table: TypeClass -> string, ctx: Context, f: FieldAttrs): (r: string)
    ensures ClassOf(f.fieldType) != OtherClass ==> r == table(ClassOf(f.fieldType))
    ensures ClassOf(f.fieldType) == OtherClass ==>
              r == if ctx.package.Some? && InModels(f, ctx.package.value) then f.fieldType else "string"
  {
    TemporalPredicatesMatchClasses(f);
    NumericPredicatesMatchClasses(f);
    StringPredicateMatchesClass(f);
    if IsBoolean(f) then table(BooleanClass)
    else if IsDate(f) then table(DateClass)
    else if IsTime(f) then table(TimeClass)
    else if IsDateTime(f) then table(DateTimeClass)
    else if IsInteger(f) then table(IntegerClass)
    else if IsLong(f) then table(LongClass)
    else if IsFloat(f) then table(FloatClass)
    else if IsPrice(f) then table(PriceClass)
    else if IsDouble(f) then table(DoubleClass)
    else if IsString(f) then table(StringClass)
    else if ctx.package.Some? && InModels(f, ctx.package.value) then f.fieldType
    else "string"
  }

  /** The generic name of each type family (OtherClass is never looked up). */
  function GenericTable(c: TypeClass): string
  {
    match c
    case BooleanClass => "bool"
    case DateClass => "date"
    case TimeClass => "time"
    case DateTimeClass => "datetime"
    case IntegerClass => "int"
    case LongClass => "long"
    case FloatClass => "float"
    case PriceClass => "double"
    case DoubleClass => "double"
    case StringClass => "string"
    case OtherClass => "string"
  }

  function GenericScalar(ctx: Context, f: FieldAttrs): string
  {
    ScalarName(GenericTable, ctx, f)
  }

  const Optional := " (Optional)"

  /** `listTypeFilter` of the base extension. */
  function ListType(ctx: Context, obj: Mixed): (r: string)
    ensures Subject(obj, false).0.None? ==> r == "string"
    ensures Subject(obj, false).0.Some? ==> r == GenericScalar(ctx, Subject(obj, false).0.value.attrs)
  {
    match Subject(obj, false).0
    case None => "string"
    case Some(f) => GenericScalar(ctx, f.attrs)
  }

  /**
   * `typeFilter` of the base extension: a list is 'list of ' its element type; a field that
   * is neither mandatory in context nor mandatory itself is marked ' (Optional)'; anything
   * but a Field or a Data is a 'string'.
   */
  function Type(ctx: Context, obj: Mixed, mandatory: bool): (r: string)
    ensures Subject(obj, mandatory).0.None? ==> r == "string"
    ensures Subject(obj, mandatory).0.Some? ==>
              var (f, m) := (Subject(obj, mandatory).0.value.attrs, Subject(obj, mandatory).1);
              var base := if f.list then "list of " + GenericScalar(ctx, f) else GenericScalar(ctx, f);
              r == if !m && !f.mandatory then base + Optional else base
  {
    var (field, m) := Subject(obj, mandatory);
    match field
    case None => "string"
    case Some(fv) =>
      var f := fv.attrs;
      var t := if f.list then "list of " + ListType(ctx, FieldObj(fv)) else GenericScalar(ctx, f);
      if !m && !f.mandatory then t + Optional else t
  }

  /** An EventData that is not mandatory is optional unless the caller asks for mandatory. */
  lemma EventDataOptional(ctx: Context, d: DataView)
    requires d.eventMandatory == Some(false) && !d.field.attrs.mandatory
    ensures |Type(ctx, DataObj(d), false)| >= |Optional|
    ensures var t := Type(ctx, DataObj(d), false); t[|t| - |Optional|..] == Optional
    ensures Type(ctx, DataObj(d), true) == Type(ctx, FieldObj(d.field), true)
  {
  }

  // ---- type tests ----

  /**
   * `doubleTest`, `floatTest`, `priceTest`, `longTest`, `integerTest`, `booleanTest`,
   * `stringTest`, `uuidTest`: the FieldHelper test on a Field, or on a Data's field; false
   * for anything else.
   */
  function TypeTest(test: FieldAttrs -> bool, obj: Mixed): (r: bool)
    ensures r <==> Subject(obj, false).0.Some? && test(Subject(obj, false).0.value.attrs)
  {
    match obj
    case FieldObj(f) => test(f.attrs)
    case DataObj(d) => test(d.field.attrs)
    case _ => false
  }

  /** `scalarTest`: long, integer, boolean, double, float or price. */
  function ScalarTest(obj: Mixed): (r: bool)
    ensures r <==> Subject(obj, false).0.Some? &&
                   ClassOf(Subject(obj, false).0.value.attrs.fieldType) in
                     {LongClass, IntegerClass, BooleanClass, DoubleClass, FloatClass, PriceClass}
  {
    match Subject(obj, false).0
    case None => false
    case Some(fv) =>
      var f := fv.attrs;
      TemporalPredicatesMatchClasses(f);
      NumericPredicatesMatchClasses(f);
      IsLong(f) || IsInteger(f) || IsBoolean(f) || IsDouble(f) || IsFloat(f) || IsPrice(f)
  }

  /** `entityTest`: the field's type is a model of the bundle. */
  function EntityTest(obj: Mixed, bundle: Catalog): (r: bool)
    ensures r <==> Subject(obj, false).0.Some? && InModels(Subject(obj, false).0.value.attrs, bundle)
  {
    TypeTest(f => InModels(f, bundle), obj)
  }

  // ---- relation tests ----

  datatype RelationKind = OneToOneTest | OneToManyTest | ManyToOneTest | ManyToManyTest

  /** `getRelationship()` on a side with no relationship: the declared return type is violated. */
  const RelationshipUnset := DatabaseAdapter.RelationshipUnset

  /**
   * One relation checked: one-to-one and many-to-many read the type; one-to-many asks for the
   * LEFT side and many-to-one for the RIGHT side of a one-to-many relationship, and read the
   * type only when the side matches.
   */
  function SideTest(kind: RelationKind, s: SideView): (r: Result<bool>)
    ensures r.Failure? ==> r.error == Error(Fatal, RelationshipUnset) && s.relType.None?
    ensures kind == OneToOneTest ==> (r.Failure? <==> s.relType.None?) && (r == Success(true) <==> s.relType == Some(Model.ONE_TO_ONE))
    ensures kind == ManyToManyTest ==> (r.Failure? <==> s.relType.None?) && (r == Success(true) <==> s.relType == Some(Model.MANY_TO_MANY))
    ensures kind == OneToManyTest ==> (r == Success(true) <==> s.side == Some(Model.LEFT) && s.relType == Some(Model.ONE_TO_MANY))
    ensures kind == ManyToOneTest ==> (r == Success(true) <==> s.side == Some(Model.RIGHT) && s.relType == Some(Model.ONE_TO_MANY))
    ensures kind in {OneToManyTest, ManyToOneTest} ==>
              (r.Failure? <==> s.relType.None? && s.side == Some(if kind == OneToManyTest then Model.LEFT else Model.RIGHT))
  {
    match kind
    case OneToOneTest =>
      if s.relType.None? then Failure(Error(Fatal, RelationshipUnset)) else Success(s.relType.value == Model.ONE_TO_ONE)
    case ManyToManyTest =>
      if s.relType.None? then Failure(Error(Fatal, RelationshipUnset)) else Success(s.relType.value == Model.MANY_TO_MANY)
    case OneToManyTest =>
      if s.side != Some(Model.LEFT) then Success(false)
      else if s.relType.None? then Failure(Error(Fatal, RelationshipUnset))
      else Success(s.relType.value == Model.ONE_TO_MANY)
    case ManyToOneTest =>
      if s.side != Some(Model.RIGHT) then Success(false)
      else if s.relType.None? then Failure(Error(Fatal, RelationshipUnset))
      else Success(s.relType.value == Model.ONE_TO_MANY)
  }

  /** One-to-many and many-to-one never hold of the same side. */
  lemma OneToManyExcludesManyToOne(s: SideView)
    ensures !(SideTest(OneToManyTest, s) == Success(true) && SideTest(ManyToOneTest, s) == Success(true))
  {
  }

  /** The relation a Field, a Data or a RelationshipSide stands for. */
  function RelationOf(obj: Mixed): Option<SideView>
  {
    match obj
    case FieldObj(f) => f.relation
    case DataObj(d) => d.field.relation
    case SideObj(s) => Some(s)
    case _ => None
  }

  /** The relations up to the first that passes or throws, checked in order. */
  function AnyRelation(kind: RelationKind, rels: seq<SideView>): (r: Result<bool>)
    decreases |rels|
  {
    if rels == [] then Success(false)
    else
      match SideTest(kind, rels[0])
      case Failure(e) => Failure(e)
      case Success(b) => if b then Success(true) else AnyRelation(kind, rels[1..])
  }

  /**
   * A model fails the test exactly when each of its relations fails it; it passes only when
   * one of them passes, and, when no relation throws, whenever one of them passes.
   */
  lemma {:induction false} AnyRelationMeans(kind: RelationKind, rels: seq<SideView>)
    ensures AnyRelation(kind, rels) == Success(false) <==>
              forall j :: 0 <= j < |rels| ==> SideTest(kind, rels[j]) == Success(false)
    ensures AnyRelation(kind, rels) == Success(true) ==>
              exists i :: 0 <= i < |rels| && SideTest(kind, rels[i]) == Success(true)
    ensures (forall j :: 0 <= j < |rels| ==> SideTest(kind, rels[j]).Success?) ==>
              (AnyRelation(kind, rels) == Success(true) <==>
               exists i :: 0 <= i < |rels| && SideTest(kind, rels[i]) == Success(true))
    decreases |rels|
  {
    if rels != [] {
      var tail := rels[1..];
      AnyRelationMeans(kind, tail);
      assert forall j :: 0 <= j < |tail| ==> tail[j] == rels[j + 1];
      if SideTest(kind, rels[0]) == Success(false) {
        assert AnyRelation(kind, rels) == AnyRelation(kind, tail);
        if exists i :: 0 <= i < |rels| && SideTest(kind, rels[i]) == Success(true) {
          var i :| 0 <= i < |rels| && SideTest(kind, rels[i]) == Success(true);
          assert SideTest(kind, tail[i - 1]) == Success(true);
        }
        if AnyRelation(kind, tail) == Success(true) {
          var i :| 0 <= i < |tail| && SideTest(kind, tail[i]) == Success(true);
          assert SideTest(kind, rels[i + 1]) == Success(true);
        }
        if forall j :: 0 <= j < |tail| ==> SideTest(kind, tail[j]) == Success(false) {
          forall j | 0 <= j < |rels| ensures SideTest(kind, rels[j]) == Success(false) {
            if j > 0 { assert rels[j] == tail[j - 1]; }
          }
        }
      }
    }
  }

  /**
   * `oneToOneTest`, `oneToManyTest`, `manyToOneTest`, `manyToManyTest`: a BusinessModel is
   * checked through its relations; a Field, a Data or a RelationshipSide through its relation;
   * anything else is false.
   */
  function RelationTest(kind: RelationKind, obj: Mixed): (r: Result<bool>)
  {
    if obj.ModelObj? then AnyRelation(kind, Relations(obj.model.fields))
    else match RelationOf(obj)
      case None => Success(false)
      case Some(s) => SideTest(kind, s)
  }

  /**
   * The tests as the extension runs them: the loop over a model's relations returns at the
   * first that passes; after it, the side last visited is checked again, which cannot change
   * a false result.
   */
  method RunRelationTest(kind: RelationKind, obj: Mixed) returns (r: Result<bool>)
    ensures r == RelationTest(kind, obj)
  {
    var result := Success(false);
    var relation: Option<SideView> := None;
    if obj.ModelObj? {
      var relations := Relations(obj.model.fields);
      var i := 0;
      while i < |relations|
        invariant 0 <= i <= |relations|
        invariant AnyRelation(kind, relations) == AnyRelation(kind, relations[i..])
        invariant i == 0 ==> relation == None && result == Success(false)
        invariant i > 0 ==> relation == Some(relations[i - 1]) && SideTest(kind, relations[i - 1]) == Success(false)
      {
        relation := Some(relations[i]);
        result := SideTest(kind, relations[i]);
        if result.Failure? || result == Success(true) {
          assert relations[i..][0] == relations[i];
          return result;
        }
        assert relations[i..][1..] == relations[i + 1..];
        i := i + 1;
      }
      assert relations[i..] == [];
    } else {
      relation := RelationOf(obj);
    }
    if relation.Some? {
      result := SideTest(kind, relation.value);
    }
    r := result;
  }

  // ---- parameter lists ----

  /**
   * One parameter: the type the extension's typeFilter gives `typed`, a space, and the name
   * its variableFilter gives `named`.
   */
  function Parameter(typeOf: (Mixed, bool) -> Result<string>, nameOf: Mixed -> Result<string>,
                     typed: Mixed, named: Mixed, mandatory: bool): Result<string>
  {
    var t :- typeOf(typed, mandatory);
    var n :- nameOf(named);
    Success(t + " " + n)
  }

  /** A parameter fails with the type's error first, then the name's; otherwise it is both, spaced. */
  lemma ParameterCases(typeOf: (Mixed, bool) -> Result<string>, nameOf: Mixed -> Result<string>,
                       typed: Mixed, named: Mixed, mandatory: bool, r: Result<string>)
    requires r == Parameter(typeOf, nameOf, typed, named, mandatory)
    ensures typeOf(typed, mandatory).Failure? ==> r == Failure(typeOf(typed, mandatory).error)
    ensures typeOf(typed, mandatory).Success? && nameOf(named).Failure? ==> r == Failure(nameOf(named).error)
    ensures r.Success? ==>
              typeOf(typed, mandatory).Success? && nameOf(named).Success? &&
              r.value == typeOf(typed, mandatory).value + " " + nameOf(named).value
  {
  }

  /** The parameters of an array: each item's parameter, joined by ', '; the first failure stops it. */
  function Parameters(typeOf: (Mixed, bool) -> Result<string>, nameOf: Mixed -> Result<string>,
                      items: seq<Mixed>, mandatory: bool): (r: Result<seq<string>>)
    ensures r.Success? ==> |r.value| == |items|
    ensures r.Success? ==> forall i :: 0 <= i < |items| ==>
              Parameter(typeOf, nameOf, items[i], items[i], mandatory) == Success(r.value[i])
  {
    if items == [] then Success([])
    else
      var init :- Parameters(typeOf, nameOf, items[..|items| - 1], mandatory);
      var last :- Parameter(typeOf, nameOf, items[|items| - 1], items[|items| - 1], mandatory);
      assert forall i :: 0 <= i < |items| - 1 ==> items[..|items| - 1][i] == items[i];
      Success(init + [last])
  }

  /**
   * `parameterFilter`: an array gives its items' parameters separated by ', '; a Field or a
   * Data gives its own; anything else ''. The extension passes its own (possibly
   * overriding) type and variable filters.
   */
  function ParameterList(typeOf: (Mixed, bool) -> Result<string>, nameOf: Mixed -> Result<string>,
                         obj: Mixed, mandatory: bool): (r: Result<string>)
  {
    match obj
    case Items(items) =>
      var ps :- Parameters(typeOf, nameOf, items, mandatory);
      Success(Join(ps, ", "))
    case FieldObj(_) => Parameter(typeOf, nameOf, obj, obj, mandatory)
    case DataObj(d) => Parameter(typeOf, nameOf, FieldObj(d.field), obj, mandatory)
    case _ => Success("")
  }

  /**
   * A Data given alone is typed by its field, so an EventData's own mandatory flag does not
   * reach the type filter; inside an array the Data itself is typed.
   */
  lemma DataParameterTypedByField(typeOf: (Mixed, bool) -> Result<string>, nameOf: Mixed -> Result<string>,
                                  d: DataView, mandatory: bool)
    ensures ParameterList(typeOf, nameOf, DataObj(d), mandatory)
            == Parameter(typeOf, nameOf, FieldObj(d.field), DataObj(d), mandatory)
    ensures ParameterList(typeOf, nameOf, Items([DataObj(d)]), mandatory)
            == Parameter(typeOf, nameOf, DataObj(d), DataObj(d), mandatory)
  {
    var p := Parameter(typeOf, nameOf, DataObj(d), DataObj(d), mandatory);
    var items := [DataObj(d)];
    assert items[..|items| - 1] == [] && items[|items| - 1] == DataObj(d);
    assert Parameters(typeOf, nameOf, [], mandatory) == Success([]);
    if p.Success? {
      assert Parameters(typeOf, nameOf, items, mandatory) == Success([] + [p.value]);
    }
  }

  /** Every parameter holds a space, so the loop's emptiness test separates exactly the later ones. */
  lemma ParameterNotEmpty(typeOf: (Mixed, bool) -> Result<string>, nameOf: Mixed -> Result<string>,
                          typed: Mixed, named: Mixed, mandatory: bool)
    requires Parameter(typeOf, nameOf, typed, named, mandatory).Success?
    ensures !IsEmpty(Parameter(typeOf, nameOf, typed, named, mandatory).value)
  {
    var t := typeOf(typed, mandatory).value;
    var p := Parameter(typeOf, nameOf, typed, named, mandatory).value;
    assert p[|t|] == ' ';
  }

  /** The parameters of one more item. */
  lemma ParametersSnoc(typeOf: (Mixed, bool) -> Result<string>, nameOf: Mixed -> Result<string>,
                       items: seq<Mixed>, mandatory: bool, i: nat)
    requires i < |items| && Parameters(typeOf, nameOf, items[..i], mandatory).Success?
    requires Parameter(typeOf, nameOf, items[i], items[i], mandatory).Success?
    ensures Parameters(typeOf, nameOf, items[..i + 1], mandatory)
            == Success(Parameters(typeOf, nameOf, items[..i], mandatory).value + [Parameter(typeOf, nameOf, items[i], items[i], mandatory).value])
  {
    assert items[..i + 1][..i] == items[..i];
  }

  /** The loop of parameterFilter: ', ' goes before a parameter once the text is no longer empty. */
  method RunParameterList(typeOf: (Mixed, bool) -> Result<string>, nameOf: Mixed -> Result<string>,
                          obj: Mixed, mandatory: bool) returns (r: Result<string>)
    ensures r == ParameterList(typeOf, nameOf, obj, mandatory)
  {
    match obj
    case Items(items) =>
      r := RunJoinedParameters(typeOf, nameOf, items, mandatory);
    case _ =>
      r := ParameterList(typeOf, nameOf, obj, mandatory);
  }

  /** The loop itself, over the items of an array. */
  method RunJoinedParameters(typeOf: (Mixed, bool) -> Result<string>, nameOf: Mixed -> Result<string>,
                             items: seq<Mixed>, mandatory: bool) returns (r: Result<string>)
    ensures Parameters(typeOf, nameOf, items, mandatory).Failure? ==>
              r == Failure(Parameters(typeOf, nameOf, items, mandatory).error)
    ensures Parameters(typeOf, nameOf, items, mandatory).Success? ==>
              r == Success(Join(Parameters(typeOf, nameOf, items, mandatory).value, ", "))
  {
    assert Parameters(typeOf, nameOf, items[..0], mandatory) == Success([]);
    assert Join([], ", ") == "";
    hide Parameter, Parameters, Join;
    var params := "";
    var i := 0;
    ghost var ps: seq<string> := [];
    while i < |items|
      invariant 0 <= i <= |items|
      invariant Parameters(typeOf, nameOf, items[..i], mandatory) == Success(ps)
      invariant params == Join(ps, ", ")
      invariant ps == [] <==> params == ""
      invariant ps != [] ==> !IsEmpty(params)
    {
      var p := Parameter(typeOf, nameOf, items[i], items[i], mandatory);
      if p.Failure? {
        ParametersFailAt(typeOf, nameOf, items, mandatory, i);
        return Failure(p.error);
      }
      ParameterNotEmpty(typeOf, nameOf, items[i], items[i], mandatory);
      ParametersSnoc(typeOf, nameOf, items, mandatory, i);
      JoinedParameter(ps, params, p.value);
      if !IsEmpty(params) {
        params := params + ", ";
      }
      params := params + p.value;
      ps := ps + [p.value];
      i := i + 1;
    }
    assert items[..i] == items;
    r := Success(params);
  }

  /** One more parameter, after ', ' unless the text so far is empty. */
  lemma JoinedParameter(ps: seq<string>, params: string, p: string)
    requires params == Join(ps, ", ") && (ps == [] <==> params == "") && (ps != [] ==> !IsEmpty(params))
    requires !IsEmpty(p)
    ensures (if !IsEmpty(params) then params + ", " else params) + p == Join(ps + [p], ", ")
    ensures !IsEmpty((if !IsEmpty(params) then params + ", " else params) + p)
  {
    JoinSnoc(ps, p, ", ");
    hide Join;
    if ps == [] {
      assert params + p == p;
    }
  }

  /** A failing item makes the whole list fail with the first failure. */
  lemma {:induction false} ParametersFailAt(typeOf: (Mixed, bool) -> Result<string>, nameOf: Mixed -> Result<string>,
                                            items: seq<Mixed>, mandatory: bool, i: nat)
    requires i < |items| && Parameters(typeOf, nameOf, items[..i], mandatory).Success?
    requires Parameter(typeOf, nameOf, items[i], items[i], mandatory).Failure?
    ensures Parameters(typeOf, nameOf, items, mandatory) == Failure(Parameter(typeOf, nameOf, items[i], items[i], mandatory).error)
    decreases |items|
  {
    if i + 1 < |items| {
      var init := items[..|items| - 1];
      assert init[..i] == items[..i] && init[i] == items[i];
      ParametersFailAt(typeOf, nameOf, init, mandatory, i);
    } else {
      assert items[..|items| - 1] == items[..i];
    }
  }
}
