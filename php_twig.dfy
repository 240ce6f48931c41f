/**
 * The PHP flavour of the Twig filters (src/Twig/PhpTwigExtension.php): `$` variables,
 * `$this->` members, namespaces, PHP 7 type declarations and docblock hints, and the
 * `dateTimeUsed` test.
 */
module PhpTwig {
  import opened Wrappers
  import opened PhpStrings
  import opened PhpValues
  import opened FieldHelper
  import opened Inflection
  import opened TwigValues
  import opened LanguageTwig

  // ---- names ----

  /**
   * What a filter declared `: string` returns when it hands back getName's result: a scalar
   * is converted, null and anything that is not a scalar are a TypeError.
   */
  function ReturnedName(obj: Mixed): (r: Result<string>)
    ensures GetName(obj).Scalar? && GetName(obj).v.VString? ==> r == Success(GetName(obj).v.s)
    ensures GetName(obj) == Scalar(VNull) || !GetName(obj).Scalar? ==> r.Failure?
  {
    var name := GetName(obj);
    if name == Scalar(VNull) then Failure(Error(Fatal, StringGotNull))
    else if name.Scalar? then StringOf(name.v)
    else Failure(Error(Fatal, "Return value must be of type string, " + ClassName(name) + " returned"))
  }

  predicate NonEmptyName(obj: Mixed)
  {
    var n := GetName(obj); n.Scalar? && n.v.VString? && !IsEmpty(n.v.s)
  }

  /** `variableFilter`: '$' before the camel-cased name; an empty name is returned as it is. */
  function Variable(inf: Inflector, obj: Mixed): (r: Result<string>)
    ensures NonEmptyName(obj) ==> r == Success("$" + inf.camelize(GetName(obj).v.s))
    ensures !NonEmptyName(obj) ==> r == ReturnedName(obj)
  {
    if NonEmptyName(obj) then Success("$" + LanguageTwig.Variable(inf, obj).value)
    else ReturnedName(obj)
  }

  /** `memberFilter`: '$this->' before the camel-cased name; an empty name is returned as it is. */
  function Member(inf: Inflector, obj: Mixed): (r: Result<string>)
    ensures NonEmptyName(obj) ==> r == Success("$this->" + inf.camelize(GetName(obj).v.s))
    ensures !NonEmptyName(obj) ==> r == ReturnedName(obj)
  {
    if NonEmptyName(obj) then Success("$this->" + LanguageTwig.Variable(inf, obj).value)
    else ReturnedName(obj)
  }

  /** A member is the variable with `this->` after its '$'. */
  lemma MemberIsThisVariable(inf: Inflector, obj: Mixed)
    requires NonEmptyName(obj)
    ensures Member(inf, obj).Success? && Variable(inf, obj).Success?
    ensures Member(inf, obj).value == "$this->" + Variable(inf, obj).value[1..]
  {
  }

  // ---- namespaces ----

  const NamespaceSeparators: set<char> := {'.', '/', ' '}

  /**
   * The text namespaceFilter maps: the bundle's namespace or the string, then '\' and the
   * subpackage argument when it is given and not empty, or else '\' and the context's
   * subpackage when that is not empty.
   */
  function NamespaceText(ctx: Context, obj: Mixed, subpackage: Option<string>): (r: Result<string>)
    ensures subpackage.Some? ==> r == Success(if IsEmpty(subpackage.value) then PathSource(obj)
                                             else PathSource(obj) + "\\" + subpackage.value)
    ensures subpackage.None? && !Truthy(ctx.subpackage) ==> r == Success(PathSource(obj))
    ensures subpackage.None? && Truthy(ctx.subpackage) && StringOf(ctx.subpackage).Success? ==>
              r == Success(PathSource(obj) + "\\" + StringOf(ctx.subpackage).value)
  {
    var str := PathSource(obj);
    if subpackage.Some? then
      Success(if !IsEmpty(subpackage.value) then str + "\\" + subpackage.value else str)
    else if Truthy(ctx.subpackage) then
      var sub :- StringOf(ctx.subpackage);
      Success(str + "\\" + sub)
    else Success(str)
  }

  /** `namespaceFilter`: dots, slashes and spaces become backslashes; empty text gives ''. */
  function Namespace(ctx: Context, obj: Mixed, subpackage: Option<string>): (r: Result<string>)
    ensures r.Success? <==> NamespaceText(ctx, obj, subpackage).Success?
    ensures r.Success? ==> (IsEmpty(NamespaceText(ctx, obj, subpackage).value) <==> r.value == "")
    ensures r.Success? && r.value != "" ==> |r.value| == |NamespaceText(ctx, obj, subpackage).value|
    ensures r.Success? ==> forall i :: 0 <= i < |r.value| ==> r.value[i] !in NamespaceSeparators
  {
    var str :- NamespaceText(ctx, obj, subpackage);
    Success(if !IsEmpty(str) then MapChars(str, NamespaceSeparators, '\\') else "")
  }

  /**
   * Without a subpackage, a namespace is the bundle's path with backslashes for slashes:
   * both filters cut the same text at the same places.
   */
  lemma NamespaceMatchesPath(ctx: Context, obj: Mixed)
    requires !Truthy(ctx.subpackage)
    ensures Namespace(ctx, obj, None).Success?
    ensures MapChars(Namespace(ctx, obj, None).value, {'\\'}, '/') == Path(obj)
  {
    var s := PathSource(obj);
    if !IsEmpty(s) {
      var ns := MapChars(s, NamespaceSeparators, '\\');
      assert Namespace(ctx, obj, None).value == ns;
      assert Path(obj) == MapChars(s, PathSeparators, '/');
    }
  }

  // ---- types ----

  /** The PHP type of each family (OtherClass is never looked up). */
  function PhpTable(c: TypeClass): string
  {
    match c
    case BooleanClass => "bool"
    case DateClass => "DateTimeInterface"
    case TimeClass => "DateTimeInterface"
    case DateTimeClass => "DateTimeInterface"
    case IntegerClass => "int"
    case LongClass => "int"
    case FloatClass => "float"
    case PriceClass => "float"
    case DoubleClass => "double"
    case StringClass => "string"
    case OtherClass => "string"
  }

  /** `listTypeFilter`: the PHP type of a Field's or a Data's field; 'string' for anything else. */
  function ListType(ctx: Context, obj: Mixed): (r: string)
    ensures Subject(obj, false).0.None? ==> r == "string"
    ensures Subject(obj, false).0.Some? ==>
              var f := Subject(obj, false).0.value.attrs;
              (ClassOf(f.fieldType) != OtherClass ==> r == PhpTable(ClassOf(f.fieldType)))
              && (ClassOf(f.fieldType) == OtherClass && !(ctx.package.Some? && InModels(f, ctx.package.value)) ==> r == "string")
  {
    match Subject(obj, false).0
    case None => "string"
    case Some(f) => ScalarName(PhpTable, ctx, f.attrs)
  }

  /**
   * `typeFilter`: the type of a PHP 7 declaration. A list is an 'array'; a field that is
   * neither mandatory in context nor mandatory itself is nullable ('?').
   */
  function Type(ctx: Context, obj: Mixed, mandatory: bool): (r: string)
    ensures Subject(obj, mandatory).0.None? ==> r == "string"
    ensures Subject(obj, mandatory).0.Some? ==>
              var (f, m) := (Subject(obj, mandatory).0.value.attrs, Subject(obj, mandatory).1);
              var base := if f.list then "array" else ScalarName(PhpTable, ctx, f);
              r == if !m && !f.mandatory then "?" + base else base
  {
    var (field, m) := Subject(obj, mandatory);
    match field
    case None => "string"
    case Some(fv) =>
      var f := fv.attrs;
      var t := if f.list then "array" else ScalarName(PhpTable, ctx, f);
      if !m && !f.mandatory then "?" + t else t
  }

  /**
   * `hintFilter`: the type of a docblock. A list adds '[]' to its element type; an optional
   * field adds '|null'.
   */
  function Hint(ctx: Context, obj: Mixed, mandatory: bool): (r: string)
    ensures Subject(obj, mandatory).0.None? ==> r == "string"
    ensures Subject(obj, mandatory).0.Some? ==>
              var (f, m) := (Subject(obj, mandatory).0.value.attrs, Subject(obj, mandatory).1);
              var base := ScalarName(PhpTable, ctx, f) + (if f.list then "[]" else "");
              r == if !m && !f.mandatory then base + "|null" else base
  {
    var (field, m) := Subject(obj, mandatory);
    match field
    case None => "string"
    case Some(fv) =>
      var f := fv.attrs;
      var t := ScalarName(PhpTable, ctx, f);
      var t' := if f.list then t + "[]" else t;
      if !m && !f.mandatory then t' + "|null" else t'
  }

  /**
   * The declaration and the docblock agree: off lists, an optional field's type is '?' and
   * its hint without '|null', and a mandatory field's hint is its type; on lists, the
   * declaration is an array and the hint is the list type filter's element type with '[]'.
   */
  lemma TypeAndHintAgree(ctx: Context, obj: Mixed, mandatory: bool)
    requires Subject(obj, mandatory).0.Some?
    ensures var (f, m) := (Subject(obj, mandatory).0.value.attrs, Subject(obj, mandatory).1);
            var t := Type(ctx, obj, mandatory);
            var h := Hint(ctx, obj, mandatory);
            var optional := !m && !f.mandatory;
            && (!f.list && optional ==> |h| >= 5 && t == "?" + h[..|h| - 5] && h[|h| - 5..] == "|null")
            && (!f.list && !optional ==> h == t)
            && (f.list ==> t == (if optional then "?array" else "array")
                           && h == ListType(ctx, obj) + "[]" + (if optional then "|null" else ""))
  {
    var (field, m) := Subject(obj, mandatory);
    var f := field.value.attrs;
    assert ListType(ctx, obj) == ScalarName(PhpTable, ctx, f);
  }

  /**
   * The inherited parameterFilter calls the PHP type and variable filters: a Field becomes
   * its PHP declaration type, a space and its '$' variable.
   */
  lemma ParameterOfField(inf: Inflector, ctx: Context, f: FieldView, mandatory: bool)
    requires f.attrs.name != "" && f.attrs.name != "0"
    ensures ParameterList(TypeFilter(ctx), VariableFilter(inf), FieldObj(f), mandatory)
            == Success(Type(ctx, FieldObj(f), mandatory) + " $" + inf.camelize(f.attrs.name))
  {
    var (tf, vf, o) := (TypeFilter(ctx), VariableFilter(inf), FieldObj(f));
    assert NonEmptyName(o);
    var t := Type(ctx, o, mandatory);
    var v := "$" + inf.camelize(f.attrs.name);
    assert tf(o, mandatory) == Success(t);
    assert vf(o) == Success(v);
    assert Parameter(tf, vf, o, o, mandatory) == Success(t + " " + v);
    assert t + " " + v == t + " $" + inf.camelize(f.attrs.name);
  }

  /** The type filter and the variable filter parameterFilter calls on this extension. */
  function TypeFilter(ctx: Context): (Mixed, bool) -> Result<string>
  {
    (o, m) => Success(Type(ctx, o, m))
  }

  function VariableFilter(inf: Inflector): Mixed -> Result<string>
  {
    o => Variable(inf, o)
  }

  // ---- dateTimeUsed ----

  /** A field of the date, time or date-time families. */
  predicate Temporal(f: FieldAttrs)
  {
    ClassOf(f.fieldType) in {DateClass, TimeClass, DateTimeClass}
  }

  const DateTimeUsedUnsupported := "dateTimeUsed() PHP filter only support BusinessModel and Event"

  /**
   * `dateTimeUsed`: whether a BusinessModel's fields, or the fields of the data EventHelper
   * names for an Event (`namedData`, which EventHelper may fail to give), include a date,
   * time or date-time; anything else is refused.
   */
  function DateTimeUsed(obj: Mixed, namedData: Result<seq<FieldAttrs>>): (r: Result<bool>)
    ensures !obj.ModelObj? && !(obj.NamedObj? && obj.kind == EventKind) ==> r == Failure(Error(InvalidArgument, DateTimeUsedUnsupported))
    ensures obj.ModelObj? ==> r == Success(exists i :: 0 <= i < |obj.model.fields| && Temporal(obj.model.fields[i].attrs))
    ensures obj.NamedObj? && obj.kind == EventKind ==>
              r == (if namedData.Failure? then Failure(namedData.error)
                    else Success(exists i :: 0 <= i < |namedData.value| && Temporal(namedData.value[i])))
  {
    if obj.ModelObj? then Success(exists i :: 0 <= i < |obj.model.fields| && Temporal(obj.model.fields[i].attrs))
    else if obj.NamedObj? && obj.kind == EventKind then
      var fields :- namedData;
      Success(exists i :: 0 <= i < |fields| && Temporal(fields[i]))
    else Failure(Error(InvalidArgument, DateTimeUsedUnsupported))
  }

  /** The test as the extension runs it: a model's fields, or the event's named data, are searched. */
  method RunDateTimeUsed(obj: Mixed, namedData: Result<seq<FieldAttrs>>) returns (r: Result<bool>)
    ensures r == DateTimeUsed(obj, namedData)
  {
    if obj.ModelObj? {
      var fields := AttrsOf(obj.model.fields);
      var found := AnyTemporal(fields);
      r := Success(found);
    } else if obj.NamedObj? && obj.kind == EventKind {
      if namedData.Failure? {
        return Failure(namedData.error);
      }
      var found := AnyTemporal(namedData.value);
      r := Success(found);
    } else {
      r := Failure(Error(InvalidArgument, DateTimeUsedUnsupported));
    }
  }

  /** The loop of dateTimeUsed: it stops at the first date, time or date-time field. */
  method AnyTemporal(fields: seq<FieldAttrs>) returns (found: bool)
    ensures found <==> exists j :: 0 <= j < |fields| && Temporal(fields[j])
  {
    found := false;
    var i := 0;
    while i < |fields|
      invariant 0 <= i <= |fields|
      invariant forall j :: 0 <= j < i ==> !Temporal(fields[j])
      invariant !found
    {
      TemporalPredicatesMatchClasses(fields[i]);
      if IsDateTime(fields[i]) || IsDate(fields[i]) || IsTime(fields[i]) {
        found := true;
        break;
      }
      i := i + 1;
    }
  }

  function AttrsOf(fs: seq<FieldView>): (r: seq<FieldAttrs>)
    ensures |r| == |fs| && forall i :: 0 <= i < |fs| ==> r[i] == fs[i].attrs
  {
    if fs == [] then [] else [fs[0].attrs] + AttrsOf(fs[1..])
  }
}
