/**
 * The Java flavour of the Twig filters (src/Twig/JavaTwigExtension.php): `this.` members,
 * lower-case dotted packages, Java field types and the boxed types of list elements.
 */
module JavaTwig {
  import opened Wrappers
  import opened PhpStrings
  import opened PhpValues
  import opened FieldHelper
  import opened Inflection
  import opened TwigValues
  import opened LanguageTwig

  /** `memberFilter`: 'this.' and the singular of the camel-cased name; an empty name as it is. */
  function Member(inf: Inflector, obj: Mixed): (r: Mixed)
    ensures var n := GetName(obj);
            n.Scalar? && n.v.VString? && !IsEmpty(n.v.s) ==> r == Str("this." + inf.singularize(inf.camelize(n.v.s)))
    ensures var n := GetName(obj);
            !(n.Scalar? && n.v.VString? && !IsEmpty(n.v.s)) ==> r == n
  {
    var name := GetName(obj);
    if name.Scalar? && name.v.VString? && !IsEmpty(name.v.s) then
      Str("this." + inf.singularize(inf.camelize(name.v.s)))
    else name
  }

  const PackageSeparators: set<char> := {'\\', '/', ' '}

  /** `packageFilter`: lower case, with backslashes, slashes and spaces as dots; empty text gives ''. */
  function Package(obj: Mixed): (r: string)
    ensures IsEmpty(PathSource(obj)) <==> r == ""
    ensures r != "" ==> |r| == |PathSource(obj)|
    ensures forall i :: 0 <= i < |r| ==> r[i] !in PackageSeparators && !('A' <= r[i] <= 'Z')
  {
    var s := PathSource(obj);
    if !IsEmpty(s) then MapChars(Lower(s), PackageSeparators, '.') else ""
  }

  /**
   * A package and a path cut the same text at the same places: with its dots as slashes, a
   * package is the path in lower case.
   */
  lemma PackageMatchesPath(obj: Mixed)
    ensures MapChars(Package(obj), {'.'}, '/') == Lower(Path(obj))
  {
    var s := PathSource(obj);
    if !IsEmpty(s) {
      assert Package(obj) == MapChars(Lower(s), PackageSeparators, '.');
      assert Path(obj) == MapChars(s, PathSeparators, '/');
      hide Package, Path;
      PackageMatchesPathText(s);
    }
  }

  lemma PackageMatchesPathText(s: string)
    ensures MapChars(MapChars(Lower(s), PackageSeparators, '.'), {'.'}, '/') == Lower(MapChars(s, PathSeparators, '/'))
  {
    hide MapChars, Lower;
    var l := MapChars(MapChars(Lower(s), PackageSeparators, '.'), {'.'}, '/');
    var m := Lower(MapChars(s, PathSeparators, '/'));
    forall i | 0 <= i < |s|
      ensures l[i] == m[i]
    {
      SeparatorsAgree(s[i]);
    }
  }

  /** One character through both mappings. */
  lemma SeparatorsAgree(c: char)
    ensures var p := if LowerChar(c) in PackageSeparators then '.' else LowerChar(c);
            var q := if c in PathSeparators then '/' else c;
            (if p in {'.'} then '/' else p) == LowerChar(q)
  {
  }

  /** The Java type of each family in a field declaration (OtherClass is never looked up). */
  function JavaTable(c: TypeClass): string
  {
    match c
    case BooleanClass => "boolean"
    case DateClass => "Date"
    case TimeClass => "long"
    case DateTimeClass => "Date"
    case IntegerClass => "int"
    case LongClass => "long"
    case FloatClass => "float"
    case PriceClass => "double"
    case DoubleClass => "double"
    case StringClass => "String"
    case OtherClass => "Object"
  }

  /** The boxed Java type of each family, as a type argument needs it. */
  function BoxedTable(c: TypeClass): string
  {
    match c
    case BooleanClass => "Boolean"
    case DateClass => "Date"
    case TimeClass => "Long"
    case DateTimeClass => "Date"
    case IntegerClass => "Integer"
    case LongClass => "Long"
    case FloatClass => "Float"
    case PriceClass => "Double"
    case DoubleClass => "Double"
    case StringClass => "String"
    case OtherClass => "Object"
  }

  /**
   * The Java chain of type tests: a family names the type through `table`; failing all of
   * them, a model or a data set of the context's package is named by its type; anything
   * else is an 'Object'.
   */
  function JavaScalar(table: TypeClass -> string, ctx: Context, f: FieldAttrs): (r: string)
    ensures ClassOf(f.fieldType) != OtherClass ==> r == table(ClassOf(f.fieldType))
    ensures ClassOf(f.fieldType) == OtherClass ==>
              r == if ctx.package.Some? && (InModels(f, ctx.package.value) || InDatasets(f, ctx.package.value))
                   then f.fieldType else "Object"
  {
    TemporalPredicatesMatchClasses(f);
    NumericPredicatesMatchClasses(f);
    StringPredicateMatchesClass(f);
    if IsBoolean(f) then table(BooleanClass)
    else if IsDate(f) then table(DateClass)
    else if IsTime(f) then table(TimeClass)
    else if IsDateTime(f) then table(DateTimeClass)
    else if IsInteger(f) then table(IntegerClass)
    else if IsLong(f) then table(LongClass)
    else if IsFloat(f) then table(FloatClass)
    else if IsPrice(f) then table(PriceClass)
    else if IsDouble(f) then table(DoubleClass)
    else if IsString(f) then table(StringClass)
    else if ctx.package.Some? && InModels(f, ctx.package.value) then f.fieldType
    else if ctx.package.Some? && InDatasets(f, ctx.package.value) then f.fieldType
    else "Object"
  }

  /** `listTypeFilter`: the boxed type of a Field's or a Data's field; 'Object' for anything else. */
  function ListType(ctx: Context, obj: Mixed): (r: string)
    ensures Subject(obj, false).0.None? ==> r == "Object"
    ensures Subject(obj, false).0.Some? ==> r == JavaScalar(BoxedTable, ctx, Subject(obj, false).0.value.attrs)
  {
    match Subject(obj, false).0
    case None => "Object"
    case Some(f) => JavaScalar(BoxedTable, ctx, f.attrs)
  }

  /**
   * `typeFilter` as written: the declared type, wrapped in 'List<...>' for a list, so a
   * list of a primitive family names the primitive. Optionality is not shown. Asking
   * anything but a Field or a Data whether it is a list is an error.
   */
  function Type(ctx: Context, obj: Mixed, mandatory: bool): (r: Result<string>)
    ensures Subject(obj, mandatory).0.None? ==> r == Failure(CallError(obj, "isList"))
    ensures Subject(obj, mandatory).0.Some? ==>
              var f := Subject(obj, mandatory).0.value.attrs;
              r == Success(if f.list then "List<" + JavaScalar(JavaTable, ctx, f) + ">" else JavaScalar(JavaTable, ctx, f))
  {
    match Subject(obj, mandatory).0
    case None => Failure(CallError(obj, "isList"))
    case Some(fv) =>
      var t := JavaScalar(JavaTable, ctx, fv.attrs);
      Success(if fv.attrs.list then "List<" + t + ">" else t)
  }

  const Primitives: set<string> := {"boolean", "int", "long", "float", "double"}

  /** An integer list is declared 'List<int>', which Java does not accept. */
  lemma IntListIsPrimitive(ctx: Context, f: FieldView, mandatory: bool)
    requires f.attrs.fieldType == "int" && f.attrs.list
    ensures Type(ctx, FieldObj(f), mandatory) == Success("List<int>")
  {
    IntScalarIsPrimitive(ctx, f.attrs);
    assert Subject(FieldObj(f), mandatory).0 == Some(f);
    assert "List<" + "int" + ">" == "List<int>";
  }

  lemma IntScalarIsPrimitive(ctx: Context, f: FieldAttrs)
    requires f.fieldType == "int"
    ensures JavaScalar(JavaTable, ctx, f) == "int"
  {
    hide ClassOf, ClassOfLower, Lower, JavaScalar;
    PrimitivesClassified();
  }

  /** Each primitive type name is the name of a family, so no model is named by one. */
  lemma PrimitivesClassified()
    ensures ClassOf("boolean") == BooleanClass && ClassOf("int") == IntegerClass && ClassOf("long") == LongClass
    ensures ClassOf("float") == FloatClass && ClassOf("double") == DoubleClass
  {
    hide Lower;
    LowerOfLowerCase("boolean");
    LowerOfLowerCase("int");
    LowerOfLowerCase("long");
    LowerOfLowerCase("float");
    LowerOfLowerCase("double");
  }

  /** The element type a list is declared with: boxed, as listTypeFilter gives it. */
  function CorrectedType(ctx: Context, obj: Mixed, mandatory: bool): (r: Result<string>)
    ensures Subject(obj, mandatory).0.None? ==> r == Failure(CallError(obj, "isList"))
    ensures Subject(obj, mandatory).0.Some? && !Subject(obj, mandatory).0.value.attrs.list ==>
              r == Type(ctx, obj, mandatory)
    ensures Subject(obj, mandatory).0.Some? && Subject(obj, mandatory).0.value.attrs.list ==>
              r == Success("List<" + ListType(ctx, obj) + ">")
  {
    match Subject(obj, mandatory).0
    case None => Failure(CallError(obj, "isList"))
    case Some(fv) =>
      if fv.attrs.list then Success("List<" + JavaScalar(BoxedTable, ctx, fv.attrs) + ">")
      else Success(JavaScalar(JavaTable, ctx, fv.attrs))
  }

  lemma BoxedNamesAreNotPrimitive(c: TypeClass)
    ensures BoxedTable(c) !in Primitives
  {
  }

  /**
   * With the correction, no list is declared over a primitive type: the boxed type
   * listTypeFilter gives is never one.
   */
  lemma CorrectedListIsBoxed(ctx: Context, obj: Mixed)
    ensures ListType(ctx, obj) !in Primitives
  {
    if Subject(obj, false).0.Some? {
      BoxedScalarIsNotPrimitive(ctx, Subject(obj, false).0.value.attrs);
    }
  }

  lemma BoxedScalarIsNotPrimitive(ctx: Context, f: FieldAttrs)
    ensures JavaScalar(BoxedTable, ctx, f) !in Primitives
  {
    hide ClassOf, ClassOfLower, Lower, JavaScalar;
    PrimitivesClassified();
    var c := ClassOf(f.fieldType);
    if c != OtherClass {
      BoxedNamesAreNotPrimitive(c);
    } else {
      assert f.fieldType !in Primitives;
    }
  }
}
