/**
 * The Markdown flavour of the Twig filters (src/Twig/MarkdownTwigExtension.php): type names
 * that link to the documentation of models and data sets, the details and model columns of
 * a message's data, and the header and rows of a data set's table.
 */
module MarkdownTwig {
  import opened Wrappers
  import opened PhpStrings
  import opened PhpValues
  import opened OrderedMap
  import opened FieldHelper
  import opened Inflection
  import opened TwigValues
  import DataModel
  import Datasets
  import LanguageTwig

  const NotApplicable := "*N/A*"
  const BundleTypeError := TypeMismatch("CodePrimer\\Helper\\FieldHelper::isBusinessModel", "2", "CodePrimer\\Model\\BusinessBundle")
  const BundleNull := "Call to a member function getBusinessModel() on null"
  const IdentifierNull := "Call to a member function getName() on null"

  /** A link to a class's entry in the Overview page of `folder`, anchored at its name in lower case. */
  function Link(folder: string, className: string): (r: string)
    ensures "[`" + className + "`](../" <= r
  {
    "[`" + className + "`](../" + folder + "/Overview.md#" + Lower(className) + ")"
  }

  /** The anchor of a link never holds an upper-case letter, whatever the class. */
  lemma LinkAnchorIsLowerCase(folder: string, className: string)
    ensures var r := Link(folder, className);
            var anchor := r[|r| - 1 - |className|..|r| - 1];
            anchor == Lower(className) && forall i :: 0 <= i < |anchor| ==> !('A' <= anchor[i] <= 'Z')
  {
    var r := Link(folder, className);
    assert r == ("[`" + className + "`](../" + folder + "/Overview.md#") + Lower(className) + ")";
  }

  // ---------------------------------------------------------------------------------
  // typeFilter

  /**
   * The type of a field's own type name: a model or a data set of the context's bundle is
   * a link to its documentation, any other unknown type stays as it is; a native type is
   * shown as it is, except that bool and int are spelt out. Without a bundle, the model
   * test is a TypeError.
   */
  function ScalarType(inf: Inflector, ctx: Context, f: FieldAttrs): (r: Result<string>)
    ensures IsNativeType(f) ==> r == Success(if f.fieldType == BOOL then BOOLEAN else if f.fieldType == INT then INTEGER else f.fieldType)
    ensures !IsNativeType(f) && ctx.bundle.None? ==> r == Failure(BundleTypeError)
    ensures !IsNativeType(f) && ctx.bundle.Some? && InModels(f, ctx.bundle.value) ==>
              r == Success(Link("DataModel", inf.classify(Get(ctx.bundle.value.models, f.fieldType).value)))
    ensures !IsNativeType(f) && ctx.bundle.Some? && !InModels(f, ctx.bundle.value) && InDatasets(f, ctx.bundle.value) ==>
              r == Success(Link("Dataset", inf.classify(Get(ctx.bundle.value.datasets, f.fieldType).value.name)))
    ensures !IsNativeType(f) && ctx.bundle.Some? && !InModels(f, ctx.bundle.value) && !InDatasets(f, ctx.bundle.value) ==>
              r == Success(f.fieldType)
  {
    var t := f.fieldType;
    if !IsNativeType(f) then
      if ctx.bundle.None? then Failure(BundleTypeError)
      else
        var b := ctx.bundle.value;
        if InModels(f, b) then Success(Link("DataModel", inf.classify(Get(b.models, t).value)))
        else if InDatasets(f, b) then Success(Link("Dataset", inf.classify(Get(b.datasets, t).value.name)))
        else Success(t)
    else if t == BOOL then Success(BOOLEAN)
    else if t == INT then Success(INTEGER)
    else Success(t)
  }

  /** The type of a field: its scalar type, prefixed 'List of ' for a list. */
  function FieldType(inf: Inflector, ctx: Context, f: FieldAttrs): (r: Result<string>)
    ensures r.Success? <==> ScalarType(inf, ctx, f).Success?
    ensures r.Success? && f.list ==> r.value == "List of " + ScalarType(inf, ctx, f).value
    ensures r.Success? && !f.list ==> r.value == ScalarType(inf, ctx, f).value
  {
    var t :- ScalarType(inf, ctx, f);
    Success(if f.list then "List of " + t else t)
  }

  /**
   * `typeFilter`: a DataBundle is a 'Structure' or a 'List' by its layout; a Data has its
   * field's type and a Field its own; anything else has no getType. The mandatory flag
   * changes nothing.
   */
  function Type(inf: Inflector, ctx: Context, obj: Mixed, mandatory: bool): (r: Result<string>)
    ensures obj.DataBundleObj? ==> r == Success(if obj.structure == DataModel.Simple then "Structure" else "List")
    ensures obj.DataObj? ==> r == FieldType(inf, ctx, obj.data.field.attrs)
    ensures obj.FieldObj? ==> r == FieldType(inf, ctx, obj.field.attrs)
    ensures !(obj.DataBundleObj? || obj.DataObj? || obj.FieldObj?) ==> r == Failure(CallError(obj, "getType"))
  {
    match obj
    case DataBundleObj(_, s) => Success(if s.Simple? then "Structure" else "List")
    case DataObj(d) => FieldType(inf, ctx, d.field.attrs)
    case FieldObj(f) => FieldType(inf, ctx, f.attrs)
    case _ => Failure(CallError(obj, "getType"))
  }

  /** A list reads as 'List of ' and the type of the same field as a single value. */
  lemma ListOfElementType(inf: Inflector, ctx: Context, f: FieldAttrs)
    requires f.list
    ensures Type(inf, ctx, FieldObj(FieldView(f, None)), false).Success? <==>
            Type(inf, ctx, FieldObj(FieldView(f.(list := false), None)), false).Success?
    ensures Type(inf, ctx, FieldObj(FieldView(f, None)), false).Success? ==>
            Type(inf, ctx, FieldObj(FieldView(f, None)), false).value ==
            "List of " + Type(inf, ctx, FieldObj(FieldView(f.(list := false), None)), false).value
  {
    assert ScalarType(inf, ctx, f) == ScalarType(inf, ctx, f.(list := false));
  }

  /**
   * Native type names are shown as they are but for 'boolean' and 'integer', so no native
   * field's type is a link.
   */
  lemma NativeTypesShownPlain(inf: Inflector, ctx: Context, f: FieldAttrs)
    requires IsNativeType(f) && !f.list
    ensures FieldType(inf, ctx, f).Success? && FieldType(inf, ctx, f).value in NativeTypes
    ensures FieldType(inf, ctx, f).value == f.fieldType <==> f.fieldType !in {BOOL, INT}
  {
  }

  // ---------------------------------------------------------------------------------
  // detailsFilter and modelFilter

  /**
   * `detailsFilter`: the class form of a Data's details when its field refers to a model or
   * a data set of the bundle; '*N/A*' for anything else.
   */
  function Details(inf: Inflector, ctx: Context, obj: Mixed): (r: Result<string>)
    ensures !obj.DataObj? || IsNativeType(obj.data.field.attrs) ==> r == Success(NotApplicable)
    ensures obj.DataObj? && !IsNativeType(obj.data.field.attrs) ==>
              (r.Failure? <==> ctx.bundle.None?) && (r.Failure? ==> r.error == BundleTypeError)
    ensures obj.DataObj? && !IsNativeType(obj.data.field.attrs) && ctx.bundle.Some? ==>
              var f := obj.data.field.attrs;
              r.value == if InModels(f, ctx.bundle.value) || InDatasets(f, ctx.bundle.value)
                         then inf.classify(obj.data.details) else NotApplicable
  {
    match obj
    case DataObj(d) =>
      var f := d.field.attrs;
      if IsNativeType(f) then Success(NotApplicable)
      else if ctx.bundle.None? then Failure(BundleTypeError)
      else if InModels(f, ctx.bundle.value) then Success(inf.classify(d.details))
      else if InDatasets(f, ctx.bundle.value) then Success(inf.classify(d.details))
      else Success(NotApplicable)
    case _ => Success(NotApplicable)
  }

  /**
   * `modelFilter`: a Data links to its business model by the model's own name; a Field of a
   * model's type links to that model by its class name; anything else is '*N/A*'.
   */
  function ModelLink(inf: Inflector, ctx: Context, obj: Mixed): (r: Result<string>)
    ensures obj.DataObj? ==> r == Success(Link("DataModel", obj.data.modelName))
    ensures obj.FieldObj? && !IsNativeType(obj.field.attrs) && ctx.bundle.None? ==> r == Failure(Error(Fatal, BundleNull))
    ensures obj.FieldObj? && !IsNativeType(obj.field.attrs) && ctx.bundle.Some? ==>
              r == Success(match Get(ctx.bundle.value.models, obj.field.attrs.fieldType)
                           case Some(n) => Link("DataModel", inf.classify(n))
                           case None => NotApplicable)
    ensures !obj.DataObj? && !(obj.FieldObj? && !IsNativeType(obj.field.attrs)) ==> r == Success(NotApplicable)
  {
    match obj
    case DataObj(d) => Success(Link("DataModel", d.modelName))
    case FieldObj(f) =>
      if IsNativeType(f.attrs) then Success(NotApplicable)
      else if ctx.bundle.None? then Failure(Error(Fatal, BundleNull))
      else
        (match Get(ctx.bundle.value.models, f.attrs.fieldType)
         case Some(n) => Success(Link("DataModel", inf.classify(n)))
         case None => Success(NotApplicable))
    case _ => Success(NotApplicable)
  }

  /**
   * The model column and the type column agree: a single field of a model's type is shown
   * by both as the same link to the model's documentation, and only such a field gets a
   * link from modelFilter.
   */
  lemma ModelColumnMatchesType(inf: Inflector, ctx: Context, f: FieldAttrs)
    requires !f.list && ctx.bundle.Some?
    ensures ModelLink(inf, ctx, FieldObj(FieldView(f, None))) != Success(NotApplicable) && !IsNativeType(f) <==>
            !IsNativeType(f) && InModels(f, ctx.bundle.value) && ModelLink(inf, ctx, FieldObj(FieldView(f, None))) != Success(NotApplicable)
    ensures !IsNativeType(f) && InModels(f, ctx.bundle.value) ==>
              ModelLink(inf, ctx, FieldObj(FieldView(f, None))) == Type(inf, ctx, FieldObj(FieldView(f, None)), false)
  {
  }

  // ---------------------------------------------------------------------------------
  // Table layout

  /** A table line: each cell between '| ' and ' ', and a closing '|'. */
  function Line(cells: seq<string>): (r: string)
    ensures |r| > 0 && r[|r| - 1] == '|'
  {
    Open(cells) + "|"
  }

  /** The cells of a line before its closing bar, in order. */
  function Open(cells: seq<string>): string
  {
    if cells == [] then "" else Open(cells[..|cells| - 1]) + "| " + cells[|cells| - 1] + " "
  }

  /** The number of bars in a text. */
  function Bars(s: string): nat
  {
    multiset(s)['|']
  }

  predicate NoBar(cells: seq<string>)
  {
    forall i :: 0 <= i < |cells| ==> '|' !in cells[i]
  }

  /**
   * A line of cells without bars has exactly one bar more than it has cells, so the cells
   * are the columns a Markdown table reads.
   */
  lemma {:induction false} LineColumns(cells: seq<string>)
    requires NoBar(cells)
    ensures Bars(Line(cells)) == |cells| + 1
  {
    OpenBars(cells);
  }

  lemma {:induction false} OpenBars(cells: seq<string>)
    requires NoBar(cells)
    ensures Bars(Open(cells)) == |cells|
  {
    if cells != [] {
      var init := cells[..|cells| - 1];
      var c := cells[|cells| - 1];
      assert NoBar(init) by {
        forall i | 0 <= i < |init| ensures '|' !in init[i] {
          assert init[i] == cells[i];
        }
      }
      OpenBars(init);
      assert Open(cells) == Open(init) + "| " + c + " ";
      hide Open, Bars;
      CellAfter(Open(init), c);
      CellBars(c);
      BarsConcat(Open(init), "| " + c + " ");
    }
  }

  lemma CellAfter(o: string, c: string)
    ensures o + "| " + c + " " == o + ("| " + c + " ")
  {
  }

  lemma BarsConcat(a: string, b: string)
    ensures Bars(a + b) == Bars(a) + Bars(b)
  {
    assert multiset(a + b) == multiset(a) + multiset(b);
  }

  /** A cell without a bar adds exactly the bar before it. */
  lemma CellBars(c: string)
    requires '|' !in c
    ensures Bars("| " + c + " ") == 1
  {
    assert multiset(c)['|'] == 0;
    assert multiset("| " + c + " ") == multiset("| ") + multiset(c) + multiset(" ");
  }

  lemma OpenSnoc(cells: seq<string>, c: string)
    ensures Open(cells + [c]) == Open(cells) + "| " + c + " "
  {
    assert (cells + [c])[..|cells|] == cells;
  }

  /** A run of n dashes. */
  function Dashes(n: nat): (r: string)
    ensures |r| == n && forall i :: 0 <= i < n ==> r[i] == '-'
  {
    seq(n, _ => '-')
  }

  // ---------------------------------------------------------------------------------
  // headerFilter

  /** The names of the fields other than the identifier, in order: the header's other columns. */
  function NameCells(fields: seq<FieldAttrs>): (r: seq<string>)
    ensures |r| <= |fields|
  {
    if fields == [] then []
    else
      var f := fields[|fields| - 1];
      NameCells(fields[..|fields| - 1]) + (if f.identifier then [] else [f.name])
  }

  /** Under each of those names, as many dashes as it has characters. */
  function RuleCells(fields: seq<FieldAttrs>): (r: seq<string>)
    ensures |r| == |NameCells(fields)|
    ensures forall i :: 0 <= i < |r| ==> r[i] == Dashes(|NameCells(fields)[i]|)
  {
    if fields == [] then []
    else
      var f := fields[|fields| - 1];
      RuleCells(fields[..|fields| - 1]) + (if f.identifier then [] else [Dashes(|f.name|)])
  }

  /** The identifier's cell: its name, with one more space when the name is shorter than 3. */
  function IdentifierCell(name: string): string
  {
    if |name| < 3 then name + " " else name
  }

  /** The identifier's rule: at least the 3 dashes a Markdown table needs. */
  function IdentifierRule(name: string): (r: string)
    ensures |r| >= 3 && |r| >= |name|
  {
    Dashes(if |name| < 3 then 3 else |name|)
  }

  /**
   * A data set's header: the names line and the rule line, the identifier's column first,
   * separated by PHP_EOL. Asking a data set without an identifier for its name is an error.
   */
  function Header(d: DatasetView): (r: Result<string>)
    ensures r.Failure? <==> d.identifier.None?
  {
    if d.identifier.None? then Failure(Error(Fatal, IdentifierNull))
    else
      var name := d.identifier.value.name;
      Success(Line([IdentifierCell(name)] + NameCells(d.fields)) + "\n" + Line([IdentifierRule(name)] + RuleCells(d.fields)))
  }

  /** `headerFilter`: a data set's header; for anything else, both lines are empty. */
  function HeaderFilter(obj: Mixed): (r: Result<string>)
    ensures obj.DatasetObj? ==> r == Header(obj.dataset)
    ensures !obj.DatasetObj? ==> r == Success("\n")
  {
    if obj.DatasetObj? then Header(obj.dataset) else Success("\n")
  }

  /**
   * The two header lines have the same columns: one for the identifier and one for each
   * other field, when no name holds a bar.
   */
  lemma HeaderLinesAgree(d: DatasetView)
    requires d.identifier.Some? && NoBar([d.identifier.value.name] + NameCells(d.fields))
    ensures var lines := Header(d).value;
            exists k :: 0 <= k < |lines| && lines[k] == '\n' &&
              Bars(lines[..k]) == Bars(lines[k + 1..]) == |NameCells(d.fields)| + 2
  {
    var name := d.identifier.value.name;
    var names := [IdentifierCell(name)] + NameCells(d.fields);
    var rules := [IdentifierRule(name)] + RuleCells(d.fields);
    HeaderCellsNoBar(name, d.fields);
    assert Header(d).value == Line(names) + "\n" + Line(rules);
    hide Header, IdentifierCell, IdentifierRule, NameCells, RuleCells, Open;
    LineColumns(names);
    LineColumns(rules);
    var lines := Line(names) + "\n" + Line(rules);
    var k := |Line(names)|;
    assert lines[k] == '\n';
    assert lines[..k] == Line(names);
    assert lines[k + 1..] == Line(rules);
  }

  lemma HeaderCellsNoBar(name: string, fields: seq<FieldAttrs>)
    requires NoBar([name] + NameCells(fields))
    ensures NoBar([IdentifierCell(name)] + NameCells(fields))
    ensures NoBar([IdentifierRule(name)] + RuleCells(fields))
  {
    var names := [IdentifierCell(name)] + NameCells(fields);
    var rules := [IdentifierRule(name)] + RuleCells(fields);
    assert '|' !in IdentifierCell(name) by {
      assert ([name] + NameCells(fields))[0] == name;
      if |name| < 3 { assert IdentifierCell(name) == name + " "; }
    }
    forall i | 1 <= i < |names| ensures '|' !in names[i] {
      assert names[i] == ([name] + NameCells(fields))[i];
    }
    forall i | 0 <= i < |rules| ensures '|' !in rules[i] {
      var r := rules[i];
      assert forall j :: 0 <= j < |r| ==> r[j] == '-';
    }
  }

  /** One more field adds its cells to both header lines, unless it is the identifier. */
  lemma HeaderCellsSnoc(first: string, rule: string, fields: seq<FieldAttrs>, i: nat)
    requires i < |fields|
    ensures [first] + NameCells(fields[..i + 1]) ==
            [first] + NameCells(fields[..i]) + (if fields[i].identifier then [] else [fields[i].name])
    ensures [rule] + RuleCells(fields[..i + 1]) ==
            [rule] + RuleCells(fields[..i]) + (if fields[i].identifier then [] else [Dashes(|fields[i].name|)])
  {
    assert fields[..i + 1][..i] == fields[..i];
  }

  lemma HeaderStart(name: string, fields: seq<FieldAttrs>)
    ensures Open([IdentifierCell(name)]) == "| " + name + " " + (if |name| < 3 then " " else "")
    ensures Open([IdentifierRule(name)]) == "| " + Dashes(if |name| < 3 then 3 else |name|) + " "
    ensures [IdentifierCell(name)] + NameCells(fields[..0]) == [IdentifierCell(name)]
    ensures [IdentifierRule(name)] + RuleCells(fields[..0]) == [IdentifierRule(name)]
  {
    assert fields[..0] == [];
  }

  lemma HeaderEnd(d: DatasetView)
    requires d.identifier.Some?
    ensures var name := d.identifier.value.name;
            HeaderFilter(DatasetObj(d)) ==
            Success(Open([IdentifierCell(name)] + NameCells(d.fields)) + "|" + "\n" +
                    (Open([IdentifierRule(name)] + RuleCells(d.fields)) + "|"))
  {
  }

  /** headerFilter as the source runs it: the two lines grow field by field. */
  method RunHeader(obj: Mixed) returns (r: Result<string>)
    ensures r == HeaderFilter(obj)
  {
    var header1 := "";
    var header2 := "";
    if obj.DatasetObj? {
      var d := obj.dataset;
      if d.identifier.None? {
        return Failure(Error(Fatal, IdentifierNull));
      }
      var name := d.identifier.value.name;
      header1 := "| " + name + " ";
      var chars := |name|;
      if chars < 3 {
        header1 := header1 + " ";
        chars := 3;
      }
      header2 := "| " + Dashes(chars) + " ";
      ghost var first, rule := IdentifierCell(name), IdentifierRule(name);
      HeaderStart(name, d.fields);
      header1, header2 := RunHeaderCells(first, rule, d.fields, header1, header2);
      hide Line, Header;
      HeaderEnd(d);
    } else {
      assert HeaderFilter(obj) == Success("\n");
      assert "" + "\n" + "" == "\n";
    }
    if header1 != "" {
      header1 := header1 + "|";
      header2 := header2 + "|";
    }
    r := Success(header1 + "\n" + header2);
  }

  /** The loop of headerFilter over the fields after the identifier. */
  method RunHeaderCells(ghost first: string, ghost rule: string, fields: seq<FieldAttrs>, h1: string, h2: string)
    returns (header1: string, header2: string)
    requires h1 == Open([first]) && h2 == Open([rule]) && |h1| >= 2
    ensures header1 == Open([first] + NameCells(fields))
    ensures header2 == Open([rule] + RuleCells(fields))
    ensures |header1| >= 2
  {
    header1, header2 := h1, h2;
    assert [first] + NameCells(fields[..0]) == [first] && [rule] + RuleCells(fields[..0]) == [rule];
    hide Open, NameCells, RuleCells, Dashes;
    var i := 0;
    while i < |fields|
      invariant 0 <= i <= |fields|
      invariant header1 == Open([first] + NameCells(fields[..i]))
      invariant header2 == Open([rule] + RuleCells(fields[..i]))
      invariant |header1| >= 2
    {
      var f := fields[i];
      HeaderCellsSnoc(first, rule, fields, i);
      if !f.identifier {
        OpenSnoc([first] + NameCells(fields[..i]), f.name);
        OpenSnoc([rule] + RuleCells(fields[..i]), Dashes(|f.name|));
        header1 := header1 + "| " + f.name + " ";
        header2 := header2 + "| " + Dashes(|f.name|) + " ";
      } else {
        assert [first] + NameCells(fields[..i]) + [] == [first] + NameCells(fields[..i]);
        assert [rule] + RuleCells(fields[..i]) + [] == [rule] + RuleCells(fields[..i]);
      }
      i := i + 1;
    }
    assert fields[..i] == fields;
  }

  // ---------------------------------------------------------------------------------
  // rowFilter

  /** The text of one value: 'yes' or 'no' for a boolean field, the value as a string otherwise. */
  function ValueCell(values: seq<(ArrayKey, Value)>, f: FieldAttrs): (r: Result<string>)
    ensures IsBoolean(f) ==> r == Success(LanguageTwig.YesNo(Scalar(Datasets.Lookup(values, f.name))))
    ensures !IsBoolean(f) ==> r == StringOf(Datasets.Lookup(values, f.name))
  {
    var v := Datasets.Lookup(values, f.name);
    if IsBoolean(f) then Success(LanguageTwig.YesNo(Scalar(v))) else StringOf(v)
  }

  /** The values of the fields other than the identifier, in field order. */
  function ValueCells(values: seq<(ArrayKey, Value)>, fields: seq<FieldAttrs>): (r: Result<seq<string>>)
    ensures r.Success? ==> |r.value| == |NameCells(fields)|
  {
    if fields == [] then Success([])
    else
      var init :- ValueCells(values, fields[..|fields| - 1]);
      var f := fields[|fields| - 1];
      if f.identifier then Success(init)
      else
        var cell :- ValueCell(values, f);
        Success(init + [cell])
  }

  /**
   * A data set element's row: the identifier's value in bold, then the other values. An
   * element without a data set or whose data set has no identifier has no identifier value.
   */
  function Row(e: ElementView): (r: Result<string>)
    ensures e.dataset.None? || e.dataset.value.identifier.None? ==> r == Failure(Error(Logic, Datasets.NoIdentifiedDataset))
  {
    if e.dataset.None? || e.dataset.value.identifier.None? then Failure(Error(Logic, Datasets.NoIdentifiedDataset))
    else
      var d := e.dataset.value;
      var id :- StringOf(Datasets.Lookup(e.values, d.identifier.value.name));
      var cells :- ValueCells(e.values, d.fields);
      Success(Line(["**" + id + "**"] + cells))
  }

  /** `rowFilter`: an element's row; anything else has none. */
  function RowFilter(obj: Mixed): (r: Result<string>)
    ensures obj.ElementObj? ==> r == Row(obj.element)
    ensures !obj.ElementObj? ==> r == Success("")
  {
    if obj.ElementObj? then Row(obj.element) else Success("")
  }

  /**
   * A row has as many columns as the header of its data set: the identifier's and one for
   * each other field, when no name and no value holds a bar.
   */
  lemma RowFitsHeader(e: ElementView)
    requires e.dataset.Some? && e.dataset.value.identifier.Some? && Row(e).Success?
    requires var d := e.dataset.value;
             '|' !in StringOf(Datasets.Lookup(e.values, d.identifier.value.name)).value &&
             NoBar(ValueCells(e.values, d.fields).value)
    ensures Bars(Row(e).value) == |NameCells(e.dataset.value.fields)| + 2
  {
    var d := e.dataset.value;
    var id := StringOf(Datasets.Lookup(e.values, d.identifier.value.name)).value;
    var cells := ValueCells(e.values, d.fields).value;
    RowCells(e);
    hide Row, StringOf, Datasets.Lookup, Line, ValueCells, ValueCell;
    BoldNoBar(id, cells);
    LineColumns(["**" + id + "**"] + cells);
  }

  lemma BoldNoBar(id: string, cells: seq<string>)
    requires '|' !in id && NoBar(cells)
    ensures NoBar(["**" + id + "**"] + cells)
  {
    var all := ["**" + id + "**"] + cells;
    assert '|' !in "**" + id + "**";
    forall i | 1 <= i < |all| ensures '|' !in all[i] {
      assert all[i] == cells[i - 1];
    }
  }

  /** A row that exists is the line of the bold identifier's cell and the value cells. */
  lemma RowCells(e: ElementView)
    requires Row(e).Success?
    ensures e.dataset.Some? && e.dataset.value.identifier.Some?
    ensures var d := e.dataset.value;
            && StringOf(Datasets.Lookup(e.values, d.identifier.value.name)).Success?
            && ValueCells(e.values, d.fields).Success?
            && Row(e).value == Line(["**" + StringOf(Datasets.Lookup(e.values, d.identifier.value.name)).value + "**"] +
                                    ValueCells(e.values, d.fields).value)
  {
  }

  lemma ValueCellsSnoc(values: seq<(ArrayKey, Value)>, fields: seq<FieldAttrs>, i: nat)
    requires i < |fields| && ValueCells(values, fields[..i]).Success?
    ensures fields[i].identifier ==> ValueCells(values, fields[..i + 1]) == ValueCells(values, fields[..i])
    ensures !fields[i].identifier && ValueCell(values, fields[i]).Success? ==>
              ValueCells(values, fields[..i + 1]) == Success(ValueCells(values, fields[..i]).value + [ValueCell(values, fields[i]).value])
  {
    assert fields[..i + 1][..i] == fields[..i];
  }

  lemma {:induction false} ValueCellsFailAt(values: seq<(ArrayKey, Value)>, fields: seq<FieldAttrs>, i: nat)
    requires i < |fields| && ValueCells(values, fields[..i]).Success?
    requires !fields[i].identifier && ValueCell(values, fields[i]).Failure?
    ensures ValueCells(values, fields) == Failure(ValueCell(values, fields[i]).error)
    decreases |fields|
  {
    if i + 1 < |fields| {
      var init := fields[..|fields| - 1];
      assert init[..i] == fields[..i] && init[i] == fields[i];
      ValueCellsFailAt(values, init, i);
    } else {
      assert fields[..|fields| - 1] == fields[..i];
    }
  }

  /** rowFilter as the source runs it: the row grows value by value. */
  method RunRow(obj: Mixed) returns (r: Result<string>)
    ensures r == RowFilter(obj)
  {
    hide ValueCell, StringOf, Datasets.Lookup, Open, ValueCells, Row, Line;
    var row := "";
    if obj.ElementObj? {
      var e := obj.element;
      if e.dataset.None? || e.dataset.value.identifier.None? {
        return Failure(Error(Logic, Datasets.NoIdentifiedDataset));
      }
      var d := e.dataset.value;
      var id := StringOf(Datasets.Lookup(e.values, d.identifier.value.name));
      if id.Failure? {
        RowFails(e, id.error);
        return Failure(id.error);
      }
      row := "| **" + id.value + "** ";
      ghost var head := "**" + id.value + "**";
      ghost var cells: seq<string> := [];
      RowStart(head, id.value, e.values, d.fields);
      var i := 0;
      while i < |d.fields|
        invariant 0 <= i <= |d.fields|
        invariant ValueCells(e.values, d.fields[..i]) == Success(cells)
        invariant row == Open([head] + cells)
        invariant |row| >= 2
      {
        var f := d.fields[i];
        ValueCellsSnoc(e.values, d.fields, i);
        if !f.identifier {
          var value := ValueCell(e.values, f);
          if value.Failure? {
            ValueCellsFailAt(e.values, d.fields, i);
            RowFails(e, value.error);
            return Failure(value.error);
          }
          OpenSnoc([head] + cells, value.value);
          assert [head] + cells + [value.value] == [head] + (cells + [value.value]);
          row := row + "| " + value.value + " ";
          cells := cells + [value.value];
        }
        i := i + 1;
      }
      assert d.fields[..i] == d.fields;
      RowEnd(e, cells);
    }
    if row != "" {
      row := row + "|";
    }
    r := Success(row);
  }

  lemma RowStart(head: string, id: string, values: seq<(ArrayKey, Value)>, fields: seq<FieldAttrs>)
    requires head == "**" + id + "**"
    ensures "| **" + id + "** " == Open([head])
    ensures ValueCells(values, fields[..0]) == Success([])
    ensures [head] + [] == [head]
  {
    assert fields[..0] == [];
  }

  lemma RowEnd(e: ElementView, cells: seq<string>)
    requires e.dataset.Some? && e.dataset.value.identifier.Some?
    requires StringOf(Datasets.Lookup(e.values, e.dataset.value.identifier.value.name)).Success?
    requires ValueCells(e.values, e.dataset.value.fields) == Success(cells)
    ensures RowFilter(ElementObj(e)) ==
            Success(Open(["**" + StringOf(Datasets.Lookup(e.values, e.dataset.value.identifier.value.name)).value + "**"] + cells) + "|")
  {
  }

  lemma RowFails(e: ElementView, err: Error)
    requires e.dataset.Some? && e.dataset.value.identifier.Some?
    requires var id := StringOf(Datasets.Lookup(e.values, e.dataset.value.identifier.value.name));
             id == Failure(err) || (id.Success? && ValueCells(e.values, e.dataset.value.fields) == Failure(err))
    ensures RowFilter(ElementObj(e)) == Failure(err)
  {
  }
}
