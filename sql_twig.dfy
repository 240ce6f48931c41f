/**
 * The SQL flavour of the Twig filters (src/Twig/SqlTwigExtension.php): database, table and
 * column names by the relational adapter's naming rules, foreign-key names, and values
 * written as SQL literals.
 */
module SqlTwig {
  import opened Wrappers
  import opened PhpStrings
  import opened PhpValues
  import opened OrderedMap
  import opened FieldHelper
  import opened Inflection
  import opened TwigValues
  import Model
  import DatabaseAdapter
  import RelationalAdapter
  import Datasets

  const Extension := "CodePrimer\\Twig\\SqlTwigExtension::"

  // ---------------------------------------------------------------------------------
  // Database, user and table names

  /** `databaseFilter`: the adapter's database name of a bundle; its parameter is typed. */
  function Database(inf: Inflector, obj: Mixed): (r: Result<string>)
    ensures r.Success? <==> obj.BundleObj?
    ensures r.Success? ==> r.value == DatabaseAdapter.DatabaseName(inf, obj.namespace, obj.name)
    ensures r.Failure? ==> r.error.kind == Fatal
  {
    if obj.BundleObj? then Success(DatabaseAdapter.DatabaseName(inf, obj.namespace, obj.name))
    else Failure(TypeMismatch(Extension + "databaseFilter", "1", "CodePrimer\\Model\\BusinessBundle"))
  }

  /** `userFilter`: separators to '_', tableize, then one pass of "__" to "_" on the bundle's name. */
  function User(inf: Inflector, obj: Mixed): (r: Result<string>)
    ensures r.Success? <==> obj.BundleObj?
    ensures r.Failure? ==> r.error.kind == Fatal
  {
    if obj.BundleObj? then Success(CollapseDoubleUnderscore(inf.tableize(MapChars(obj.name, {'-', ' ', '.'}, '_'))))
    else Failure(TypeMismatch(Extension + "userFilter", "1", "CodePrimer\\Model\\BusinessBundle"))
  }

  /** A bundle's user name is spelled as a column named after the bundle would be. */
  lemma UserIsColumnName(inf: Inflector, namespace: string, name: string)
    ensures User(inf, BundleObj(namespace, name)) == Success(DatabaseAdapter.ColumnName(inf, name))
  {
    assert DatabaseAdapter.Separators == {'-', ' ', '.'};
  }

  const TableUnsupported := "Table names can only generated for BusinessModel, Dataset or RelationshipSide instances"

  /**
   * `getRelationTableName` on a side: the table of the relationship's left side, '_', that
   * of its right side, for a many-to-many relationship only.
   */
  function RelationTable(inf: Inflector, s: SideView): (r: Result<string>)
    ensures s.relType.None? ==> r == Failure(Error(Fatal, DatabaseAdapter.RelationshipUnset))
    ensures s.relType.Some? ==> r == DatabaseAdapter.RelationTableNameOf(inf, s.relType.value, s.ends.0, s.ends.1)
  {
    match s.relType
    case None => Failure(Error(Fatal, DatabaseAdapter.RelationshipUnset))
    case Some(t) => DatabaseAdapter.RelationTableNameOf(inf, t, s.ends.0, s.ends.1)
  }

  /** `tableFilter`: a model's or a data set's table, or a side's relation table. */
  function Table(inf: Inflector, obj: Mixed): (r: Result<string>)
    ensures obj.ModelObj? ==> r == Success(DatabaseAdapter.TableName(inf, obj.model.name))
    ensures obj.DatasetObj? ==> r == Success(DatabaseAdapter.TableName(inf, obj.dataset.name))
    ensures obj.SideObj? ==> r == RelationTable(inf, obj.side)
    ensures !(obj.ModelObj? || obj.DatasetObj? || obj.SideObj?) ==> r == Failure(Error(Runtime, TableUnsupported))
  {
    match obj
    case ModelObj(m) => Success(DatabaseAdapter.TableName(inf, m.name))
    case SideObj(s) => RelationTable(inf, s)
    case DatasetObj(d) => Success(DatabaseAdapter.TableName(inf, d.name))
    case _ => Failure(Error(Runtime, TableUnsupported))
  }

  /**
   * A table name is given exactly for a model, a data set or a side of a many-to-many
   * relationship, and both sides of one relationship name the same table.
   */
  lemma TableNamedExactly(inf: Inflector, obj: Mixed)
    ensures Table(inf, obj).Success? <==>
              obj.ModelObj? || obj.DatasetObj? || (obj.SideObj? && obj.side.relType == Some(Model.MANY_TO_MANY))
    ensures obj.SideObj? && obj.side.relType.Some? && Table(inf, obj).Failure? ==>
              Table(inf, obj).error == Error(Runtime, DatabaseAdapter.NotManyToMany)
  {
  }

  /** `auditTableFilter`: the audit table of a model; the parameter is typed. */
  function AuditTable(inf: Inflector, obj: Mixed): (r: Result<string>)
    ensures r.Success? <==> obj.ModelObj?
    ensures r.Success? ==> r.value == DatabaseAdapter.AuditTableName(inf, obj.model.name)
  {
    if obj.ModelObj? then Success(DatabaseAdapter.AuditTableName(inf, obj.model.name))
    else Failure(TypeMismatch(Extension + "auditTableFilter", "1", "CodePrimer\\Model\\BusinessModel"))
  }

  /** A model's audit table is its table followed by "_logs", so never the table itself. */
  lemma AuditTableBesideTable(inf: Inflector, m: ModelView)
    ensures AuditTable(inf, ModelObj(m)).value == Table(inf, ModelObj(m)).value + "_logs"
    ensures AuditTable(inf, ModelObj(m)).value != Table(inf, ModelObj(m)).value
  {
    var a := AuditTable(inf, ModelObj(m)).value;
    assert a[..|a| - 5] == DatabaseAdapter.TableName(inf, m.name) && a[|a| - 5..] == "_logs";
    assert a == a[..|a| - 5] + a[|a| - 5..];
  }

  // ---------------------------------------------------------------------------------
  // Column names

  /** `getColumnName($field)` of the relational adapter: a foreign-key column ends in 'id'. */
  function FieldColumn(inf: Inflector, f: FieldView): (r: Result<string>)
    ensures f.relation.None? ==> r == Success(DatabaseAdapter.ColumnName(inf, f.attrs.name))
    ensures f.relation.Some? ==> (r.Failure? <==> f.relation.value.relType.None?)
    ensures r.Success? && f.relation.Some? ==>
              r.value == RelationalAdapter.ForeignColumnName(inf, f.attrs.name,
                           RelationalAdapter.ForeignKeyAllowed(f.relation.value.relType.value, f.relation.value.side))
  {
    match f.relation
    case None => Success(DatabaseAdapter.ColumnName(inf, f.attrs.name))
    case Some(s) =>
      if s.relType.None? then Failure(Error(Fatal, DatabaseAdapter.RelationshipUnset))
      else Success(RelationalAdapter.ForeignColumnName(inf, f.attrs.name,
                     RelationalAdapter.ForeignKeyAllowed(s.relType.value, s.side)))
  }

  const ColumnUnsupported := "Column names can only generated for Field, BusinessModel or Index instances. Received: "

  /** The message columnFilter is meant to give for a value it cannot name: the text, then 'null' or the class. */
  function ColumnRejected(obj: Mixed): (r: string)
    ensures ColumnUnsupported <= r
    ensures obj == Scalar(VNull) ==> r[|ColumnUnsupported|..] == "null"
    ensures obj != Scalar(VNull) ==> r[|ColumnUnsupported|..] == GetClass(obj)
  {
    ColumnUnsupported + (if obj == Scalar(VNull) then "null" else GetClass(obj))
  }

  /**
   * The message as the throw statement computes it: concatenation binds tighter than `===`,
   * so the text with null appended is compared with the value, and unless the value is
   * that very text the message is only `get_class` of the value.
   */
  function ColumnRejectedAsWritten(obj: Mixed): (r: string)
    ensures obj != Str(ColumnUnsupported) ==> r == GetClass(obj)
    ensures obj == Str(ColumnUnsupported) ==> r == "null"
  {
    if obj == Str(ColumnUnsupported + "") then "null" else GetClass(obj)
  }

  /** As written, the message loses its text: for a model object it is the bare class name. */
  lemma ColumnMessageLosesText(obj: Mixed)
    requires !obj.Scalar? && !obj.Items?
    ensures ColumnRejectedAsWritten(obj) == ClassName(obj)
    ensures ColumnRejectedAsWritten(obj) != ColumnRejected(obj)
  {
    assert |ColumnRejected(obj)| == |ColumnUnsupported| + |ClassName(obj)|;
  }

  /** The columns of an Index's fields, in order. */
  function FieldColumns(inf: Inflector, fs: seq<FieldView>): (r: Result<seq<string>>)
    ensures r.Success? ==> |r.value| == |fs|
    ensures r.Success? ==> forall i :: 0 <= i < |fs| ==> FieldColumn(inf, fs[i]) == Success(r.value[i])
    ensures r.Failure? ==> exists i :: 0 <= i < |fs| && FieldColumn(inf, fs[i]) == Failure(r.error)
  {
    if fs == [] then Success([])
    else
      var init :- FieldColumns(inf, fs[..|fs| - 1]);
      var last :- FieldColumn(inf, fs[|fs| - 1]);
      assert forall i :: 0 <= i < |fs| - 1 ==> fs[..|fs| - 1][i] == fs[i];
      Success(init + [last])
  }

  /**
   * `columnFilter`: a field's column, a model's entity column, an Index's columns joined
   * with ', ', an array's columns each in backquotes joined with ', '; anything else is a
   * RuntimeException.
   */
  function Column(inf: Inflector, obj: Mixed): (r: Result<string>)
    decreases obj
  {
    match obj
    case FieldObj(f) => FieldColumn(inf, f)
    case ModelObj(m) => Success(DatabaseAdapter.EntityColumnName(inf, m.name))
    case IndexObj(ix) =>
      var cs :- FieldColumns(inf, ix.fields);
      Success(Join(cs, ", "))
    case Items(items) =>
      var cs :- QuotedColumns(inf, items);
      Success(Join(cs, ", "))
    case _ => Failure(Error(Runtime, ColumnRejected(obj)))
  }

  /**
   * What columnFilter gives, case by case: a field's column, a model's entity column, the
   * columns of an Index's fields or of an array's items joined with ', ', and the
   * RuntimeException for anything else.
   */
  lemma ColumnCases(inf: Inflector, obj: Mixed, r: Result<string>)
    requires r == Column(inf, obj)
    ensures obj.FieldObj? ==> r == FieldColumn(inf, obj.field)
    ensures obj.ModelObj? ==> r == Success(DatabaseAdapter.EntityColumnName(inf, obj.model.name))
    ensures obj.IndexObj? ==> (r.Success? <==> FieldColumns(inf, obj.index.fields).Success?)
    ensures obj.IndexObj? && r.Success? ==> r.value == Join(FieldColumns(inf, obj.index.fields).value, ", ")
    ensures obj.IndexObj? && r.Failure? ==> r.error == FieldColumns(inf, obj.index.fields).error
    ensures obj.Items? ==> (r.Success? <==> QuotedColumns(inf, obj.items).Success?)
    ensures obj.Items? && r.Success? ==> r.value == Join(QuotedColumns(inf, obj.items).value, ", ")
    ensures obj.Items? && r.Failure? ==> r.error == QuotedColumns(inf, obj.items).error
    ensures !(obj.FieldObj? || obj.ModelObj? || obj.IndexObj? || obj.Items?) ==>
              r == Failure(Error(Runtime, ColumnRejected(obj)))
  {
  }

  /** The columns of an array's items, each in backquotes. */
  function QuotedColumns(inf: Inflector, items: seq<Mixed>): (r: Result<seq<string>>)
    ensures r.Success? ==> |r.value| == |items|
    decreases items
  {
    if items == [] then Success([])
    else
      var init :- QuotedColumns(inf, items[..|items| - 1]);
      var last :- Column(inf, items[|items| - 1]);
      Success(init + ["`" + last + "`"])
  }

  /** Each column of an array is the column of the item at the same place, in backquotes. */
  lemma {:induction false} QuotedColumnsAt(inf: Inflector, items: seq<Mixed>, i: nat)
    requires QuotedColumns(inf, items).Success? && i < |items|
    ensures Column(inf, items[i]).Success?
    ensures QuotedColumns(inf, items).value[i] == "`" + Column(inf, items[i]).value + "`"
  {
    var init := items[..|items| - 1];
    if i < |items| - 1 {
      assert init[i] == items[i];
      QuotedColumnsAt(inf, init, i);
    }
  }

  /** A field holding a foreign key has a column ending in 'id'. */
  lemma ForeignKeyColumnEndsWithId(inf: Inflector, f: FieldView)
    requires f.relation.Some? && f.relation.value.relType.Some?
    requires RelationalAdapter.ForeignKeyAllowed(f.relation.value.relType.value, f.relation.value.side)
    ensures Column(inf, FieldObj(f)).Success? && RelationalAdapter.EndsWithId(Column(inf, FieldObj(f)).value)
  {
  }

  lemma QuotedColumnsSnoc(inf: Inflector, items: seq<Mixed>, i: nat)
    requires i < |items| && QuotedColumns(inf, items[..i]).Success? && Column(inf, items[i]).Success?
    ensures QuotedColumns(inf, items[..i + 1]) ==
            Success(QuotedColumns(inf, items[..i]).value + ["`" + Column(inf, items[i]).value + "`"])
  {
    assert items[..i + 1][..i] == items[..i];
  }

  lemma {:induction false} QuotedColumnsFailAt(inf: Inflector, items: seq<Mixed>, i: nat)
    requires i < |items| && QuotedColumns(inf, items[..i]).Success? && Column(inf, items[i]).Failure?
    ensures QuotedColumns(inf, items) == Failure(Column(inf, items[i]).error)
    decreases |items|
  {
    if i + 1 < |items| {
      var init := items[..|items| - 1];
      assert init[..i] == items[..i] && init[i] == items[i];
      QuotedColumnsFailAt(inf, init, i);
    } else {
      assert items[..|items| - 1] == items[..i];
    }
  }

  lemma FieldColumnsSnoc(inf: Inflector, fs: seq<FieldView>, i: nat)
    requires i < |fs| && FieldColumns(inf, fs[..i]).Success? && FieldColumn(inf, fs[i]).Success?
    ensures FieldColumns(inf, fs[..i + 1]) == Success(FieldColumns(inf, fs[..i]).value + [FieldColumn(inf, fs[i]).value])
  {
    assert fs[..i + 1][..i] == fs[..i];
  }

  lemma {:induction false} FieldColumnsFailAt(inf: Inflector, fs: seq<FieldView>, i: nat)
    requires i < |fs| && FieldColumns(inf, fs[..i]).Success? && FieldColumn(inf, fs[i]).Failure?
    ensures FieldColumns(inf, fs) == Failure(FieldColumn(inf, fs[i]).error)
    decreases |fs|
  {
    if i + 1 < |fs| {
      var init := fs[..|fs| - 1];
      assert init[..i] == fs[..i] && init[i] == fs[i];
      FieldColumnsFailAt(inf, init, i);
    } else {
      assert fs[..|fs| - 1] == fs[..i];
    }
  }

  /** columnFilter as the source runs it: a loop over an Index's fields or an array's items. */
  method RunColumn(inf: Inflector, obj: Mixed) returns (r: Result<string>)
    ensures r == Column(inf, obj)
    decreases obj
  {
    match obj {
      case IndexObj(ix) =>
        r := RunIndexColumns(inf, ix.fields);
      case Items(items) =>
        r := RunItemColumns(inf, items);
      case _ =>
        r := Column(inf, obj);
    }
  }

  method RunItemColumns(inf: Inflector, items: seq<Mixed>) returns (r: Result<string>)
    ensures r == Column(inf, Items(items))
    decreases items
  {
    assert QuotedColumns(inf, items[..0]) == Success([]);
    var columns := "";
    var i := 0;
    while i < |items|
      invariant 0 <= i <= |items|
      invariant QuotedColumns(inf, items[..i]).Success?
      invariant columns == Join(QuotedColumns(inf, items[..i]).value, ", ")
    {
      var c := RunColumn(inf, items[i]);
      if c.Failure? {
        QuotedColumnsFailAt(inf, items, i);
        return Failure(c.error);
      }
      QuotedColumnsSnoc(inf, items, i);
      JoinSnoc(QuotedColumns(inf, items[..i]).value, "`" + c.value + "`", ", ");
      if i > 0 {
        columns := columns + ", ";
      }
      columns := columns + "`" + c.value + "`";
      i := i + 1;
    }
    assert items[..i] == items;
    r := Success(columns);
  }

  method RunIndexColumns(inf: Inflector, fs: seq<FieldView>) returns (r: Result<string>)
    ensures r == Column(inf, IndexObj(IndexView("", fs, "")))
  {
    assert FieldColumns(inf, fs[..0]) == Success([]);
    var columns := "";
    var i := 0;
    while i < |fs|
      invariant 0 <= i <= |fs|
      invariant FieldColumns(inf, fs[..i]).Success?
      invariant columns == Join(FieldColumns(inf, fs[..i]).value, ", ")
    {
      var c := FieldColumn(inf, fs[i]);
      if c.Failure? {
        FieldColumnsFailAt(inf, fs, i);
        return Failure(c.error);
      }
      FieldColumnsSnoc(inf, fs, i);
      JoinSnoc(FieldColumns(inf, fs[..i]).value, c.value, ", ");
      if i > 0 {
        columns := columns + ", ";
      }
      columns := columns + c.value;
      i := i + 1;
    }
    assert fs[..i] == fs;
    r := Success(columns);
  }

  // ---------------------------------------------------------------------------------
  // Foreign keys

  const InvalidForeignKeySide := "foreignKey filter can only be used against a One-To-One or the right side of a One-To-Many relationship"
  const MissingForeignKeyArguments := "foreignKey filter on a BusinessModel object must provide a valid sourceField and destination values"
  const ForeignKeySourceUnsupported := "foreignKey filter only accepts RelationshipSide and BusinessModel sources"
  const RemoteSideNull := "Call to a member function getBusinessModel() on null"

  /** `foreignKeyTest`: whether the adapter maps the side to a foreign key. */
  function ForeignKeyTest(obj: Mixed): (r: Result<bool>)
    ensures r.Success? <==> obj.SideObj? && obj.side.relType.Some?
    ensures r.Success? ==> (r.value <==> obj.side.relType.value != Model.MANY_TO_MANY &&
                                         !(obj.side.relType.value == Model.ONE_TO_MANY && obj.side.side == Some(Model.LEFT)))
  {
    match obj
    case SideObj(s) =>
      if s.relType.None? then Failure(Error(Fatal, DatabaseAdapter.RelationshipUnset))
      else Success(RelationalAdapter.ForeignKeyAllowed(s.relType.value, s.side))
    case _ => Failure(TypeMismatch(Extension + "foreignKeyTest", "1", "CodePrimer\\Model\\RelationshipSide"))
  }

  /** `getField()` of a side, as a template value: the field is linked to the side itself. */
  function SideField(s: SideView): Mixed
  {
    match s.field
    case None => Scalar(VNull)
    case Some(a) => FieldObj(FieldView(a, Some(s)))
  }

  /**
   * `foreignKeyFilter`: 'fk_', the referencing table, '_', the referenced table, '_', the
   * referencing column; for a side, the side's own table, the remote side's and the side's
   * field; for a model, the model's table, the destination data set's and the source field.
   */
  function ForeignKey(inf: Inflector, source: Mixed, sourceField: Option<FieldView>, destination: Option<DatasetView>)
    : (r: Result<string>)
    ensures !source.SideObj? && !source.ModelObj? ==> r == Failure(Error(Generic, ForeignKeySourceUnsupported))
    ensures source.ModelObj? && (sourceField.None? || destination.None?) ==>
              r == Failure(Error(Generic, MissingForeignKeyArguments))
    ensures source.SideObj? && source.side.relType.Some? &&
            !RelationalAdapter.ForeignKeyAllowed(source.side.relType.value, source.side.side) ==>
              r == Failure(Error(Generic, InvalidForeignKeySide))
    ensures r.Success? ==> "fk_" <= r.value
  {
    match source
    case SideObj(s) =>
      if s.relType.None? then Failure(Error(Fatal, DatabaseAdapter.RelationshipUnset))
      else if !RelationalAdapter.ForeignKeyAllowed(s.relType.value, s.side) then Failure(Error(Generic, InvalidForeignKeySide))
      else if s.remote.None? then Failure(Error(Fatal, RemoteSideNull))
      else
        var column :- Column(inf, SideField(s));
        Success("fk_" + DatabaseAdapter.TableName(inf, s.ownerName) + "_" +
                DatabaseAdapter.TableName(inf, s.remote.value.ownerName) + "_" + column)
    case ModelObj(m) =>
      if sourceField.None? || destination.None? then Failure(Error(Generic, MissingForeignKeyArguments))
      else
        var column :- Column(inf, FieldObj(sourceField.value));
        Success("fk_" + DatabaseAdapter.TableName(inf, m.name) + "_" +
                DatabaseAdapter.TableName(inf, destination.value.name) + "_" + column)
    case _ => Failure(Error(Generic, ForeignKeySourceUnsupported))
  }

  /**
   * On a side with a field and a remote side, foreignKeyFilter names a key exactly when
   * foreignKeyTest holds, and the key then ends with the field's foreign-key column, 'id'.
   */
  lemma ForeignKeyOfSide(inf: Inflector, s: SideView, sourceField: Option<FieldView>, destination: Option<DatasetView>)
    requires s.relType.Some? && s.remote.Some? && s.field.Some?
    ensures ForeignKey(inf, SideObj(s), sourceField, destination).Success? <==> ForeignKeyTest(SideObj(s)) == Success(true)
    ensures ForeignKeyTest(SideObj(s)) == Success(false) ==>
              ForeignKey(inf, SideObj(s), sourceField, destination) == Failure(Error(Generic, InvalidForeignKeySide))
    ensures ForeignKey(inf, SideObj(s), sourceField, destination).Success? ==>
              var column := RelationalAdapter.ForeignColumnName(inf, s.field.value.name, true);
              var key := ForeignKey(inf, SideObj(s), sourceField, destination).value;
              key == "fk_" + DatabaseAdapter.TableName(inf, s.ownerName) + "_" +
                     DatabaseAdapter.TableName(inf, s.remote.value.ownerName) + "_" + column &&
              RelationalAdapter.EndsWithId(key)
  {
    if RelationalAdapter.ForeignKeyAllowed(s.relType.value, s.side) {
      var column := RelationalAdapter.ForeignColumnName(inf, s.field.value.name, true);
      assert Column(inf, SideField(s)) == Success(column);
      var prefix := "fk_" + DatabaseAdapter.TableName(inf, s.ownerName) + "_" +
                    DatabaseAdapter.TableName(inf, s.remote.value.ownerName) + "_";
      EndsWithIdAfter(prefix, column);
    }
  }

  lemma EndsWithIdAfter(prefix: string, s: string)
    requires RelationalAdapter.EndsWithId(s)
    ensures RelationalAdapter.EndsWithId(prefix + s)
  {
    var t := prefix + s;
    assert t[|t| - 2..] == s[|s| - 2..];
  }

  /** On a model, foreignKeyFilter needs both a source field and a destination. */
  lemma ForeignKeyOfModel(inf: Inflector, m: ModelView, sourceField: Option<FieldView>, destination: Option<DatasetView>)
    ensures sourceField.None? || destination.None? ==>
              ForeignKey(inf, ModelObj(m), sourceField, destination) == Failure(Error(Generic, MissingForeignKeyArguments))
    ensures sourceField.Some? && destination.Some? && sourceField.value.relation.None? ==>
              ForeignKey(inf, ModelObj(m), sourceField, destination) ==
              Success("fk_" + DatabaseAdapter.TableName(inf, m.name) + "_" + DatabaseAdapter.TableName(inf, destination.value.name) +
                      "_" + DatabaseAdapter.ColumnName(inf, sourceField.value.attrs.name))
  {
  }

  // ---------------------------------------------------------------------------------
  // Values as SQL literals

  /** Formats a DateTime, given by its ISO text, with a PHP date pattern. */
  type DateFormatter = (string, string) -> string

  /**
   * `$dataset->getElement($value)`, which the DataSet class does not declare: the values
   * of the element found, if any; the element belongs to the data set.
   */
  type ElementFinder = (DatasetView, Value) -> Option<seq<(ArrayKey, Value)>>

  const BusinessModelValue := "Cannot render a value for Business Model: "
  const UnknownTypeValue := "Cannot render a value for field type: "
  const UnknownClassValue := "Cannot render a value for class: "
  const PriceAsFloat := "Call to undefined method CodePrimer\\Helper\\PriceHelper::asFloat()"
  const NoIdentifierValue := "You must assign a Dataset (with an identifier) to an element before retrieving its identifier value"
  const NestingExhausted := "Allowed memory size exhausted"
  const ElementDatasetNull := "Call to a member function getField() on null"

  /** `is_numeric($v)`. */
  predicate IsNumeric(v: Value)
  {
    match v
    case VInt(_) => true
    case VFloat(_, _) => true
    case VString(s) => IsNumericString(s)
    case _ => false
  }

  /** A string in single quotes, or in double quotes when it holds a single quote. */
  function Quoted(s: string): (r: string)
    ensures |r| == |s| + 2 && r[1..|r| - 1] == s
    ensures r[0] == r[|r| - 1] && r[0] in {'\'', '"'}
  {
    if '\'' in s then "\"" + s + "\"" else "'" + s + "'"
  }

  /**
   * The quote a literal is written with occurs inside it exactly when the string holds
   * both kinds of quote; otherwise the text between the quotes reads back as the string.
   */
  lemma QuotedDelimiterFree(s: string)
    ensures Quoted(s)[0] in s <==> '\'' in s && '"' in s
    ensures Quoted(s)[0] == '\'' <==> '\'' !in s
  {
  }

  /** A date, a time or a date-time in single quotes: a DateTime formatted, anything else as text. */
  function DateLiteral(fmt: DateFormatter, value: Value, pattern: string): (r: string)
    ensures !value.VDateTime? ==> r == "'" + StringOf(value).value + "'"
  {
    match value
    case VDateTime(iso) => "'" + fmt(iso, pattern) + "'"
    case _ => "'" + StringOf(value).value + "'"
  }

  /**
   * The literal of one value of a field of type `t` before a list is bracketed: FieldHelper's
   * tests, in the order valueFilter makes them, over disjoint families; a model or data set
   * type is looked up in the context's bundle.
   */
  function Render(ctx: Context, find: ElementFinder, fmt: DateFormatter, t: string, value: Value, fuel: nat)
    : (r: Result<Value>)
    ensures ClassOf(t) in {IntegerClass, LongClass, FloatClass, DoubleClass} ==> r == Success(value)
    ensures ClassOf(t) == PriceClass ==> r == if IsNumeric(value) then Success(value) else Failure(Error(Fatal, PriceAsFloat))
    ensures ClassOf(t) == BooleanClass ==> r.Success? && r.value in {VString("TRUE"), VString("FALSE")}
    ensures ClassOf(t) == StringClass ==> (r.Success? <==> StringOf(value).Success?)
    ensures ClassOf(t) == StringClass && r.Success? ==> r.value == VString(Quoted(StringOf(value).value))
    ensures ClassOf(t) == OtherClass && ctx.package.Some? && t in Keys(ctx.package.value.models) ==>
              r == Failure(Error(InvalidArgument, BusinessModelValue + t))
    decreases fuel, 0
  {
    match ClassOf(t)
    case BooleanClass => Success(VString(if FilterBool(value) == Some(true) then "TRUE" else "FALSE"))
    case DateClass => Success(VString(DateLiteral(fmt, value, "Y-m-d")))
    case TimeClass => Success(VString(DateLiteral(fmt, value, "H:i:s")))
    case DateTimeClass => Success(VString(DateLiteral(fmt, value, "Y-m-d H:i:s")))
    case IntegerClass => Success(value)
    case LongClass => Success(value)
    case FloatClass => Success(value)
    case PriceClass => if IsNumeric(value) then Success(value) else Failure(Error(Fatal, PriceAsFloat))
    case DoubleClass => Success(value)
    case StringClass =>
      var s :- StringOf(value);
      Success(VString(Quoted(s)))
    case OtherClass =>
      if ctx.package.None? then
        Failure(TypeMismatch("CodePrimer\\Helper\\FieldHelper::isBusinessModel", "2", "CodePrimer\\Model\\BusinessBundle"))
      else if t in Keys(ctx.package.value.models) then Failure(Error(InvalidArgument, BusinessModelValue + t))
      else if t in Keys(ctx.package.value.datasets) then
        var d := Get(ctx.package.value.datasets, t).value;
        match find(d, value)
        case None =>
          var shown :- StringOf(value);
          Failure(Error(InvalidArgument, "Cannot find element " + shown + " in Dataset " + d.name))
        case Some(values) =>
          if d.identifier.None? then Failure(Error(Logic, NoIdentifierValue))
          else if fuel == 0 then Failure(Error(Fatal, NestingExhausted))
          else
            var s :- FieldValue(ctx, find, fmt, d.identifier.value, Datasets.Lookup(values, d.identifier.value.name), fuel - 1);
            Success(VString(s))
      else Failure(Error(InvalidArgument, UnknownTypeValue + t))
  }

  /** valueFilter on a Field: the literal, in brackets for a list, returned as a string. */
  function FieldValue(ctx: Context, find: ElementFinder, fmt: DateFormatter, f: FieldAttrs, value: Value, fuel: nat)
    : (r: Result<string>)
    ensures Render(ctx, find, fmt, f.fieldType, value, fuel).Failure? ==>
              r == Failure(Render(ctx, find, fmt, f.fieldType, value, fuel).error)
    ensures f.list && r.Success? ==> |r.value| >= 2 && r.value[0] == '[' && r.value[|r.value| - 1] == ']'
    ensures f.list && r.Success? ==>
              Render(ctx, find, fmt, f.fieldType, value, fuel).Success? &&
              StringOf(Render(ctx, find, fmt, f.fieldType, value, fuel).value).Success? &&
              r.value[1..|r.value| - 1] == StringOf(Render(ctx, find, fmt, f.fieldType, value, fuel).value).value
    decreases fuel, 1
  {
    var v :- Render(ctx, find, fmt, f.fieldType, value, fuel);
    if f.list then
      var s :- StringOf(v);
      Success("[" + s + "]")
    else Datasets.ReturnString(v)
  }

  /** `$dataset->getField($name)` for the key a value is stored under. */
  function FieldNamed(fields: seq<FieldAttrs>, key: ArrayKey): (r: Option<FieldAttrs>)
    ensures r.Some? ==> r.value in fields && KeyOf(r.value.name) == key
    ensures r.None? ==> forall f :: f in fields ==> KeyOf(f.name) != key
  {
    if fields == [] then None
    else if KeyOf(fields[0].name) == key then Some(fields[0])
    else FieldNamed(fields[1..], key)
  }

  /** One value of an element, rendered with the data set's field of the same name. */
  function ElementPart(ctx: Context, find: ElementFinder, fmt: DateFormatter, d: DatasetView,
                       entry: (ArrayKey, Value), fuel: nat): (r: Result<string>)
    ensures FieldNamed(d.fields, entry.0).None? ==> r == Failure(Error(InvalidArgument, UnknownClassValue))
    ensures FieldNamed(d.fields, entry.0).Some? ==> r == FieldValue(ctx, find, fmt, FieldNamed(d.fields, entry.0).value, entry.1, fuel)
  {
    match FieldNamed(d.fields, entry.0)
    case None =>
      assert UnknownClassValue + GetClass(Scalar(VNull)) == UnknownClassValue;
      Failure(Error(InvalidArgument, UnknownClassValue + GetClass(Scalar(VNull))))
    case Some(f) => FieldValue(ctx, find, fmt, f, entry.1, fuel)
  }

  function ElementParts(ctx: Context, find: ElementFinder, fmt: DateFormatter, d: DatasetView,
                        values: seq<(ArrayKey, Value)>, fuel: nat): (r: Result<seq<string>>)
    ensures r.Success? ==> |r.value| == |values|
    ensures r.Success? ==> forall i :: 0 <= i < |values| ==> ElementPart(ctx, find, fmt, d, values[i], fuel) == Success(r.value[i])
  {
    if values == [] then Success([])
    else
      var init :- ElementParts(ctx, find, fmt, d, values[..|values| - 1], fuel);
      var last :- ElementPart(ctx, find, fmt, d, values[|values| - 1], fuel);
      assert forall i :: 0 <= i < |values| - 1 ==> values[..|values| - 1][i] == values[i];
      Success(init + [last])
  }

  /** valueFilter on a DatasetElement: its values rendered in order, joined with ', '. */
  function ElementValue(ctx: Context, find: ElementFinder, fmt: DateFormatter, e: ElementView, fuel: nat)
    : (r: Result<string>)
    ensures e.values == [] ==> r == Success("")
    ensures e.values != [] && e.dataset.None? ==> r == Failure(Error(Fatal, ElementDatasetNull))
  {
    if e.values == [] then Success("")
    else if e.dataset.None? then Failure(Error(Fatal, ElementDatasetNull))
    else
      var parts :- ElementParts(ctx, find, fmt, e.dataset.value, e.values, fuel);
      Success(Join(parts, ", "))
  }

  /**
   * `valueFilter`: an element's values, a Data's field or a Field; any other value is an
   * InvalidArgumentException. `fuel` bounds the chain of data sets identified through
   * data-set fields.
   */
  function Literal(ctx: Context, find: ElementFinder, fmt: DateFormatter, obj: Mixed, value: Value, fuel: nat)
    : (r: Result<string>)
    ensures obj.FieldObj? ==> r == FieldValue(ctx, find, fmt, obj.field.attrs, value, fuel)
    ensures obj.DataObj? ==> r == FieldValue(ctx, find, fmt, obj.data.field.attrs, value, fuel)
    ensures obj.ElementObj? ==> r == ElementValue(ctx, find, fmt, obj.element, fuel)
    ensures !(obj.FieldObj? || obj.DataObj? || obj.ElementObj?) ==> r == Failure(Error(InvalidArgument, UnknownClassValue + GetClass(obj)))
  {
    match obj
    case ElementObj(e) => ElementValue(ctx, find, fmt, e, fuel)
    case DataObj(d) => FieldValue(ctx, find, fmt, d.field.attrs, value, fuel)
    case FieldObj(f) => FieldValue(ctx, find, fmt, f.attrs, value, fuel)
    case _ => Failure(Error(InvalidArgument, UnknownClassValue + GetClass(obj)))
  }

  /** A boolean field gives TRUE exactly when PHP's boolean filter accepts the value as true. */
  lemma BooleanLiteral(ctx: Context, find: ElementFinder, fmt: DateFormatter, f: FieldAttrs, value: Value, fuel: nat)
    requires IsBoolean(f) && !f.list
    ensures FieldValue(ctx, find, fmt, f, value, fuel) == Success(if FilterBool(value) == Some(true) then "TRUE" else "FALSE")
  {
    TemporalPredicatesMatchClasses(f);
    hide ClassOf;
    assert Render(ctx, find, fmt, f.fieldType, value, fuel) == Success(VString(if FilterBool(value) == Some(true) then "TRUE" else "FALSE"));
  }

  /** A string field quotes the text of a value that is not a DateTime. */
  lemma StringLiteral(ctx: Context, find: ElementFinder, fmt: DateFormatter, f: FieldAttrs, value: Value, fuel: nat)
    requires IsString(f) && !f.list && !value.VDateTime?
    ensures FieldValue(ctx, find, fmt, f, value, fuel) == Success(Quoted(StringOf(value).value))
  {
    StringPredicateMatchesClass(f);
    hide ClassOf;
    assert Render(ctx, find, fmt, f.fieldType, value, fuel) == Success(VString(Quoted(StringOf(value).value)));
  }

  /** An integer, long, float or double field writes the value as PHP converts it to a string. */
  lemma NumberLiteral(ctx: Context, find: ElementFinder, fmt: DateFormatter, f: FieldAttrs, value: Value, fuel: nat)
    requires ClassOf(f.fieldType) in {IntegerClass, LongClass, FloatClass, DoubleClass} && !f.list
    ensures FieldValue(ctx, find, fmt, f, value, fuel) == Datasets.ReturnString(value)
  {
    hide ClassOf;
    assert Render(ctx, find, fmt, f.fieldType, value, fuel) == Success(value);
  }

  /** A list field writes the same literal in brackets, and even a null value then gives '[]'. */
  lemma ListLiteral(ctx: Context, find: ElementFinder, fmt: DateFormatter, f: FieldAttrs, value: Value, fuel: nat)
    requires FieldValue(ctx, find, fmt, f.(list := false), value, fuel).Success?
    ensures FieldValue(ctx, find, fmt, f.(list := true), value, fuel) ==
            Success("[" + FieldValue(ctx, find, fmt, f.(list := false), value, fuel).value + "]")
  {
  }

  /**
   * A value of a data-set field is written as the identifier value of the element found
   * for it, with the data set's identifier field.
   */
  lemma DatasetLiteral(ctx: Context, find: ElementFinder, fmt: DateFormatter, f: FieldAttrs, value: Value, fuel: nat)
    requires ClassOf(f.fieldType) == OtherClass && !f.list && fuel > 0
    requires ctx.package.Some? && !InModels(f, ctx.package.value) && InDatasets(f, ctx.package.value)
    requires var d := Get(ctx.package.value.datasets, f.fieldType).value;
             find(d, value).Some? && d.identifier.Some?
    ensures var d := Get(ctx.package.value.datasets, f.fieldType).value;
            FieldValue(ctx, find, fmt, f, value, fuel) ==
            FieldValue(ctx, find, fmt, d.identifier.value, Datasets.Lookup(find(d, value).value, d.identifier.value.name), fuel - 1)
  {
    hide ClassOf;
  }

  /**
   * The InvalidArgumentExceptions of valueFilter: a model type, a data-set value with no
   * element, a type that is neither native nor known to the bundle, and a value that is not
   * a Field, a Data or an element.
   */
  lemma RejectedLiterals(ctx: Context, find: ElementFinder, fmt: DateFormatter, f: FieldAttrs, value: Value, fuel: nat)
    requires ClassOf(f.fieldType) == OtherClass && ctx.package.Some?
    ensures InModels(f, ctx.package.value) ==>
              FieldValue(ctx, find, fmt, f, value, fuel) == Failure(Error(InvalidArgument, BusinessModelValue + f.fieldType))
    ensures !InModels(f, ctx.package.value) && !InDatasets(f, ctx.package.value) ==>
              FieldValue(ctx, find, fmt, f, value, fuel) == Failure(Error(InvalidArgument, UnknownTypeValue + f.fieldType))
    ensures !InModels(f, ctx.package.value) && InDatasets(f, ctx.package.value) && value.VString? &&
            find(Get(ctx.package.value.datasets, f.fieldType).value, value).None? ==>
              FieldValue(ctx, find, fmt, f, value, fuel) ==
              Failure(Error(InvalidArgument, "Cannot find element " + value.s + " in Dataset " +
                                             Get(ctx.package.value.datasets, f.fieldType).value.name))
  {
    hide ClassOf;
  }

  lemma ElementPartsSnoc(ctx: Context, find: ElementFinder, fmt: DateFormatter, d: DatasetView,
                         values: seq<(ArrayKey, Value)>, fuel: nat, i: nat)
    requires i < |values| && ElementParts(ctx, find, fmt, d, values[..i], fuel).Success?
    requires ElementPart(ctx, find, fmt, d, values[i], fuel).Success?
    ensures ElementParts(ctx, find, fmt, d, values[..i + 1], fuel) ==
            Success(ElementParts(ctx, find, fmt, d, values[..i], fuel).value + [ElementPart(ctx, find, fmt, d, values[i], fuel).value])
  {
    assert values[..i + 1][..i] == values[..i];
  }

  lemma {:induction false} ElementPartsFailAt(ctx: Context, find: ElementFinder, fmt: DateFormatter, d: DatasetView,
                                              values: seq<(ArrayKey, Value)>, fuel: nat, i: nat)
    requires i < |values| && ElementParts(ctx, find, fmt, d, values[..i], fuel).Success?
    requires ElementPart(ctx, find, fmt, d, values[i], fuel).Failure?
    ensures ElementParts(ctx, find, fmt, d, values, fuel) == Failure(ElementPart(ctx, find, fmt, d, values[i], fuel).error)
    decreases |values|
  {
    if i + 1 < |values| {
      var init := values[..|values| - 1];
      assert init[..i] == values[..i] && init[i] == values[i];
      ElementPartsFailAt(ctx, find, fmt, d, init, fuel, i);
    } else {
      assert values[..|values| - 1] == values[..i];
    }
  }

  /** valueFilter on a DatasetElement as the source runs it: a loop over the element's values. */
  method RunElementValue(ctx: Context, find: ElementFinder, fmt: DateFormatter, e: ElementView, fuel: nat)
    returns (r: Result<string>)
    ensures r == ElementValue(ctx, find, fmt, e, fuel)
  {
    var values := e.values;
    if values == [] {
      return Success("");
    }
    if e.dataset.None? {
      return Failure(Error(Fatal, ElementDatasetNull));
    }
    var d := e.dataset.value;
    assert ElementParts(ctx, find, fmt, d, values[..0], fuel) == Success([]);
    var literals := "";
    var i := 0;
    while i < |values|
      invariant 0 <= i <= |values|
      invariant ElementParts(ctx, find, fmt, d, values[..i], fuel).Success?
      invariant literals == Join(ElementParts(ctx, find, fmt, d, values[..i], fuel).value, ", ")
    {
      var part := ElementPart(ctx, find, fmt, d, values[i], fuel);
      if part.Failure? {
        ElementPartsFailAt(ctx, find, fmt, d, values, fuel, i);
        return Failure(part.error);
      }
      ElementPartsSnoc(ctx, find, fmt, d, values, fuel, i);
      JoinSnoc(ElementParts(ctx, find, fmt, d, values[..i], fuel).value, part.value, ", ");
      if i > 0 {
        literals := literals + ", ";
      }
      literals := literals + part.value;
      i := i + 1;
    }
    assert values[..i] == values;
    r := Success(literals);
  }

  // ---------------------------------------------------------------------------------
  // Functions

  /** The fields of a model that are stored in its table: those that are not lists, in order. */
  function StoredFields(fs: seq<FieldView>): (r: seq<FieldView>)
    ensures forall f :: f in r <==> f in fs && !f.attrs.list
    ensures |r| <= |fs|
  {
    if fs == [] then []
    else
      var init := StoredFields(fs[..|fs| - 1]);
      assert forall i :: 0 <= i < |fs| - 1 ==> fs[..|fs| - 1][i] == fs[i];
      assert fs == fs[..|fs| - 1] + [fs[|fs| - 1]];
      if fs[|fs| - 1].attrs.list then init else init + [fs[|fs| - 1]]
  }

  /**
   * `databaseFieldsFunction`: a model's non-list fields, all the fields of a data set, and
   * nothing for anything else.
   */
  function DatabaseFields(obj: Mixed): (r: seq<FieldView>)
    ensures obj.ModelObj? ==> forall f :: f in r <==> f in obj.model.fields && !f.attrs.list
    ensures obj.DatasetObj? ==> (|r| == |obj.dataset.fields| &&
                                 forall i :: 0 <= i < |r| ==> r[i] == FieldView(obj.dataset.fields[i], None))
    ensures !obj.ModelObj? && !obj.DatasetObj? ==> r == []
  {
    match obj
    case ModelObj(m) => StoredFields(m.fields)
    case DatasetObj(d) => seq(|d.fields|, i requires 0 <= i < |d.fields| => FieldView(d.fields[i], None))
    case _ => []
  }
}
