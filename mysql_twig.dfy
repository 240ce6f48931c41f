/**
 * The MySQL flavour of the SQL filters (src/Twig/MySqlTwigExtension.php): column
 * attributes, column types, and index columns with key prefixes on string columns.
 */
module MySqlTwig {
  import opened Wrappers
  import opened PhpStrings
  import opened FieldHelper
  import opened Inflection
  import opened TwigValues
  import DatabaseAdapter
  import RelationalAdapter
  import SqlTwig

  const AttributesUnsupported := "Attributes can only generated for Field or Index instances"
  const ListTypeUnsupported := "List types are not implemented yet for MySQL"
  const TypeUnsupported := "MySqlTwigExtension only map types for Field objects"
  const RemoteSideNull := "Call to a member function getBusinessModel() on null"
  const Collate := " COLLATE ascii_general_ci"

  // ---------------------------------------------------------------------------------
  // Attributes

  /** `[COMMENT 'string']` of an index: its description with quotes doubled, unless empty. */
  function IndexAttributes(ix: IndexView): (r: string)
    ensures IsEmpty(ix.description) <==> r == ""
  {
    if IsEmpty(ix.description) then "" else "COMMENT '" + DoubleQuotes(ix.description) + "'"
  }

  /** MySQL reads an index comment back as the index's description. */
  lemma IndexCommentRoundTrip(ix: IndexView)
    requires !IsEmpty(ix.description)
    ensures var r := IndexAttributes(ix);
            "COMMENT '" <= r && r[|r| - 1] == '\'' && UndoubleQuotes(r[9..|r| - 1]) == ix.description
  {
    var r := IndexAttributes(ix);
    assert r[9..|r| - 1] == DoubleQuotes(ix.description);
    DoubleQuotesRoundTrip(ix.description);
  }

  /** `[NOT NULL | NULL]`. */
  function Nullability(f: FieldAttrs): string
  {
    if f.mandatory then " NOT NULL" else " NULL"
  }

  /**
   * `[DEFAULT ...]`: the managed timestamps first, then a default that is not empty in PHP's
   * sense (quoted for a string field), then NULL for an optional field.
   */
  function DefaultClause(f: FieldAttrs): (r: string)
    ensures r == "" <==> f.mandatory && !IsBusinessModelCreatedTimestamp(f) && !IsBusinessModelUpdatedTimestamp(f) &&
                         (f.default.None? || IsEmpty(f.default.value))
  {
    if IsBusinessModelCreatedTimestamp(f) then " DEFAULT CURRENT_TIMESTAMP"
    else if IsBusinessModelUpdatedTimestamp(f) then " DEFAULT CURRENT_TIMESTAMP ON UPDATE CURRENT_TIMESTAMP"
    else if f.default.Some? && !IsEmpty(f.default.value) then
      if IsString(f) then " DEFAULT '" + f.default.value + "'" else " DEFAULT " + f.default.value
    else if !f.mandatory then " DEFAULT NULL"
    else ""
  }

  /** A managed timestamp's DEFAULT does not depend on the default the field declares. */
  lemma TimestampDefaultWins(f: FieldAttrs, d: Option<string>)
    requires IsBusinessModelCreatedTimestamp(f) || IsBusinessModelUpdatedTimestamp(f)
    ensures DefaultClause(f.(default := d)) == DefaultClause(f)
    ensures IsBusinessModelCreatedTimestamp(f) ==> DefaultClause(f) == " DEFAULT CURRENT_TIMESTAMP"
  {
    TimestampsExclusive(f);
  }

  /** A default of '0' is empty to PHP, so it is written as no default at all. */
  lemma ZeroDefaultIsNoDefault(f: FieldAttrs)
    ensures DefaultClause(f.(default := Some("0"))) == DefaultClause(f.(default := None))
    ensures f.mandatory && !IsBusinessModelCreatedTimestamp(f) && !IsBusinessModelUpdatedTimestamp(f) ==>
              DefaultClause(f.(default := Some("0"))) == ""
  {
  }

  /** `[COMMENT 'string']` of a field. */
  function CommentClause(f: FieldAttrs): string
  {
    if IsEmpty(f.description) then "" else " COMMENT '" + DoubleQuotes(f.description) + "'"
  }

  /**
   * `[COLLATE collation_name]`: ASCII for an ASCII string field, and for a foreign key whose
   * remote model's identifier is an ASCII string.
   */
  function Collation(f: FieldView): (r: Result<string>)
    ensures IsAsciiString(f.attrs) ==> r == Success(Collate)
    ensures r.Success? ==> r.value in {"", Collate}
  {
    if IsAsciiString(f.attrs) then Success(Collate)
    else match f.relation
      case None => Success("")
      case Some(s) =>
        if s.relType.None? then Failure(Error(Fatal, DatabaseAdapter.RelationshipUnset))
        else if !RelationalAdapter.ForeignKeyAllowed(s.relType.value, s.side) then Success("")
        else if s.remote.None? then Failure(Error(Fatal, RemoteSideNull))
        else if s.remote.value.identifier.None? then
          Failure(TypeMismatch("CodePrimer\\Helper\\FieldHelper::isAsciiString", "1", "CodePrimer\\Model\\Field"))
        else Success(if IsAsciiString(s.remote.value.identifier.value) then Collate else "")
  }

  /** A foreign-key column is collated as the identifier it refers to. */
  lemma ForeignKeyCollatedAsKey(f: FieldView)
    requires !IsAsciiString(f.attrs) && f.relation.Some? && f.relation.value.relType.Some?
    requires RelationalAdapter.ForeignKeyAllowed(f.relation.value.relType.value, f.relation.value.side)
    requires f.relation.value.remote.Some? && f.relation.value.remote.value.identifier.Some?
    ensures Collation(f) == Collation(FieldView(f.relation.value.remote.value.identifier.value, None))
  {
  }

  /** `fieldAttributesFilter`: the clauses in MySQL's order, trimmed. */
  function FieldAttributes(f: FieldView): (r: Result<string>)
  {
    var collation :- Collation(f);
    var a := f.attrs;
    Success(Trim(Nullability(a) + DefaultClause(a) + (if IsAutoIncrement(a) then " AUTO_INCREMENT" else "") +
                 CommentClause(a) + collation))
  }

  /** fieldAttributesFilter as the source runs it, appending one clause at a time. */
  method RunFieldAttributes(f: FieldView) returns (r: Result<string>)
    ensures r == FieldAttributes(f)
  {
    hide DefaultClause, IsAutoIncrement, Trim, DoubleQuotes, Collation, IsBusinessModelCreatedTimestamp,
      IsBusinessModelUpdatedTimestamp, IsString;
    var a := f.attrs;
    var value := "";
    if a.mandatory {
      value := value + " NOT NULL";
    } else {
      value := value + " NULL";
    }
    assert value == Nullability(a);
    value := AppendDefault(a, value);
    ghost var before := value;
    if IsAutoIncrement(a) {
      value := value + " AUTO_INCREMENT";
    }
    assert value == before + (if IsAutoIncrement(a) then " AUTO_INCREMENT" else "");
    ghost var middle := value;
    if !IsEmpty(a.description) {
      value := value + " COMMENT '" + DoubleQuotes(a.description) + "'";
    }
    assert value == middle + CommentClause(a);
    var collation := Collation(f);
    if collation.Failure? {
      return Failure(collation.error);
    }
    value := value + collation.value;
    r := Success(Trim(value));
  }

  /** The `[DEFAULT ...]` step of fieldAttributesFilter. */
  method AppendDefault(a: FieldAttrs, value: string) returns (r: string)
    ensures r == value + DefaultClause(a)
  {
    r := value;
    if IsBusinessModelCreatedTimestamp(a) {
      r := r + " DEFAULT CURRENT_TIMESTAMP";
    } else if IsBusinessModelUpdatedTimestamp(a) {
      r := r + " DEFAULT CURRENT_TIMESTAMP ON UPDATE CURRENT_TIMESTAMP";
    } else if a.default.Some? && !IsEmpty(a.default.value) {
      if IsString(a) {
        r := r + " DEFAULT '" + a.default.value + "'";
      } else {
        r := r + " DEFAULT " + a.default.value;
      }
    } else if !a.mandatory {
      r := r + " DEFAULT NULL";
    }
  }

  /**
   * The attributes always open with the nullability of the column: 'NOT NULL' for a
   * mandatory field and 'NULL' for an optional one.
   */
  lemma AttributesOpenWithNullability(f: FieldView)
    requires FieldAttributes(f).Success?
    ensures f.attrs.mandatory ==> "NOT NULL" <= FieldAttributes(f).value
    ensures !f.attrs.mandatory ==> "NULL" <= FieldAttributes(f).value && !("NOT NULL" <= FieldAttributes(f).value)
  {
    var rest := AttributesShape(f);
    var v := FieldAttributes(f).value;
    NullWords();
    hide *;
    if f.attrs.mandatory {
      TrimAfterOneSpace("NOT NULL", rest);
    } else {
      TrimAfterOneSpace("NULL", rest);
      assert v[1] == "NULL"[1];
    }
  }

  /** The letters of the two nullability words that the lemma above looks at. */
  lemma NullWords()
    ensures |"NOT NULL"| == 8 && "NOT NULL"[0] == 'N' && "NOT NULL"[1] == 'O' && "NOT NULL"[7] == 'L'
    ensures |"NULL"| == 4 && "NULL"[0] == 'N' && "NULL"[1] == 'U' && "NULL"[3] == 'L'
    ensures 'N' !in Whitespace && 'L' !in Whitespace
  {
  }

  lemma NullabilityWord(a: FieldAttrs)
    ensures Nullability(a) == " " + (if a.mandatory then "NOT NULL" else "NULL")
  {
  }

  /** The attributes are the trimmed nullability word, after one space, and the rest. */
  lemma AttributesShape(f: FieldView) returns (rest: string)
    requires FieldAttributes(f).Success?
    ensures FieldAttributes(f).value == Trim(" " + (if f.attrs.mandatory then "NOT NULL" else "NULL") + rest)
  {
    var a := f.attrs;
    var w := if a.mandatory then "NOT NULL" else "NULL";
    var d, inc, cc, c := DefaultClause(a), (if IsAutoIncrement(a) then " AUTO_INCREMENT" else ""), CommentClause(a), Collation(f).value;
    assert FieldAttributes(f).value == Trim(Nullability(a) + d + inc + cc + c);
    NullabilityWord(a);
    hide *;
    rest := d + inc + cc + c;
    ClausesAfterWord(" " + w, d, inc, cc, c);
  }

  lemma ClausesAfterWord(head: string, d: string, inc: string, cc: string, c: string)
    ensures head + d + inc + cc + c == head + (d + inc + cc + c)
  {
  }

  lemma TrimBothEnds(s: string)
    ensures Trim(s) == LTrim(RTrim(s, Whitespace), Whitespace)
  {
  }

  /** Trimming a text that opens with one space and a word keeps the word at the start. */
  lemma TrimAfterOneSpace(w: string, rest: string)
    requires |w| > 0 && w[0] !in Whitespace && w[|w| - 1] !in Whitespace
    ensures w <= Trim(" " + w + rest)
  {
    hide Trim, RTrim, LTrim;
    var s := " " + w + rest;
    TrimBothEnds(s);
    var t := RTrim(s, Whitespace);
    assert s[|w|] == w[|w| - 1];
    assert |t| > |w|;
    assert t[0] == ' ' && t[1] == w[0];
    var u := LTrim(t, Whitespace);
    assert t[0] in Whitespace && t[1] !in Whitespace;
    assert |t| - |u| == 1;
    assert forall i :: 0 <= i < |w| ==> u[i] == s[i + 1] == w[i];
  }

  /** `attributesFilter`: a Field's column attributes or an Index's; anything else is rejected. */
  function Attributes(obj: Mixed): (r: Result<string>)
    ensures obj.FieldObj? ==> r == FieldAttributes(obj.field)
    ensures obj.IndexObj? ==> r == Success(IndexAttributes(obj.index))
    ensures !obj.FieldObj? && !obj.IndexObj? ==> r == Failure(Error(Runtime, AttributesUnsupported))
  {
    match obj
    case FieldObj(f) => FieldAttributes(f)
    case IndexObj(ix) => Success(IndexAttributes(ix))
    case _ => Failure(Error(Runtime, AttributesUnsupported))
  }

  // ---------------------------------------------------------------------------------
  // Types

  /** The MySQL type of each native family (OtherClass is never looked up). */
  function NativeType(c: TypeClass, lower: string): string
  {
    match c
    case BooleanClass => "TINYINT(1)"
    case DateClass => "DATE"
    case TimeClass => "TIME"
    case DateTimeClass => "DATETIME"
    case IntegerClass => "INT"
    case LongClass => "BIGINT"
    case FloatClass => "FLOAT"
    case PriceClass => "DECIMAL(12,2)"
    case DoubleClass => if lower == DECIMAL then "DECIMAL(14,4)" else "DOUBLE"
    case StringClass =>
      if lower == PHONE then "CHAR(15)"
      else if lower == UUID then "CHAR(36)"
      else if lower == TEXT then "LONGTEXT"
      else "VARCHAR(255)"
    case OtherClass => ""
  }

  /**
   * typeFilter on a Field: lists are rejected; a native type maps through the table; a
   * foreign key takes the type of the identifier of the model it refers to; any other type
   * is not supported.
   */
  function FieldType(f: FieldView): (r: Result<string>)
    ensures f.attrs.list ==> r == Failure(Error(Runtime, ListTypeUnsupported))
    ensures !f.attrs.list && ClassOf(f.attrs.fieldType) != OtherClass ==>
              r == Success(NativeType(ClassOf(f.attrs.fieldType), Lower(f.attrs.fieldType)))
    decreases if f.relation.Some? then 1 else 0
  {
    var a := f.attrs;
    if a.list then Failure(Error(Runtime, ListTypeUnsupported))
    else if ClassOf(a.fieldType) != OtherClass then Success(NativeType(ClassOf(a.fieldType), Lower(a.fieldType)))
    else
      var unsupported := Failure(Error(Runtime, "Support for type " + a.fieldType + " is not implemented yet for MySQL"));
      match f.relation
      case None => unsupported
      case Some(s) =>
        if s.relType.None? then Failure(Error(Fatal, DatabaseAdapter.RelationshipUnset))
        else if !RelationalAdapter.ForeignKeyAllowed(s.relType.value, s.side) then unsupported
        else if s.remote.None? then Failure(Error(Fatal, RemoteSideNull))
        else if s.remote.value.identifier.None? then Failure(Error(Runtime, TypeUnsupported))
        else FieldType(FieldView(s.remote.value.identifier.value, None))
  }

  /** `typeFilter`: only a Field has a MySQL type; not even a Data. */
  function Type(obj: Mixed): (r: Result<string>)
    ensures obj.FieldObj? ==> r == FieldType(obj.field)
    ensures !obj.FieldObj? ==> r == Failure(Error(Runtime, TypeUnsupported))
  {
    if obj.FieldObj? then FieldType(obj.field) else Failure(Error(Runtime, TypeUnsupported))
  }

  /** Every single-valued field of a native type has a MySQL type. */
  lemma NativeTypesMapped(f: FieldView)
    requires !f.attrs.list && IsNativeType(f.attrs)
    ensures FieldType(f).Success? && FieldType(f).value != ""
  {
    hide Lower;
    NativeTypesClassified(f.attrs.fieldType);
  }

  /**
   * A foreign-key column has the type of the identifier it refers to, so both ends of the
   * key are declared alike.
   */
  lemma ForeignKeyTypedAsKey(f: FieldView)
    requires !f.attrs.list && ClassOf(f.attrs.fieldType) == OtherClass
    requires f.relation.Some? && f.relation.value.relType.Some?
    requires RelationalAdapter.ForeignKeyAllowed(f.relation.value.relType.value, f.relation.value.side)
    requires f.relation.value.remote.Some? && f.relation.value.remote.value.identifier.Some?
    ensures FieldType(f) == FieldType(FieldView(f.relation.value.remote.value.identifier.value, None))
  {
  }

  /** A type that is neither native nor a foreign key is not supported, and the message names it. */
  lemma UnsupportedTypeNamed(f: FieldView)
    requires !f.attrs.list && ClassOf(f.attrs.fieldType) == OtherClass && f.relation.None?
    ensures FieldType(f) == Failure(Error(Runtime, "Support for type " + f.attrs.fieldType + " is not implemented yet for MySQL"))
  {
  }

  // ---------------------------------------------------------------------------------
  // Columns

  /** Key prefix lengths: string columns other than phones, UUIDs and texts are indexed on 20 characters. */
  predicate Prefixed(f: FieldAttrs)
  {
    IsString(f) && Lower(f.fieldType) !in {PHONE, UUID, TEXT}
  }

  /** One column of a MySQL index. */
  function IndexPart(inf: Inflector, f: FieldView): (r: Result<string>)
    ensures r.Success? <==> SqlTwig.FieldColumn(inf, f).Success?
    ensures r.Success? ==> r.value == SqlTwig.FieldColumn(inf, f).value + (if Prefixed(f.attrs) then "(20)" else "")
  {
    var column :- SqlTwig.FieldColumn(inf, f);
    Success(if Prefixed(f.attrs) then column + "(20)" else column)
  }

  function IndexParts(inf: Inflector, fs: seq<FieldView>): (r: Result<seq<string>>)
    ensures r.Success? ==> |r.value| == |fs|
    ensures r.Success? ==> forall i :: 0 <= i < |fs| ==> IndexPart(inf, fs[i]) == Success(r.value[i])
  {
    if fs == [] then Success([])
    else
      var init :- IndexParts(inf, fs[..|fs| - 1]);
      var last :- IndexPart(inf, fs[|fs| - 1]);
      assert forall i :: 0 <= i < |fs| - 1 ==> fs[..|fs| - 1][i] == fs[i];
      Success(init + [last])
  }

  /**
   * `columnFilter`: an Index's columns with their prefix lengths, joined with ','; an array
   * goes through the parent's filter, which comes back here for each item; anything else is
   * the parent's.
   */
  function Column(inf: Inflector, obj: Mixed): (r: Result<string>)
    decreases obj
  {
    match obj
    case IndexObj(ix) =>
      var cs :- IndexParts(inf, ix.fields);
      Success(Join(cs, ","))
    case Items(items) =>
      var cs :- QuotedColumns(inf, items);
      Success(Join(cs, ", "))
    case _ => SqlTwig.Column(inf, obj)
  }

  /**
   * What the MySQL columnFilter gives, case by case: an Index's columns with their prefix
   * lengths joined with ',', an array's items under these rules joined with ', ', and the
   * generic SQL column for anything else.
   */
  lemma ColumnCases(inf: Inflector, obj: Mixed, r: Result<string>)
    requires r == Column(inf, obj)
    ensures obj.IndexObj? ==> (r.Success? <==> IndexParts(inf, obj.index.fields).Success?)
    ensures obj.IndexObj? && r.Success? ==> r.value == Join(IndexParts(inf, obj.index.fields).value, ",")
    ensures obj.IndexObj? && r.Failure? ==> r.error == IndexParts(inf, obj.index.fields).error
    ensures obj.Items? ==> (r.Success? <==> QuotedColumns(inf, obj.items).Success?)
    ensures obj.Items? && r.Success? ==> r.value == Join(QuotedColumns(inf, obj.items).value, ", ")
    ensures obj.Items? && r.Failure? ==> r.error == QuotedColumns(inf, obj.items).error
    ensures !obj.IndexObj? && !obj.Items? ==> r == SqlTwig.Column(inf, obj)
  {
  }

  function QuotedColumns(inf: Inflector, items: seq<Mixed>): (r: Result<seq<string>>)
    ensures r.Success? ==> |r.value| == |items|
    decreases items
  {
    if items == [] then Success([])
    else
      var init :- QuotedColumns(inf, items[..|items| - 1]);
      var last :- Column(inf, items[|items| - 1]);
      Success(init + ["`" + last + "`"])
  }

  /** Outside indexes, MySQL names a column as SQL at large does. */
  lemma ColumnAgreesOutsideIndexes(inf: Inflector, obj: Mixed)
    requires !obj.IndexObj? && !obj.Items?
    ensures Column(inf, obj) == SqlTwig.Column(inf, obj)
  {
  }

  /**
   * An array of items none of which is an Index gets the same columns as SQL at large gives
   * it: MySQL differs only where an Index occurs.
   */
  lemma {:induction false} ItemsAgreeWithoutIndexes(inf: Inflector, items: seq<Mixed>)
    requires forall i :: 0 <= i < |items| ==> !items[i].IndexObj? && !items[i].Items?
    ensures QuotedColumns(inf, items) == SqlTwig.QuotedColumns(inf, items)
  {
    if items != [] {
      ItemsAgreeWithoutIndexes(inf, items[..|items| - 1]);
      ColumnAgreesOutsideIndexes(inf, items[|items| - 1]);
    }
  }

  lemma IndexPartsSnoc(inf: Inflector, fs: seq<FieldView>, i: nat)
    requires i < |fs| && IndexParts(inf, fs[..i]).Success? && IndexPart(inf, fs[i]).Success?
    ensures IndexParts(inf, fs[..i + 1]) == Success(IndexParts(inf, fs[..i]).value + [IndexPart(inf, fs[i]).value])
  {
    assert fs[..i + 1][..i] == fs[..i];
  }

  lemma {:induction false} IndexPartsFailAt(inf: Inflector, fs: seq<FieldView>, i: nat)
    requires i < |fs| && IndexParts(inf, fs[..i]).Success? && IndexPart(inf, fs[i]).Failure?
    ensures IndexParts(inf, fs) == Failure(IndexPart(inf, fs[i]).error)
    decreases |fs|
  {
    if i + 1 < |fs| {
      var init := fs[..|fs| - 1];
      assert init[..i] == fs[..i] && init[i] == fs[i];
      IndexPartsFailAt(inf, init, i);
    } else {
      assert fs[..|fs| - 1] == fs[..i];
    }
  }

  lemma QuotedColumnsSnoc(inf: Inflector, items: seq<Mixed>, i: nat)
    requires i < |items| && QuotedColumns(inf, items[..i]).Success? && Column(inf, items[i]).Success?
    ensures QuotedColumns(inf, items[..i + 1]) ==
            Success(QuotedColumns(inf, items[..i]).value + ["`" + Column(inf, items[i]).value + "`"])
  {
    assert items[..i + 1][..i] == items[..i];
  }

  lemma {:induction false} QuotedColumnsFailAt(inf: Inflector, items: seq<Mixed>, i: nat)
    requires i < |items| && QuotedColumns(inf, items[..i]).Success? && Column(inf, items[i]).Failure?
    ensures QuotedColumns(inf, items) == Failure(Column(inf, items[i]).error)
    decreases |items|
  {
    if i + 1 < |items| {
      var init := items[..|items| - 1];
      assert init[..i] == items[..i] && init[i] == items[i];
      QuotedColumnsFailAt(inf, init, i);
    } else {
      assert items[..|items| - 1] == items[..i];
    }
  }

  /** columnFilter as the source runs it. */
  method RunColumn(inf: Inflector, obj: Mixed) returns (r: Result<string>)
    ensures r == Column(inf, obj)
    decreases obj
  {
    match obj {
      case IndexObj(ix) =>
        r := RunIndexColumns(inf, ix.fields);
      case Items(items) =>
        r := RunItemColumns(inf, items);
      case _ =>
        r := SqlTwig.RunColumn(inf, obj);
    }
  }

  /** The loop over an Index's fields, sizing string columns as it goes. */
  method RunIndexColumns(inf: Inflector, fs: seq<FieldView>) returns (r: Result<string>)
    ensures r == Column(inf, IndexObj(IndexView("", fs, "")))
  {
    assert IndexParts(inf, fs[..0]) == Success([]);
    var columns := "";
    var i := 0;
    while i < |fs|
      invariant 0 <= i <= |fs|
      invariant IndexParts(inf, fs[..i]).Success?
      invariant columns == Join(IndexParts(inf, fs[..i]).value, ",")
    {
      var size := Prefixed(fs[i].attrs);
      var column := SqlTwig.FieldColumn(inf, fs[i]);
      if column.Failure? {
        IndexPartsFailAt(inf, fs, i);
        return Failure(column.error);
      }
      var part := if size then column.value + "(20)" else column.value;
      IndexPartsSnoc(inf, fs, i);
      JoinSnoc(IndexParts(inf, fs[..i]).value, part, ",");
      if i > 0 {
        columns := columns + ",";
      }
      columns := columns + part;
      i := i + 1;
    }
    assert fs[..i] == fs;
    r := Success(columns);
  }

  /** The parent's loop over an array, calling back into this filter for each item. */
  method RunItemColumns(inf: Inflector, items: seq<Mixed>) returns (r: Result<string>)
    ensures r == Column(inf, Items(items))
    decreases items
  {
    assert QuotedColumns(inf, items[..0]) == Success([]);
    var columns := "";
    var i := 0;
    while i < |items|
      invariant 0 <= i <= |items|
      invariant QuotedColumns(inf, items[..i]).Success?
      invariant columns == Join(QuotedColumns(inf, items[..i]).value, ", ")
    {
      var c := RunColumn(inf, items[i]);
      if c.Failure? {
        QuotedColumnsFailAt(inf, items, i);
        return Failure(c.error);
      }
      QuotedColumnsSnoc(inf, items, i);
      JoinSnoc(QuotedColumns(inf, items[..i]).value, "`" + c.value + "`", ", ");
      if i > 0 {
        columns := columns + ", ";
      }
      columns := columns + "`" + c.value + "`";
      i := i + 1;
    }
    assert items[..i] == items;
    r := Success(columns);
  }
}
