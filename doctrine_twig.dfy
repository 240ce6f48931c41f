/**
 * The Doctrine ORM flavour of the PHP filters (src/Twig/DoctrineOrmTwigExtension.php): the
 * collectionUsed test, the annotations of an entity and of a field, and the Collection
 * type of a to-many relation.
 */
module DoctrineTwig {
  import opened Wrappers
  import opened PhpStrings
  import opened FieldHelper
  import opened Inflection
  import opened TwigValues
  import opened PhpValues
  import Model
  import DatabaseAdapter
  import RelationalAdapter
  import ModelHelpers
  import SqlTwig
  import PhpTwig

  // ---------------------------------------------------------------------------------
  // collectionUsed

  /** Whether one relation needs a Doctrine Collection: many-to-many, or the left of one-to-many. */
  function NeedsCollection(s: SideView): (r: Result<bool>)
    ensures s.relType.None? <==> r.Failure?
    ensures r.Success? ==> (r.value <==> !RelationalAdapter.ForeignKeyAllowed(s.relType.value, s.side))
  {
    if s.relType.None? then Failure(Error(Fatal, DatabaseAdapter.RelationshipUnset))
    else Success(s.relType.value == Model.MANY_TO_MANY || (s.relType.value == Model.ONE_TO_MANY && s.side == Some(Model.LEFT)))
  }

  /** The loop of collectionUsedTest: the first relation that needs a Collection ends it. */
  function AnyNeedsCollection(rels: seq<SideView>): (r: Result<bool>)
  {
    if rels == [] then Success(false)
    else
      var b :- NeedsCollection(rels[0]);
      if b then Success(true) else AnyNeedsCollection(rels[1..])
  }

  /**
   * `collectionUsedTest`: an entity uses a Collection when one of its relations needs one;
   * a field when it is a list with a relation; nothing else does.
   */
  function CollectionUsed(obj: Mixed): (r: Result<bool>)
    ensures obj.EntityObj? ==> r == AnyNeedsCollection(Relations(obj.entity.fields))
    ensures obj.FieldObj? ==> r == Success(obj.field.attrs.list && obj.field.relation.Some?)
    ensures !obj.EntityObj? && !obj.FieldObj? ==> r == Success(false)
  {
    match obj
    case EntityObj(e, _) => AnyNeedsCollection(Relations(e.fields))
    case FieldObj(f) => Success(f.attrs.list && f.relation.Some?)
    case _ => Success(false)
  }

  predicate AllSet(rels: seq<SideView>)
  {
    forall i :: 0 <= i < |rels| ==> rels[i].relType.Some?
  }

  /**
   * Once every relation has a relationship, an entity uses a Collection exactly when one of
   * its relations is a side the relational adapter gives no foreign key to.
   */
  lemma {:induction false} CollectionUsedMeans(rels: seq<SideView>)
    requires AllSet(rels)
    ensures AnyNeedsCollection(rels) ==
            Success(exists i :: 0 <= i < |rels| && !RelationalAdapter.ForeignKeyAllowed(rels[i].relType.value, rels[i].side))
  {
    if rels != [] {
      assert AllSet(rels[1..]) by {
        forall i | 0 <= i < |rels[1..]| ensures rels[1..][i].relType.Some? {
          assert rels[1..][i] == rels[i + 1];
        }
      }
      CollectionUsedMeans(rels[1..]);
      if !RelationalAdapter.ForeignKeyAllowed(rels[0].relType.value, rels[0].side) {
        assert AnyNeedsCollection(rels) == Success(true);
      } else {
        assert AnyNeedsCollection(rels) == AnyNeedsCollection(rels[1..]);
        if exists i :: 0 <= i < |rels| && !RelationalAdapter.ForeignKeyAllowed(rels[i].relType.value, rels[i].side) {
          var i :| 0 <= i < |rels| && !RelationalAdapter.ForeignKeyAllowed(rels[i].relType.value, rels[i].side);
          assert rels[1..][i - 1] == rels[i];
        }
        if exists i :: 0 <= i < |rels[1..]| && !RelationalAdapter.ForeignKeyAllowed(rels[1..][i].relType.value, rels[1..][i].side) {
          var i :| 0 <= i < |rels[1..]| && !RelationalAdapter.ForeignKeyAllowed(rels[1..][i].relType.value, rels[1..][i].side);
          assert rels[1..][i] == rels[i + 1];
        }
      }
    }
  }

  /** collectionUsedTest as the source runs it: a loop over the entity's relations, left at the first hit. */
  method RunCollectionUsed(obj: Mixed) returns (r: Result<bool>)
    ensures r == CollectionUsed(obj)
  {
    r := Success(false);
    if obj.EntityObj? {
      var relations := Relations(obj.entity.fields);
      var i := 0;
      while i < |relations|
        invariant 0 <= i <= |relations|
        invariant AnyNeedsCollection(relations) == AnyNeedsCollection(relations[i..])
      {
        assert relations[i..][1..] == relations[i + 1..];
        var s := relations[i];
        if s.relType.None? {
          return Failure(Error(Fatal, DatabaseAdapter.RelationshipUnset));
        }
        var t := s.relType.value;
        if t == Model.MANY_TO_MANY {
          return Success(true);
        } else if t == Model.ONE_TO_MANY && s.side == Some(Model.LEFT) {
          return Success(true);
        }
        i := i + 1;
      }
    } else if obj.FieldObj? {
      if obj.field.attrs.list && obj.field.relation.Some? {
        r := Success(true);
      }
    }
  }

  // ---------------------------------------------------------------------------------
  // Field annotations

  const IdAnnotation := "@ORM\\Id()"
  const UuidGenerated := "@ORM\\GeneratedValue(strategy=\"UUID\")"
  const Generated := "@ORM\\GeneratedValue()"
  const PriceColumn := ("decimal", ", precision=9, scale=2")

  /**
   * The Doctrine column type of a field and what follows it, as the chain of tests is
   * written: no test asks for a price, and the price case sits under the double test,
   * which no price passes; the switches under it compare the type exactly.
   */
  function ColumnTypeAsWritten(a: FieldAttrs): (r: Option<(string, string)>)
    ensures r != Some(PriceColumn)
    ensures r.None? <==> !(IsBoolean(a) || IsDate(a) || IsTime(a) || IsDateTime(a) || IsInteger(a) ||
                           IsLong(a) || IsFloat(a) || IsDouble(a) || IsString(a))
  {
    assert Lower(PRICE) == PRICE;
    if IsBoolean(a) then Some(("boolean", ""))
    else if IsDate(a) then Some(("date", ""))
    else if IsTime(a) then Some(("time", ""))
    else if IsDateTime(a) then Some(("datetime", ""))
    else if IsInteger(a) then Some(("integer", ""))
    else if IsLong(a) then Some(("bigint", ""))
    else if IsFloat(a) then Some(("float", ""))
    else if IsDouble(a) then
      if a.fieldType == PRICE then Some(PriceColumn)
      else if a.fieldType == DECIMAL then Some(("decimal", ""))
      else Some(("float", ""))
    else if IsString(a) then
      if a.fieldType == TEXT then Some(("text", ""))
      else if a.fieldType == PHONE then Some(("string", ", length=15"))
      else if a.fieldType == UUID then Some(("string", ", length=36"))
      else Some(("string", ", length=255"))
    else None
  }

  /** As written, a price field gets no column annotation at all. */
  lemma PriceColumnDropped(a: FieldAttrs)
    requires IsPrice(a)
    ensures ColumnTypeAsWritten(a) == None
  {
    TemporalPredicatesMatchClasses(a);
    NumericPredicatesMatchClasses(a);
    StringPredicateMatchesClass(a);
  }

  /** The column type with the price case reached: a price is a decimal of precision 9 and scale 2. */
  function ColumnType(a: FieldAttrs): (r: Option<(string, string)>)
    ensures ClassOf(a.fieldType) == PriceClass ==> r == Some(PriceColumn)
    ensures ClassOf(a.fieldType) != PriceClass ==> r == ColumnTypeAsWritten(a)
  {
    if ClassOf(a.fieldType) == PriceClass then Some(PriceColumn) else ColumnTypeAsWritten(a)
  }

  /**
   * With the price case reached, every field of a native type is mapped to a column, and
   * exactly the types of no family are left to the relation annotations.
   */
  lemma ColumnForEveryFamily(a: FieldAttrs)
    ensures ColumnType(a).Some? <==> ClassOf(a.fieldType) != OtherClass
    ensures IsNativeType(a) ==> ColumnType(a).Some?
  {
    TemporalPredicatesMatchClasses(a);
    NumericPredicatesMatchClasses(a);
    StringPredicateMatchesClass(a);
    if IsNativeType(a) {
      NativeTypesClassified(a.fieldType);
    }
  }

  /** A string column is sized for what it holds: 15 for a phone, 36 for a UUID, 255 otherwise; a text is unbounded. */
  lemma StringColumnLengths(a: FieldAttrs)
    requires IsString(a)
    ensures a.fieldType == TEXT ==> ColumnType(a) == Some(("text", ""))
    ensures a.fieldType == PHONE ==> ColumnType(a) == Some(("string", ", length=15"))
    ensures a.fieldType == UUID ==> ColumnType(a) == Some(("string", ", length=36"))
    ensures a.fieldType !in {TEXT, PHONE, UUID} ==> ColumnType(a) == Some(("string", ", length=255"))
  {
    TemporalPredicatesMatchClasses(a);
    NumericPredicatesMatchClasses(a);
    StringPredicateMatchesClass(a);
  }

  /** The column annotation: the column's name and type, then ', nullable=true' for an optional field. */
  function ColumnAnnotation(column: string, a: FieldAttrs, t: (string, string)): string
  {
    var open := "@ORM\\Column(name=\"" + column + "\", type=\"" + t.0 + "\"" + t.1;
    if !a.mandatory then open + ", nullable=true)" else open + ")"
  }

  /** Every column annotation says outright whether the field may be null: it ends in ', nullable=true)' exactly for an optional field. */
  /** What follows a column type is nothing, or a length or scale ending in a digit. */
  lemma ColumnTypeSuffix(a: FieldAttrs)
    requires ColumnType(a).Some?
    ensures ColumnType(a).value.1 == "" || ColumnType(a).value.1[|ColumnType(a).value.1| - 1] in {'5', '6', '2'}
  {
  }

  lemma NullableIffOptional(column: string, a: FieldAttrs)
    requires ColumnType(a).Some?
    ensures var r := ColumnAnnotation(column, a, ColumnType(a).value);
            !a.mandatory <==> |r| >= 16 && r[|r| - 16..] == ", nullable=true)"
  {
    ColumnTypeSuffix(a);
    hide ColumnType, ColumnTypeAsWritten;
    var t := ColumnType(a).value;
    var open := "@ORM\\Column(name=\"" + column + "\", type=\"" + t.0 + "\"" + t.1;
    var r := ColumnAnnotation(column, a, t);
    if a.mandatory {
      assert r == open + ")";
      assert open[|open| - 1] in {'"', '5', '6', '2'};
      assert r[|r| - 2] == open[|open| - 1];
      assert ", nullable=true)"[14] == 'e';
    } else {
      assert r[|r| - 16..] == ", nullable=true)";
    }
  }

  const RemoteFieldNull := "Call to a member function getName() on null"
  const EntityToString := "Object of class CodePrimer\\Model\\Entity could not be converted to string"

  /** How an association names the other side: cascading to it, or through the remote field. */
  datatype Mapping = Cascaded | MappedBy(field: string, orphans: bool) | InversedBy(field: string)

  /** A relation annotation: the association's kind, its target class and its mapping. */
  datatype Association = Association(kind: string, target: string, mapping: Mapping)

  function MappingText(m: Mapping): string
  {
    match m
    case Cascaded => ", cascade={\"persist\", \"remove\"}"
    case MappedBy(n, orphans) =>
      ", mappedBy=\"" + n + "\"" + (if orphans then ", cascade={\"persist\", \"remove\", \"merge\"}, orphanRemoval=true" else "")
    case InversedBy(n) => ", inversedBy=\"" + n + "\""
  }

  function AssociationText(a: Association): string
  {
    "@ORM\\" + a.kind + "(targetEntity=\"" + a.target + "\"" + MappingText(a.mapping) + ")"
  }

  /** `namespaceFilter($context, $context['package'])`. */
  function PackageNamespace(ctx: Context): Result<string>
  {
    PhpTwig.Namespace(ctx, if ctx.package.Some? then BundleObj(ctx.package.value.namespace, "") else Scalar(VNull), None)
  }

  /**
   * The relation annotation as written: the remote entity is taken to getName, which
   * knows no Entity and hands the object back, and the object cannot be concatenated.
   */
  function RelationAssociationAsWritten(ctx: Context, s: SideView): (r: Result<Option<Association>>)
    ensures r.Success? ==> r.value.None?
    ensures (&& s.remote.Some? && s.relType.Some?
             && s.relType.value in {Model.ONE_TO_ONE, Model.ONE_TO_MANY, Model.MANY_TO_MANY}
             && PackageNamespace(ctx).Success?) ==>
              r == Failure(Error(Fatal, EntityToString))
  {
    if s.remote.None? then Failure(Error(Fatal, RelationalAdapter.GetEntityOnNull))
    else if s.relType.None? then Failure(Error(Fatal, DatabaseAdapter.RelationshipUnset))
    else if s.relType.value !in {Model.ONE_TO_ONE, Model.ONE_TO_MANY, Model.MANY_TO_MANY} then Success(None)
    else
      var ns :- PackageNamespace(ctx);
      Failure(Error(Fatal, EntityToString))
  }

  /**
   * As written, a relation of a known type whose package namespace can be computed fails
   * with the Entity's string conversion, where the corrected annotation exists whenever
   * the remote side has a field.
   */
  lemma RelationAnnotationLost(ctx: Context, s: SideView)
    requires s.remote.Some? && s.relType.Some? && s.relType.value in {Model.ONE_TO_ONE, Model.ONE_TO_MANY, Model.MANY_TO_MANY}
    requires PackageNamespace(ctx).Success? && s.remote.value.fieldName.Some?
    ensures RelationAssociationAsWritten(ctx, s) == Failure(Error(Fatal, EntityToString))
    ensures RelationAssociation(ctx, s).Success? && RelationAssociation(ctx, s).value.Some?
  {
  }

  /**
   * The relation annotation with the remote entity named: a one-to-one cascades to a remote
   * side without a field and is otherwise inversed by it; a one-to-many is mapped by the
   * remote field on its left side, with cascades and orphan removal, and is a many-to-one
   * inversed by it on the right; a many-to-many is mapped on its left and inversed on its
   * right. Other relationship types have none.
   */
  function RelationAssociation(ctx: Context, s: SideView): (r: Result<Option<Association>>)
    ensures r.Success? && r.value.Some? ==> s.relType.Some? && s.remote.Some?
    ensures s.remote.Some? && s.relType.Some? && s.relType.value in {Model.ONE_TO_ONE, Model.ONE_TO_MANY, Model.MANY_TO_MANY} &&
            r.Success? ==>
              PackageNamespace(ctx).Success? && r.value.Some? && r.value.value.target == PackageNamespace(ctx).value + "\\" + s.remote.value.ownerName
  {
    if s.remote.None? then Failure(Error(Fatal, RelationalAdapter.GetEntityOnNull))
    else if s.relType.None? then Failure(Error(Fatal, DatabaseAdapter.RelationshipUnset))
    else
      var t := s.relType.value;
      var remote := s.remote.value;
      if t !in {Model.ONE_TO_ONE, Model.ONE_TO_MANY, Model.MANY_TO_MANY} then Success(None)
      else
        var ns :- PackageNamespace(ctx);
        var target := ns + "\\" + remote.ownerName;
        if t == Model.ONE_TO_ONE then
          Success(Some(Association("OneToOne", target, if remote.fieldName.None? then Cascaded else InversedBy(remote.fieldName.value))))
        else if remote.fieldName.None? then Failure(Error(Fatal, RemoteFieldNull))
        else
          var n := remote.fieldName.value;
          if t == Model.ONE_TO_MANY then
            Success(Some(if s.side == Some(Model.LEFT) then Association("OneToMany", target, MappedBy(n, true))
                         else Association("ManyToOne", target, InversedBy(n))))
          else Success(Some(Association("ManyToMany", target, if s.side == Some(Model.LEFT) then MappedBy(n, false) else InversedBy(n))))
  }

  /**
   * The side Doctrine owns an association from (inversedBy) is the side the relational
   * adapter puts the foreign key on, and a to-many association is one with no foreign
   * key; only a one-to-one without a remote field cascades instead.
   */
  lemma OwningSideHoldsForeignKey(ctx: Context, s: SideView)
    requires RelationAssociation(ctx, s).Success? && RelationAssociation(ctx, s).value.Some?
    ensures var a := RelationAssociation(ctx, s).value.value;
            var fk := RelationalAdapter.ForeignKeyAllowed(s.relType.value, s.side);
            && (a.kind in {"OneToMany", "ManyToMany"} <==> !fk)
            && (a.mapping.Cascaded? <==> s.relType.value == Model.ONE_TO_ONE && s.remote.value.fieldName.None?)
            && (!a.mapping.Cascaded? ==> a.mapping.field == s.remote.value.fieldName.value)
            && (s.relType.value != Model.MANY_TO_MANY ==> (a.mapping.InversedBy? <==> fk && !a.mapping.Cascaded?))
            && (s.relType.value == Model.MANY_TO_MANY ==> (a.mapping.InversedBy? <==> s.side != Some(Model.LEFT)))
  {
  }

  /**
   * The annotations of a field as getFieldAnnotations builds them, for a given column type
   * and relation annotation: Id and GeneratedValue for an identifier (the UUID strategy
   * for a uuid), then the column and the relation, each when there is one. Naming the
   * column or annotating the relation may fail.
   */
  function FieldAnnotationsWith(inf: Inflector, ctx: Context, isIdentifier: FieldAttrs -> bool, f: FieldView,
                                columnType: FieldAttrs -> Option<(string, string)>,
                                relation: (Context, SideView) -> Result<Option<Association>>): (r: Result<seq<string>>)
    ensures r.Success? <==> SqlTwig.FieldColumn(inf, f).Success? && (f.relation.Some? ==> relation(ctx, f.relation.value).Success?)
    ensures r.Success? && isIdentifier(f.attrs) ==>
              |r.value| >= 2 && r.value[0] == IdAnnotation && r.value[1] == (if IsUuid(f.attrs) then UuidGenerated else Generated)
    ensures r.Success? && columnType(f.attrs).Some? ==>
              ColumnAnnotation(SqlTwig.FieldColumn(inf, f).value, f.attrs, columnType(f.attrs).value) in r.value
    ensures r.Success? ==>
              |r.value| == (if isIdentifier(f.attrs) then 2 else 0) + (if columnType(f.attrs).Some? then 1 else 0) +
                           (if f.relation.Some? && relation(ctx, f.relation.value).value.Some? then 1 else 0)
    ensures r.Success? && f.relation.Some? && relation(ctx, f.relation.value).value.Some? ==>
              r.value[|r.value| - 1] == AssociationText(relation(ctx, f.relation.value).value.value)
  {
    var a := f.attrs;
    var ids := if isIdentifier(a) then [IdAnnotation, if IsUuid(a) then UuidGenerated else Generated] else [];
    var column :- SqlTwig.FieldColumn(inf, f);
    var columns := if columnType(a).Some? then [ColumnAnnotation(column, a, columnType(a).value)] else [];
    match f.relation
    case None => Success(ids + columns)
    case Some(s) =>
      var assoc :- relation(ctx, s);
      Success(ids + columns + (match assoc case None => [] case Some(x) => [AssociationText(x)]))
  }

  /** `getFieldAnnotations`, with the price column and the remote entity named. */
  function FieldAnnotations(inf: Inflector, ctx: Context, isIdentifier: FieldAttrs -> bool, f: FieldView): (r: Result<seq<string>>)
    ensures r == FieldAnnotationsWith(inf, ctx, isIdentifier, f, ColumnType, RelationAssociation)
  {
    FieldAnnotationsWith(inf, ctx, isIdentifier, f, ColumnType, RelationAssociation)
  }

  /** getFieldAnnotations as written: no price column, and a failing relation annotation. */
  function FieldAnnotationsAsWritten(inf: Inflector, ctx: Context, isIdentifier: FieldAttrs -> bool, f: FieldView): (r: Result<seq<string>>)
    ensures r.Success? ==>
              |r.value| == (if isIdentifier(f.attrs) then 2 else 0) + (if ColumnTypeAsWritten(f.attrs).Some? then 1 else 0)
  {
    FieldAnnotationsWith(inf, ctx, isIdentifier, f, ColumnTypeAsWritten, RelationAssociationAsWritten)
  }

  /**
   * As written, a mandatory price field that is neither an identifier nor a relation has
   * no annotation at all: Doctrine is not told it is a column.
   */
  lemma PriceFieldUnannotated(inf: Inflector, ctx: Context, isIdentifier: FieldAttrs -> bool, f: FieldView)
    requires IsPrice(f.attrs) && !isIdentifier(f.attrs) && f.relation.None?
    ensures FieldAnnotationsAsWritten(inf, ctx, isIdentifier, f) == Success([])
  {
    PriceColumnDropped(f.attrs);
    hide ColumnTypeAsWritten, IsUuid, IsPrice, ClassOf;
  }

  /** With the price case reached, the same field is a decimal column of precision 9 and scale 2. */
  lemma PriceFieldIsDecimalColumn(inf: Inflector, ctx: Context, isIdentifier: FieldAttrs -> bool, f: FieldView)
    requires IsPrice(f.attrs) && f.attrs.mandatory && !isIdentifier(f.attrs) && f.relation.None?
    ensures FieldAnnotations(inf, ctx, isIdentifier, f) == Success([DecimalColumn(DatabaseAdapter.ColumnName(inf, f.attrs.name))])
  {
    NumericPredicatesMatchClasses(f.attrs);
    var c := DatabaseAdapter.ColumnName(inf, f.attrs.name);
    DecimalColumnText(c, f.attrs);
    hide ColumnType, IsUuid, IsPrice, ClassOf, ColumnAnnotation, FieldAnnotationsWith, RelationAssociation, DecimalColumn;
    var r := FieldAnnotations(inf, ctx, isIdentifier, f);
    assert r.Success? && |r.value| == 1 && DecimalColumn(c) in r.value;
    assert r.value == [DecimalColumn(c)];
  }

  /** The column annotation of a mandatory price, as the test of the filter expects it. */
  function DecimalColumn(column: string): string
  {
    "@ORM\\Column(name=\"" + column + "\", type=\"" + "decimal" + "\"" + ", precision=9, scale=2" + ")"
  }

  lemma DecimalColumnText(column: string, a: FieldAttrs)
    requires IsPrice(a) && a.mandatory
    ensures ColumnType(a) == Some(PriceColumn)
    ensures ColumnAnnotation(column, a, PriceColumn) == DecimalColumn(column)
  {
    NumericPredicatesMatchClasses(a);
    hide ClassOf, IsPrice;
  }

  // ---------------------------------------------------------------------------------
  // Entity annotations

  /** `getEntityColumns` and `getIndexColumns`: each field's column in double quotes. */
  function QuotedColumns(inf: Inflector, fs: seq<FieldView>): (r: Result<seq<string>>)
    ensures r.Success? ==> |r.value| == |fs|
    ensures r.Success? ==> forall i :: 0 <= i < |fs| ==>
              SqlTwig.FieldColumn(inf, fs[i]).Success? && r.value[i] == "\"" + SqlTwig.FieldColumn(inf, fs[i]).value + "\""
  {
    if fs == [] then Success([])
    else
      var init :- QuotedColumns(inf, fs[..|fs| - 1]);
      var last :- SqlTwig.FieldColumn(inf, fs[|fs| - 1]);
      assert forall i :: 0 <= i < |fs| - 1 ==> fs[..|fs| - 1][i] == fs[i];
      Success(init + ["\"" + last + "\""])
  }

  /** One entry of the table annotation: a UniqueConstraint or an Index, its name and its columns. */
  function Entry(inf: Inflector, kind: string, ix: IndexView): (r: Result<string>)
    ensures r.Success? <==> QuotedColumns(inf, ix.fields).Success?
  {
    var columns :- QuotedColumns(inf, ix.fields);
    Success("@ORM\\" + kind + "(name=\"" + ix.name + "\", columns={" + Join(columns, ",") + "})")
  }

  function Entries(inf: Inflector, kind: string, ixs: seq<IndexView>): (r: Result<seq<string>>)
    ensures r.Success? ==> |r.value| == |ixs|
    ensures r.Success? ==> forall i :: 0 <= i < |ixs| ==> Entry(inf, kind, ixs[i]) == Success(r.value[i])
  {
    if ixs == [] then Success([])
    else
      var init :- Entries(inf, kind, ixs[..|ixs| - 1]);
      var last :- Entry(inf, kind, ixs[|ixs| - 1]);
      assert forall i :: 0 <= i < |ixs| - 1 ==> ixs[..|ixs| - 1][i] == ixs[i];
      Success(init + [last])
  }

  /** A list of table entries: nothing when there are none, else ', ', the attribute, and the entries in braces. */
  function Section(inf: Inflector, attribute: string, kind: string, ixs: seq<IndexView>): (r: Result<string>)
    ensures ixs == [] ==> r == Success("")
  {
    if ixs == [] then Success("")
    else
      var entries :- Entries(inf, kind, ixs);
      Success(", " + attribute + "={" + Join(entries, ", ") + "}")
  }

  /**
   * `getEntityAnnotations`: the Entity annotation naming the repository class, then the
   * Table annotation with the table's name, its unique constraints and its indexes. The
   * indexes are those the relational adapter's getIndexes gives, passed in.
   */
  function EntityAnnotations(inf: Inflector, e: ModelView, constraints: seq<IndexView>, indexes: seq<IndexView>)
    : (r: Result<seq<string>>)
    ensures r.Success? ==> |r.value| == 2
    ensures r.Success? ==> r.value[0] == "@ORM\\Entity(repositoryClass=\"App\\Repository\\" + ModelHelpers.RepositoryClass(inf, e.name) + "\")"
    ensures r.Success? <==> Section(inf, "uniqueConstraints", "UniqueConstraint", constraints).Success? &&
                            Section(inf, "indexes", "Index", indexes).Success?
  {
    var unique :- Section(inf, "uniqueConstraints", "UniqueConstraint", constraints);
    var index :- Section(inf, "indexes", "Index", indexes);
    Success(["@ORM\\Entity(repositoryClass=\"App\\Repository\\" + ModelHelpers.RepositoryClass(inf, e.name) + "\")",
             "@ORM\\Table(name=\"" + DatabaseAdapter.TableName(inf, e.name) + "\"" + unique + index + ")"])
  }

  /** Without constraints or indexes, the table annotation is the table's name alone. */
  lemma BareTableAnnotation(inf: Inflector, e: ModelView)
    ensures EntityAnnotations(inf, e, [], []).Success?
    ensures EntityAnnotations(inf, e, [], []).value[1] == "@ORM\\Table(name=\"" + DatabaseAdapter.TableName(inf, e.name) + "\")"
  {
  }

  /**
   * A constraint that cannot be named fails the whole annotation with the error of its
   * first column that cannot be named.
   */
  lemma {:induction false} FailingColumn(inf: Inflector, fs: seq<FieldView>, i: nat)
    requires i < |fs| && QuotedColumns(inf, fs[..i]).Success? && SqlTwig.FieldColumn(inf, fs[i]).Failure?
    ensures QuotedColumns(inf, fs) == Failure(SqlTwig.FieldColumn(inf, fs[i]).error)
    decreases |fs|
  {
    if i + 1 < |fs| {
      var init := fs[..|fs| - 1];
      assert init[..i] == fs[..i] && init[i] == fs[i];
      FailingColumn(inf, init, i);
    } else {
      assert fs[..|fs| - 1] == fs[..i];
    }
  }

  lemma QuotedColumnsSnoc(inf: Inflector, fs: seq<FieldView>, i: nat)
    requires i < |fs| && QuotedColumns(inf, fs[..i]).Success? && SqlTwig.FieldColumn(inf, fs[i]).Success?
    ensures QuotedColumns(inf, fs[..i + 1]) ==
            Success(QuotedColumns(inf, fs[..i]).value + ["\"" + SqlTwig.FieldColumn(inf, fs[i]).value + "\""])
  {
    assert fs[..i + 1][..i] == fs[..i];
  }

  lemma EntriesSnoc(inf: Inflector, kind: string, ixs: seq<IndexView>, i: nat)
    requires i < |ixs| && Entries(inf, kind, ixs[..i]).Success? && Entry(inf, kind, ixs[i]).Success?
    ensures Entries(inf, kind, ixs[..i + 1]) == Success(Entries(inf, kind, ixs[..i]).value + [Entry(inf, kind, ixs[i]).value])
  {
    assert ixs[..i + 1][..i] == ixs[..i];
  }

  lemma {:induction false} EntriesFailAt(inf: Inflector, kind: string, ixs: seq<IndexView>, i: nat)
    requires i < |ixs| && Entries(inf, kind, ixs[..i]).Success? && Entry(inf, kind, ixs[i]).Failure?
    ensures Entries(inf, kind, ixs) == Failure(Entry(inf, kind, ixs[i]).error)
    decreases |ixs|
  {
    if i + 1 < |ixs| {
      var init := ixs[..|ixs| - 1];
      assert init[..i] == ixs[..i] && init[i] == ixs[i];
      EntriesFailAt(inf, kind, init, i);
    } else {
      assert ixs[..|ixs| - 1] == ixs[..i];
    }
  }

  /** getEntityColumns / getIndexColumns as the source runs them: a loop, then implode with ','. */
  method RunColumns(inf: Inflector, fs: seq<FieldView>) returns (r: Result<string>)
    ensures r.Success? <==> QuotedColumns(inf, fs).Success?
    ensures r.Success? ==> r.value == Join(QuotedColumns(inf, fs).value, ",")
    ensures r.Failure? ==> QuotedColumns(inf, fs) == Failure(r.error)
  {
    assert QuotedColumns(inf, fs[..0]) == Success([]);
    var names: seq<string> := [];
    var i := 0;
    while i < |fs|
      invariant 0 <= i <= |fs|
      invariant QuotedColumns(inf, fs[..i]) == Success(names)
    {
      var column := SqlTwig.FieldColumn(inf, fs[i]);
      if column.Failure? {
        FailingColumn(inf, fs, i);
        return Failure(column.error);
      }
      QuotedColumnsSnoc(inf, fs, i);
      names := names + ["\"" + column.value + "\""];
      i := i + 1;
    }
    assert fs[..i] == fs;
    r := Success(Join(names, ","));
  }

  /** One of the two loops of getEntityAnnotations, appending entries separated by ', '. */
  method RunSection(inf: Inflector, attribute: string, kind: string, ixs: seq<IndexView>) returns (r: Result<string>)
    ensures r == Section(inf, attribute, kind, ixs)
  {
    if ixs == [] {
      return Success("");
    }
    var table := ", " + attribute + "={";
    assert Entries(inf, kind, ixs[..0]) == Success([]);
    ghost var es: seq<string> := [];
    ghost var head := table;
    assert table == head + Join(es, ", ");
    var count := 0;
    while count < |ixs|
      invariant 0 <= count <= |ixs| && |es| == count
      invariant Entries(inf, kind, ixs[..count]) == Success(es)
      invariant table == head + Join(es, ", ")
    {
      var columns := RunColumns(inf, ixs[count].fields);
      if columns.Failure? {
        EntriesFailAt(inf, kind, ixs, count);
        return Failure(columns.error);
      }
      var entry := "@ORM\\" + kind + "(name=\"" + ixs[count].name + "\", columns={" + columns.value + "})";
      assert Entry(inf, kind, ixs[count]) == Success(entry);
      EntriesSnoc(inf, kind, ixs, count);
      SectionStep(head, es, table, entry);
      if count > 0 {
        table := table + ", ";
      }
      table := table + entry;
      es := es + [entry];
      count := count + 1;
    }
    assert ixs[..count] == ixs;
    r := Success(table + "}");
  }

  /** One more entry, after ', ' unless it is the first. */
  lemma SectionStep(head: string, es: seq<string>, table: string, entry: string)
    requires table == head + Join(es, ", ")
    ensures (if |es| > 0 then table + ", " else table) + entry == head + Join(es + [entry], ", ")
  {
    JoinSnoc(es, entry, ", ");
    if es == [] {
      assert Join(es, ", ") == "";
      assert table == head;
    }
  }

  /** getEntityAnnotations as the source runs it. */
  method RunEntityAnnotations(inf: Inflector, e: ModelView, constraints: seq<IndexView>, indexes: seq<IndexView>)
    returns (r: Result<seq<string>>)
    ensures r == EntityAnnotations(inf, e, constraints, indexes)
  {
    var annotations := ["@ORM\\Entity(repositoryClass=\"App\\Repository\\" + ModelHelpers.RepositoryClass(inf, e.name) + "\")"];
    var table := "@ORM\\Table(name=\"" + DatabaseAdapter.TableName(inf, e.name) + "\"";
    var unique := RunSection(inf, "uniqueConstraints", "UniqueConstraint", constraints);
    if unique.Failure? {
      return Failure(unique.error);
    }
    table := table + unique.value;
    var index := RunSection(inf, "indexes", "Index", indexes);
    if index.Failure? {
      return Failure(index.error);
    }
    table := table + index.value + ")";
    r := Success(annotations + [table]);
    ghost var expected := EntityAnnotations(inf, e, constraints, indexes);
    assert unique == Section(inf, "uniqueConstraints", "UniqueConstraint", constraints);
    assert index == Section(inf, "indexes", "Index", indexes);
    assert expected.Success?;
    assert expected.value[0] == annotations[0];
    assert expected.value[1] == table;
    assert expected.value == annotations + [table];
  }

  /**
   * `annotationsFunction`: an Entity's annotations (with the indexes the adapter gives it),
   * a Field's, or none.
   */
  function Annotations(inf: Inflector, ctx: Context, isIdentifier: FieldAttrs -> bool, obj: Mixed, indexes: seq<IndexView>)
    : (r: Result<seq<string>>)
    ensures obj.EntityObj? ==> r == EntityAnnotations(inf, obj.entity, obj.constraints, indexes)
    ensures obj.FieldObj? ==> r == FieldAnnotations(inf, ctx, isIdentifier, obj.field)
    ensures !obj.EntityObj? && !obj.FieldObj? ==> r == Success([])
  {
    match obj
    case EntityObj(e, cs) => EntityAnnotations(inf, e, cs, indexes)
    case FieldObj(f) => FieldAnnotations(inf, ctx, isIdentifier, f)
    case _ => Success([])
  }

  // ---------------------------------------------------------------------------------
  // Types

  /**
   * `typeFilter`: a list field with a relation is a 'Collection'; any other field has its
   * PHP type; anything else fails when asked whether it is a list.
   */
  function Type(ctx: Context, obj: Mixed, mandatory: bool): (r: Result<string>)
    ensures obj.FieldObj? && obj.field.attrs.list && obj.field.relation.Some? ==> r == Success("Collection")
    ensures obj.FieldObj? && !(obj.field.attrs.list && obj.field.relation.Some?) ==> r == Success(PhpTwig.Type(ctx, obj, mandatory))
    ensures !obj.FieldObj? ==> r == Failure(CallError(obj, "isList"))
  {
    match obj
    case FieldObj(f) => Success(if f.attrs.list && f.relation.Some? then "Collection" else PhpTwig.Type(ctx, obj, mandatory))
    case _ => Failure(CallError(obj, "isList"))
  }

  /** `hintFilter`: the PHP hint, with 'Collection|' before it for a list field with a relation. */
  function Hint(ctx: Context, obj: Mixed, mandatory: bool): (r: Result<string>)
    ensures obj.FieldObj? && obj.field.attrs.list && obj.field.relation.Some? ==>
              r == Success("Collection|" + PhpTwig.Hint(ctx, obj, mandatory))
    ensures obj.FieldObj? && !(obj.field.attrs.list && obj.field.relation.Some?) ==> r == Success(PhpTwig.Hint(ctx, obj, mandatory))
    ensures !obj.FieldObj? ==> r == Failure(CallError(obj, "isList"))
  {
    match obj
    case FieldObj(f) =>
      var hint := PhpTwig.Hint(ctx, obj, mandatory);
      Success(if f.attrs.list && f.relation.Some? then "Collection|" + hint else hint)
    case _ => Failure(CallError(obj, "isList"))
  }

  /**
   * A list field is typed 'Collection' exactly when collectionUsed holds for it, and its
   * hint then still names the element type in array form.
   */
  lemma CollectionTypeIffUsed(ctx: Context, f: FieldView, mandatory: bool)
    requires f.attrs.list
    ensures Type(ctx, FieldObj(f), mandatory) == Success("Collection") <==> CollectionUsed(FieldObj(f)) == Success(true)
    ensures CollectionUsed(FieldObj(f)) == Success(true) ==>
              var h := Hint(ctx, FieldObj(f), mandatory).value;
              "Collection|" <= h && h[11..] == PhpTwig.Hint(ctx, FieldObj(f), mandatory)
  {
    var t := PhpTwig.Type(ctx, FieldObj(f), mandatory);
    assert t == "array" || t == "?array";
  }
}
