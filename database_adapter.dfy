/**
 * The naming rules of the database adapter (src/Adapter/DatabaseAdapter.php): how a
 * bundle, an entity or a field name becomes a database, table or column name. The
 * Doctrine Inflector is a parameter, so what is proved here holds for any inflector.
 */
module DatabaseAdapter {
  import opened Wrappers
  import opened PhpStrings
  import opened Inflection
  import opened Model

  /** The characters `str_replace(['-', ' ', '.'], '_', ...)` turns into underscores. */
  const Separators: set<char> := {'-', ' ', '.'}

  /** Separators to '_', then `tableize`, then one pass of "__" to "_". */
  function Snake(inf: Inflector, s: string): string
  {
    CollapseDoubleUnderscore(inf.tableize(MapChars(s, Separators, '_')))
  }

  /** `getDatabaseName`: the namespace and the name, joined by a space and singularised first. */
  function DatabaseName(inf: Inflector, namespace: string, name: string): string
  {
    Snake(inf, inf.singularize(namespace + " " + name))
  }

  /** `getTableName`: the plural of the name. */
  function TableName(inf: Inflector, name: string): string
  {
    Snake(inf, inf.pluralize(name))
  }

  /** `getAuditTableName`: the table name followed by "_logs". */
  function AuditTableName(inf: Inflector, name: string): (r: string)
    ensures |r| == |TableName(inf, name)| + 5
    ensures r[..|r| - 5] == TableName(inf, name) && r[|r| - 5..] == "_logs"
  {
    TableName(inf, name) + "_logs"
  }

  /** An audit table never has the name of the table it audits. */
  lemma AuditTableIsNotTheTable(inf: Inflector, name: string)
    ensures AuditTableName(inf, name) != TableName(inf, name)
  {
    assert |AuditTableName(inf, name)| == |TableName(inf, name)| + 5;
  }

  /** `getColumnName` of the base adapter. */
  function ColumnName(inf: Inflector, fieldName: string): string
  {
    Snake(inf, fieldName)
  }

  /** `getEntityColumnName`: "_id" is appended before the "__" pass, so "x_" + "_id" gives "x_id". */
  function EntityColumnName(inf: Inflector, name: string): string
  {
    CollapseDoubleUnderscore(inf.tableize(MapChars(name, Separators, '_')) + "_id")
  }

  /** Whatever the inflector returns, the entity column ends in "_id". */
  lemma EntityColumnEndsWithId(inf: Inflector, name: string)
    ensures var c := EntityColumnName(inf, name); |c| >= 3 && c[|c| - 3..] == "_id"
  {
    var p := CollapsedBeforeId(inf.tableize(MapChars(name, Separators, '_')));
    assert EntityColumnName(inf, name) == p + "_id";
  }

  /** The "__" pass over `u + "_id"` keeps the final "_id". */
  lemma {:induction false} CollapsedBeforeId(u: string) returns (p: string)
    ensures CollapseDoubleUnderscore(u + "_id") == p + "_id"
    decreases |u|
  {
    var s := u + "_id";
    if u == [] {
      CollapseOfId();
      p := "";
    } else if |u| >= 2 && u[0] == '_' && u[1] == '_' {
      assert s[2..] == u[2..] + "_id";
      assert CollapseDoubleUnderscore(s) == "_" + CollapseDoubleUnderscore(s[2..]);
      hide CollapseDoubleUnderscore;
      var q := CollapsedBeforeId(u[2..]);
      p := "_" + q;
    } else if |u| == 1 && u[0] == '_' {
      assert s == "__id";
      CollapseOfId();
      p := "";
    } else {
      assert s[1..] == u[1..] + "_id";
      assert CollapseDoubleUnderscore(s) == [u[0]] + CollapseDoubleUnderscore(s[1..]);
      hide CollapseDoubleUnderscore;
      var q := CollapsedBeforeId(u[1..]);
      p := [u[0]] + q;
    }
  }

  /** The pass leaves "_id" as it is and turns "__id" into "_id". */
  lemma CollapseOfId()
    ensures CollapseDoubleUnderscore("_id") == "_id"
    ensures CollapseDoubleUnderscore("__id") == "_id"
  {
    assert CollapseDoubleUnderscore("d") == "d";
    assert CollapseDoubleUnderscore("id") == "id";
  }

  /** A name with no separator whose tableized form has no "__" is just tableized. */
  lemma ColumnNamePlain(inf: Inflector, fieldName: string)
    requires forall i :: 0 <= i < |fieldName| ==> fieldName[i] !in Separators
    requires !HasDoubleUnderscore(inf.tableize(fieldName))
    ensures ColumnName(inf, fieldName) == inf.tableize(fieldName)
  {
    assert MapChars(fieldName, Separators, '_') == fieldName;
    CollapseWithoutDouble(inf.tableize(fieldName));
  }

  /** The three spellings the adapter documents name the same column. */
  lemma SeparatorsAgree(inf: Inflector, a: string, b: string)
    requires |a| == |b|
    requires forall i :: 0 <= i < |a| ==> a[i] == b[i] || (a[i] in Separators && b[i] in Separators)
    ensures ColumnName(inf, a) == ColumnName(inf, b)
    ensures EntityColumnName(inf, a) == EntityColumnName(inf, b)
  {
    assert MapChars(a, Separators, '_') == MapChars(b, Separators, '_');
  }

  const NotManyToMany := "Relation tables can only be created for many-to-many relationships"
  /** `getRelationship()` declares a Relationship return type, so an unset one is a TypeError. */
  const RelationshipUnset := "Return value of RelationshipSide::getRelationship() must be an instance of Relationship, null returned"

  /** The name of the object a relationship side belongs to. */
  function OwnerName(o: Owner): string
    reads OwnerObject(o)
  {
    match o
    case OfModel(m) => m.name
    case OfEntity(e) => e.name
  }

  function OwnerObject(o: Owner): (r: object)
  {
    match o
    case OfModel(m) => m
    case OfEntity(e) => e
  }

  /**
   * `getRelationTableName` on the relationship's type and the names of its two owners:
   * the left table, '_', the right table, for many-to-many relationships only.
   */
  function RelationTableNameOf(inf: Inflector, relType: string, left: string, right: string): (r: Result<string>)
    ensures r.Failure? <==> relType != MANY_TO_MANY
    ensures r.Failure? ==> r.error == Error(Runtime, NotManyToMany)
    ensures r.Success? ==> r.value == TableName(inf, left) + "_" + TableName(inf, right)
  {
    if relType != MANY_TO_MANY then Failure(Error(Runtime, NotManyToMany))
    else Success(TableName(inf, left) + "_" + TableName(inf, right))
  }

  /**
   * `getRelationTableName($relation)`. Only the relationship is consulted, so both
   * sides of a relationship give the same name.
   */
  method RelationTableName(inf: Inflector, side: RelationshipSide) returns (r: Result<string>)
    ensures side.relationship == null ==> r == Failure(Error(Fatal, RelationshipUnset))
    ensures side.relationship != null ==>
              r == RelationTableNameOf(inf, side.relationship.relType,
                                       OwnerName(side.relationship.leftSide.owner),
                                       OwnerName(side.relationship.rightSide.owner))
  {
    var relationship := side.relationship;
    if relationship == null {
      return Failure(Error(Fatal, RelationshipUnset));
    }
    if relationship.relType != MANY_TO_MANY {
      return Failure(Error(Runtime, NotManyToMany));
    }
    var left := OwnerName(relationship.leftSide.owner);
    var right := OwnerName(relationship.rightSide.owner);
    r := Success(TableName(inf, left) + "_" + TableName(inf, right));
  }
}
