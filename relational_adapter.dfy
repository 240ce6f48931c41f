/**
 * The relational database adapter (src/Adapter/RelationalDatabaseAdapter.php): which
 * relationship sides hold a foreign key, the column names that follow, the identifier
 * and foreign-key fields it adds to entities, the indexes it asks for, and the fields
 * stored in a table or checked by its audit. The adapter has no state of its own, so
 * its operations are module-level functions and methods over the entities they read
 * or change.
 */
module RelationalAdapter {
  import opened Wrappers
  import opened OrderedMap
  import opened Inflection
  import opened FieldHelper
  import opened Model
  import opened DatabaseAdapter

  // ---------------------------------------------------------------------------------
  // Foreign keys and column names

  /** `isValidForeignKey` on the relationship's type and the side's stamp. */
  function ForeignKeyAllowed(relType: string, side: Option<string>): (r: bool)
    ensures r <==> relType != MANY_TO_MANY && !(relType == ONE_TO_MANY && side == Some(LEFT))
  {
    if relType == MANY_TO_MANY then false
    else if relType == ONE_TO_MANY then side != Some(LEFT)
    else true
  }

  /** `isValidForeignKey($side)`; a side outside any relationship fails in `getRelationship()`. */
  function ValidForeignKey(s: RelationshipSide): (r: Result<bool>)
    reads s
    ensures r.Failure? <==> s.relationship == null
    ensures r.Failure? ==> r.error == Error(Fatal, RelationshipUnset)
    ensures r.Success? ==> r.value == ForeignKeyAllowed(s.relationship.relType, s.side)
  {
    if s.relationship == null then Failure(Error(Fatal, RelationshipUnset))
    else Success(ForeignKeyAllowed(s.relationship.relType, s.side))
  }

  /**
   * Of the two sides of a relationship, the foreign key sits on the right side of a
   * one-to-many, on both sides of a one-to-one, and on neither side of a many-to-many.
   */
  lemma ForeignKeySides(rel: Relationship)
    requires rel.Linked()
    ensures rel.relType == ONE_TO_MANY ==>
              ValidForeignKey(rel.leftSide) == Success(false) && ValidForeignKey(rel.rightSide) == Success(true)
    ensures rel.relType == MANY_TO_MANY ==>
              ValidForeignKey(rel.leftSide) == Success(false) && ValidForeignKey(rel.rightSide) == Success(false)
    ensures rel.relType == ONE_TO_ONE ==>
              ValidForeignKey(rel.leftSide) == Success(true) && ValidForeignKey(rel.rightSide) == Success(true)
  {
    assert rel.leftSide.side == Some(LEFT) && rel.rightSide.side == Some(RIGHT);
    assert LEFT != RIGHT;
  }

  /** `substr($name, -2) === 'id'`; a name shorter than two characters is returned whole. */
  predicate EndsWithId(s: string)
  {
    |s| >= 2 && s[|s| - 2..] == "id"
  }

  /** The override of `getColumnName`, given whether the field's side holds a foreign key. */
  function ForeignColumnName(inf: Inflector, name: string, foreignKey: bool): (r: string)
    ensures ColumnName(inf, name) <= r
    ensures EndsWithId(r) <==> foreignKey || EndsWithId(ColumnName(inf, name))
    ensures !foreignKey ==> r == ColumnName(inf, name)
  {
    var base := ColumnName(inf, name);
    if foreignKey && !EndsWithId(base) then
      assert (base + "_id")[|base + "_id"| - 2..] == "id";
      base + "_id"
    else base
  }

  /** The override of `getColumnName($field)`. */
  function FieldColumnName(inf: Inflector, f: Field): (r: Result<string>)
    reads f, f.relation
    ensures f.relation == null ==> r == Success(ColumnName(inf, f.name))
    ensures f.relation != null ==> r.Failure? == (f.relation.relationship == null)
    ensures r.Success? && f.relation != null ==> r.value == ForeignColumnName(inf, f.name, ValidForeignKey(f.relation).value)
  {
    if f.relation == null then Success(ColumnName(inf, f.name))
    else
      var valid :- ValidForeignKey(f.relation);
      Success(ForeignColumnName(inf, f.name, valid))
  }

  // ---------------------------------------------------------------------------------
  // Adding identifier and foreign-key fields

  const IdentifierDescription := "DB unique identifier field"
  const ForeignKeyDescription := "Foreign relationship field"

  /** The name `generateIdentifierField` picks: "id", else camelize(entity) + "Id", else none. */
  function IdentifierName(inf: Inflector, entityName: string, fields: seq<(string, Field)>): (r: Option<string>)
    ensures r.None? <==> HasKey(fields, "id") && HasKey(fields, inf.camelize(entityName) + "Id")
    ensures r.Some? ==> !HasKey(fields, r.value)
    ensures r == Some("id") <==> !HasKey(fields, "id")
    ensures r.Some? && r.value != "id" ==> r.value == inf.camelize(entityName) + "Id"
  {
    if !HasKey(fields, "id") then Some("id")
    else
      var other := inf.camelize(entityName) + "Id";
      if !HasKey(fields, other) then Some(other) else None
  }

  function IdentifierTaken(entityName: string, name: string): string
  {
    "Cannot generate ID field for entity " + entityName + ": \"id\" and \"" + name
      + "\" fields are already defined. Did you forget to specify an identifier for this entity?"
  }

  /** The generated identifier: mandatory, managed and generated. */
  function IdentifierAttrs(name: string, identifierType: string): FieldAttrs
  {
    FieldAttrs(name, identifierType, IdentifierDescription, true, None, None, false, true, false, true, false)
  }

  /** `$entity->addField($field)` for a name the entity does not have yet. */
  method AppendField(entity: Entity, field: Field)
    requires !HasKey(entity.fields, field.name)
    modifies entity
    ensures entity.fields == old(entity.fields) + [(field.name, field)]
    ensures entity.Info() == old(entity.Info())
  {
    var _ := entity.AddField(field);
  }

  method NewIdentifierField(name: string, identifierType: string) returns (f: Field)
    ensures fresh(f) && f.Attrs() == IdentifierAttrs(name, identifierType) && f.relation == null
  {
    f := new Field(name, identifierType, IdentifierDescription);
    var _ := f.SetMandatory(true);
    var _ := f.SetManaged(true);
    var _ := f.SetGenerated(true);
  }

  /**
   * `generateIdentifierField`: a new field goes last under the name IdentifierName
   * picks; when both names are taken nothing changes and a RuntimeException is thrown.
   */
  method GenerateIdentifierField(inf: Inflector, entity: Entity, identifierType: string)
    returns (r: Outcome, ghost added: Field?)
    modifies entity
    ensures r.Done? <==> IdentifierName(inf, old(entity.name), old(entity.fields)).Some?
    ensures r.Fail? ==> r.error == Error(Runtime, IdentifierTaken(old(entity.name), inf.camelize(old(entity.name)) + "Id"))
    ensures r.Fail? ==> entity.fields == old(entity.fields)
    ensures r.Done? ==>
              var n := IdentifierName(inf, old(entity.name), old(entity.fields)).value;
              added != null && fresh(added) && added.relation == null
              && added.Attrs() == IdentifierAttrs(n, identifierType)
              && entity.fields == old(entity.fields) + [(n, added)]
    ensures entity.Info() == old(entity.Info())
  {
    var name := "id";
    if entity.GetField(name) != null {
      name := inf.camelize(entity.name) + "Id";
    }
    if entity.GetField(name) != null {
      return Fail(Error(Runtime, IdentifierTaken(entity.name, name))), null;
    }
    var field := NewIdentifierField(name, identifierType);
    AppendField(entity, field);
    r, added := Done, field;
  }

  function NoForeignIdentifier(name: string): string
  {
    "No identifier available for foreign entity " + name
  }

  function ForeignKeyTaken(entityName: string, name: string): string
  {
    "Cannot generate foreign key field on entity " + entityName + ": Field \"" + name
      + "\" field is already defined. Did you provide the right type for this field?"
  }

  /** The generated foreign-key field: typed by the foreign entity's name and generated. */
  function ForeignKeyAttrs(name: string, foreignName: string): FieldAttrs
  {
    FieldAttrs(name, foreignName, ForeignKeyDescription, false, None, None, false, false, false, true, false)
  }

  method NewForeignKeyField(name: string, foreignName: string) returns (f: Field)
    ensures fresh(f) && f.Attrs() == ForeignKeyAttrs(name, foreignName) && f.relation == null
  {
    f := new Field(name, foreignName, ForeignKeyDescription);
    var _ := f.SetGenerated(true);
  }

  /**
   * `generateForeignKeyField($entity, $foreignEntity)`: the foreign entity needs an
   * identifier and the camelized name must be free on `entity`; the new field goes last.
   * `isIdentifier` stands for FieldHelper::isIdentifier, which FieldHelper does not declare.
   */
  method GenerateForeignKeyField(inf: Inflector, entity: Entity, foreignEntity: Entity, isIdentifier: FieldAttrs -> bool)
    returns (r: Result<Field>)
    modifies entity
    ensures old(FirstIdentifier(Values(foreignEntity.fields), isIdentifier)) == null ==>
              r == Failure(Error(Runtime, NoForeignIdentifier(old(foreignEntity.name))))
    ensures old(FirstIdentifier(Values(foreignEntity.fields), isIdentifier)) != null
            && HasKey(old(entity.fields), inf.camelize(old(foreignEntity.name))) ==>
              r == Failure(Error(Runtime, ForeignKeyTaken(old(entity.name), inf.camelize(old(foreignEntity.name)))))
    ensures r.Success? <==> old(FirstIdentifier(Values(foreignEntity.fields), isIdentifier)) != null
                            && !HasKey(old(entity.fields), inf.camelize(old(foreignEntity.name)))
    ensures r.Failure? ==> unchanged(entity)
    ensures r.Success? ==>
              fresh(r.value) && r.value.relation == null
              && r.value.Attrs() == ForeignKeyAttrs(inf.camelize(old(foreignEntity.name)), old(foreignEntity.name))
              && entity.fields == old(entity.fields) + [(inf.camelize(old(foreignEntity.name)), r.value)]
    ensures entity.Info() == old(entity.Info()) && foreignEntity.Info() == old(foreignEntity.Info())
  {
    var foreignId := foreignEntity.GetIdentifier(isIdentifier);
    if foreignId == null {
      return Failure(Error(Runtime, NoForeignIdentifier(foreignEntity.name)));
    }
    var name := inf.camelize(foreignEntity.name);
    if entity.GetField(name) != null {
      return Failure(Error(Runtime, ForeignKeyTaken(entity.name, name)));
    }
    var field := NewForeignKeyField(name, foreignEntity.name);
    AppendField(entity, field);
    r := Success(field);
  }

  // ---------------------------------------------------------------------------------
  // Indexes

  const SearchIndexDescription := "To optimize search queries"
  const ForeignIndexSuffix := " foreign key"
  const GetEntityOnNull := "Call to a member function getEntity() on null"
  const EntityOfModel := "Return value of RelationshipSide::getEntity() must be an instance of Entity"
  const CreateIndexOnNull := "Argument 1 passed to createIndex() must be an instance of Field, null given"

  /** What `createIndex` builds: the column name + "_idx", the one field, a description. */
  datatype IndexSpec = IndexSpec(name: string, field: Field, description: string)

  /** The entity a side belongs to, as `getEntity()` returns it. */
  function SideEntity(s: RelationshipSide): (r: Result<Entity>)
    ensures r.Success? <==> s.owner.OfEntity?
    ensures r.Success? ==> r.value == s.owner.entity
  {
    match s.owner
    case OfEntity(e) => Success(e)
    case OfModel(_) => Failure(Error(Fatal, EntityOfModel))
  }

  /** `createIndex($field, $description)`, as a value. */
  function IndexOf(inf: Inflector, f: Field, description: string): (r: Result<IndexSpec>)
    reads f, f.relation
    ensures r.Success? <==> FieldColumnName(inf, f).Success?
    ensures r.Success? ==> r.value == IndexSpec(FieldColumnName(inf, f).value + "_idx", f, description)
  {
    var column :- FieldColumnName(inf, f);
    Success(IndexSpec(column + "_idx", f, description))
  }

  /** One search index per field, in order; the first field whose column cannot be named fails. */
  function SearchIndexes(inf: Inflector, fs: seq<Field>): (r: Result<seq<IndexSpec>>)
    reads fs, set f | f in fs :: f.relation
    ensures r.Success? ==> |r.value| == |fs|
  {
    if fs == [] then Success([])
    else
      var init :- SearchIndexes(inf, fs[..|fs| - 1]);
      var last :- IndexOf(inf, fs[|fs| - 1], SearchIndexDescription);
      Success(init + [last])
  }

  /** The pass succeeds exactly when every field names its column, and then gives each its index. */
  lemma {:induction false} SearchIndexesMeans(inf: Inflector, fs: seq<Field>)
    ensures SearchIndexes(inf, fs).Success? <==> forall i :: 0 <= i < |fs| ==> FieldColumnName(inf, fs[i]).Success?
    ensures SearchIndexes(inf, fs).Success? ==> forall i :: 0 <= i < |fs| ==>
              SearchIndexes(inf, fs).value[i] == IndexSpec(FieldColumnName(inf, fs[i]).value + "_idx", fs[i], SearchIndexDescription)
    decreases |fs|
  {
    if fs != [] {
      var init := fs[..|fs| - 1];
      SearchIndexesMeans(inf, init);
      assert forall i :: 0 <= i < |init| ==> init[i] == fs[i];
    }
  }

  /**
   * The index `getIndexes` adds for one relation: none when the side holds no foreign
   * key. The PHP arguments are evaluated in order: the side's field, then the remote
   * side's entity; a missing field is refused by `createIndex`'s parameter type.
   */
  function ForeignIndex(inf: Inflector, s: RelationshipSide): (r: Result<Option<IndexSpec>>)
    reads s, s.field, if s.field != null then {s.field.relation} else {}
    reads if s.relationship != null && s.relationship.leftSide.owner.OfEntity?
          then {s.relationship.leftSide.owner.entity} else {}
    reads if s.relationship != null && s.relationship.rightSide.owner.OfEntity?
          then {s.relationship.rightSide.owner.entity} else {}
    ensures ValidForeignKey(s).Failure? ==> r == Failure(ValidForeignKey(s).error)
    ensures ValidForeignKey(s) == Success(false) ==> r == Success(None)
    ensures r.Success? && r.value.Some? ==>
              ValidForeignKey(s) == Success(true) && s.field != null && s.GetRemoteSide() != null
              && SideEntity(s.GetRemoteSide()).Success?
              && IndexOf(inf, s.field, SideEntity(s.GetRemoteSide()).value.name + ForeignIndexSuffix)
                 == Success(r.value.value)
    ensures ValidForeignKey(s) == Success(true) ==> r.Failure? || r.value.Some?
  {
    var valid :- ValidForeignKey(s);
    if !valid then Success(None)
    else
      var field := s.field;
      var remote := s.GetRemoteSide();
      if remote == null then Failure(Error(Fatal, GetEntityOnNull))
      else
        var entity :- SideEntity(remote);
        if field == null then Failure(Error(Fatal, CreateIndexOnNull))
        else
          var index :- IndexOf(inf, field, entity.name + ForeignIndexSuffix);
          Success(Some(index))
  }

  /** The foreign-key indexes of the relations, in order. */
  function ForeignIndexes(inf: Inflector, ss: seq<RelationshipSide>): (r: Result<seq<IndexSpec>>)
    reads *
    ensures r.Success? <==> forall i :: 0 <= i < |ss| ==> ForeignIndex(inf, ss[i]).Success?
    ensures r.Success? ==> |r.value| <= |ss|
  {
    if ss == [] then Success([])
    else
      var init :- ForeignIndexes(inf, ss[..|ss| - 1]);
      var last :- ForeignIndex(inf, ss[|ss| - 1]);
      Success(init + (if last.Some? then [last.value] else []))
  }
  /** Every foreign-key index comes from a relation side that holds a foreign key. */
  lemma {:induction false} ForeignIndexesFromForeignKeys(inf: Inflector, ss: seq<RelationshipSide>)
    requires ForeignIndexes(inf, ss).Success?
    ensures |ForeignIndexes(inf, ss).value| <= |ss|
    ensures forall k :: 0 <= k < |ForeignIndexes(inf, ss).value| ==>
              exists i :: 0 <= i < |ss| && ValidForeignKey(ss[i]) == Success(true)
                          && ForeignIndex(inf, ss[i]) == Success(Some(ForeignIndexes(inf, ss).value[k]))
    decreases |ss|
  {
    if ss != [] {
      var init := ss[..|ss| - 1];
      ForeignIndexesFromForeignKeys(inf, init);
      var r := ForeignIndexes(inf, ss).value;
      var ri := ForeignIndexes(inf, init).value;
      var last := ForeignIndex(inf, ss[|ss| - 1]).value;
      assert r == ri + (if last.Some? then [last.value] else []);
      forall k | 0 <= k < |r|
        ensures exists i :: 0 <= i < |ss| && ValidForeignKey(ss[i]) == Success(true)
                            && ForeignIndex(inf, ss[i]) == Success(Some(r[k]))
      {
        if k < |ri| {
          assert r[k] == ri[k];
          var i :| 0 <= i < |init| && ValidForeignKey(init[i]) == Success(true)
                   && ForeignIndex(inf, init[i]) == Success(Some(ri[k]));
          assert ss[i] == init[i];
        } else {
          assert ForeignIndex(inf, ss[|ss| - 1]) == Success(Some(r[k]));
        }
      }
    }
  }

  /** An Index object holds what `createIndex` puts in it. */
  predicate Realised(index: Index, spec: IndexSpec)
    reads index
  {
    index.name == spec.name && index.fields == [spec.field] && index.order == "ASC"
    && index.description == Some(spec.description)
  }

  predicate Realises(indexes: seq<Index>, specs: seq<IndexSpec>)
    reads set index | index in indexes
  {
    |indexes| == |specs| && forall i :: 0 <= i < |indexes| ==> Realised(indexes[i], specs[i])
  }

  lemma RealisesEach(indexes: seq<Index>, specs: seq<IndexSpec>)
    requires |indexes| == |specs| && forall i :: 0 <= i < |indexes| ==> Realised(indexes[i], specs[i])
    ensures Realises(indexes, specs)
  {
  }

  lemma RealisesAppend(a: seq<Index>, sa: seq<IndexSpec>, b: seq<Index>, sb: seq<IndexSpec>)
    requires Realises(a, sa) && Realises(b, sb)
    ensures Realises(a + b, sa + sb)
  {
    forall i | 0 <= i < |a + b|
      ensures Realised((a + b)[i], (sa + sb)[i])
    {
      if i >= |a| {
        assert (a + b)[i] == b[i - |a|] && (sa + sb)[i] == sb[i - |a|];
      }
    }
  }

  /** `createIndex($field, $description)`. */
  method CreateIndex(inf: Inflector, field: Field, description: string) returns (r: Result<Index>)
    ensures r.Failure? ==> IndexOf(inf, field, description) == Failure(r.error)
    ensures r.Success? ==> IndexOf(inf, field, description).Success?
                           && fresh(r.value) && Realised(r.value, IndexOf(inf, field, description).value)
  {
    var column := FieldColumnName(inf, field);
    if column.Failure? {
      return Failure(column.error);
    }
    var index := new Index(column.value + "_idx", [field]);
    var _ := index.SetDescription(description);
    r := Success(index);
  }

  /** A left-to-right pass that failed on a prefix fails the same way on the whole. */
  lemma {:induction false} SearchIndexesPrefix(inf: Inflector, fs: seq<Field>, k: nat)
    requires k <= |fs| && SearchIndexes(inf, fs[..k]).Failure?
    ensures SearchIndexes(inf, fs) == SearchIndexes(inf, fs[..k])
    decreases |fs| - k
  {
    if k < |fs| {
      assert fs[..|fs| - 1][..k] == fs[..k];
      SearchIndexesPrefix(inf, fs[..|fs| - 1], k);
    } else {
      assert fs[..k] == fs;
    }
  }

  lemma {:induction false} ForeignIndexesPrefix(inf: Inflector, ss: seq<RelationshipSide>, k: nat)
    requires k <= |ss| && ForeignIndexes(inf, ss[..k]).Failure?
    ensures ForeignIndexes(inf, ss) == ForeignIndexes(inf, ss[..k])
    decreases |ss| - k
  {
    if k < |ss| {
      assert ss[..|ss| - 1][..k] == ss[..k];
      ForeignIndexesPrefix(inf, ss[..|ss| - 1], k);
    } else {
      assert ss[..k] == ss;
    }
  }

  /** A pass over the fields whose first failure is at `i` fails with that error. */
  lemma {:induction false} SearchIndexesFail(inf: Inflector, fs: seq<Field>, i: nat)
    requires i < |fs| && IndexOf(inf, fs[i], SearchIndexDescription).Failure?
    requires forall k :: 0 <= k < i ==> IndexOf(inf, fs[k], SearchIndexDescription).Success?
    ensures SearchIndexes(inf, fs) == Failure(IndexOf(inf, fs[i], SearchIndexDescription).error)
    decreases |fs|
  {
    if i < |fs| - 1 {
      SearchIndexesFail(inf, fs[..|fs| - 1], i);
    } else {
      assert forall k :: 0 <= k < i ==> fs[..i][k] == fs[k];
      SearchIndexesMeans(inf, fs[..i]);
    }
  }

  /** The first loop of `getIndexes`: one search index per field. */
  method CreateSearchIndexes(inf: Inflector, fs: seq<Field>) returns (r: Result<seq<Index>>)
    ensures r.Failure? ==> SearchIndexes(inf, fs) == Failure(r.error)
    ensures r.Success? ==> SearchIndexes(inf, fs).Success? && Realises(r.value, SearchIndexes(inf, fs).value)
    ensures r.Success? ==> forall k :: 0 <= k < |r.value| ==> fresh(r.value[k])
  {
    hide *;
    var indexes: seq<Index> := [];
    var i := 0;
    while i < |fs|
      invariant 0 <= i <= |fs| && |indexes| == i
      invariant forall k :: 0 <= k < i ==> IndexOf(inf, fs[k], SearchIndexDescription).Success?
      invariant forall k :: 0 <= k < i ==> Realised(indexes[k], IndexOf(inf, fs[k], SearchIndexDescription).value)
      invariant forall k :: 0 <= k < i ==> fresh(indexes[k])
    {
      var index := CreateIndex(inf, fs[i], SearchIndexDescription);
      if index.Failure? {
        SearchIndexesFail(inf, fs, i);
        return Failure(index.error);
      }
      indexes := indexes + [index.value];
      i := i + 1;
    }
    SearchIndexesAll(inf, fs);
    RealisesEach(indexes, SearchIndexes(inf, fs).value);
    r := Success(indexes);
  }

  /** When every field names its column, the search indexes are the fields' indexes. */
  lemma SearchIndexesAll(inf: Inflector, fs: seq<Field>)
    requires forall k :: 0 <= k < |fs| ==> IndexOf(inf, fs[k], SearchIndexDescription).Success?
    ensures SearchIndexes(inf, fs).Success?
    ensures forall k :: 0 <= k < |fs| ==> SearchIndexes(inf, fs).value[k] == IndexOf(inf, fs[k], SearchIndexDescription).value
  {
    SearchIndexesMeans(inf, fs);
  }

  /** The body of the second loop of `getIndexes`, for one relation. */
  method CreateForeignIndex(inf: Inflector, side: RelationshipSide) returns (r: Result<Option<Index>>)
    ensures r.Failure? ==> ForeignIndex(inf, side) == Failure(r.error)
    ensures r.Success? ==> ForeignIndex(inf, side).Success?
                           && (r.value.None? <==> ForeignIndex(inf, side).value.None?)
    ensures r.Success? && r.value.Some? ==>
              fresh(r.value.value) && Realised(r.value.value, ForeignIndex(inf, side).value.value)
  {
    var valid :- ValidForeignKey(side);
    if !valid {
      return Success(None);
    }
    var remote := side.GetRemoteSide();
    if remote == null {
      return Failure(Error(Fatal, GetEntityOnNull));
    }
    var owner :- SideEntity(remote);
    if side.field == null {
      return Failure(Error(Fatal, CreateIndexOnNull));
    }
    var index :- CreateIndex(inf, side.field, owner.name + ForeignIndexSuffix);
    r := Success(Some(index));
  }

  /** One more relation: its failure is the whole pass's, else its index (if any) is appended. */
  lemma ForeignIndexesStep(inf: Inflector, ss: seq<RelationshipSide>, j: nat)
    requires j < |ss| && ForeignIndexes(inf, ss[..j]).Success?
    ensures ForeignIndex(inf, ss[j]).Failure? ==> ForeignIndexes(inf, ss) == Failure(ForeignIndex(inf, ss[j]).error)
    ensures ForeignIndex(inf, ss[j]) == Success(None) ==> ForeignIndexes(inf, ss[..j + 1]) == ForeignIndexes(inf, ss[..j])
    ensures ForeignIndex(inf, ss[j]).Success? && ForeignIndex(inf, ss[j]).value.Some? ==>
              ForeignIndexes(inf, ss[..j + 1]) == Success(ForeignIndexes(inf, ss[..j]).value + [ForeignIndex(inf, ss[j]).value.value])
  {
    var p := ss[..j + 1];
    assert p[..|p| - 1] == ss[..j] && p[|p| - 1] == ss[j];
    if ForeignIndex(inf, ss[j]).Failure? {
      assert ForeignIndexes(inf, p) == Failure(ForeignIndex(inf, ss[j]).error);
      ForeignIndexesPrefix(inf, ss, j + 1);
    } else if ForeignIndex(inf, ss[j]).value.None? {
      var init := ForeignIndexes(inf, ss[..j]).value;
      assert ForeignIndexes(inf, p) == Success(init + []);
      assert init + [] == init;
    }
  }

  /** One turn of the second loop of `getIndexes`: the index for `ss[j]`, if any. */
  method CreateForeignIndexNext(inf: Inflector, ss: seq<RelationshipSide>, j: nat, ghost specs: seq<IndexSpec>)
      returns (r: Result<Option<Index>>)
    requires j < |ss| && ForeignIndexes(inf, ss[..j]) == Success(specs)
    ensures r.Failure? ==> ForeignIndexes(inf, ss) == Failure(r.error)
    ensures r.Success? && r.value.None? ==> ForeignIndexes(inf, ss[..j + 1]) == Success(specs)
    ensures r.Success? && r.value.Some? ==>
              fresh(r.value.value) && ForeignIndex(inf, ss[j]).Success? && ForeignIndex(inf, ss[j]).value.Some?
              && Realised(r.value.value, ForeignIndex(inf, ss[j]).value.value)
              && ForeignIndexes(inf, ss[..j + 1]) == Success(specs + [ForeignIndex(inf, ss[j]).value.value])
  {
    ForeignIndexesStep(inf, ss, j);
    r := CreateForeignIndex(inf, ss[j]);
  }

  /** The second loop of `getIndexes`: an index for each relation holding a foreign key. */
  method CreateForeignIndexes(inf: Inflector, ss: seq<RelationshipSide>) returns (r: Result<seq<Index>>)
    ensures r.Failure? ==> ForeignIndexes(inf, ss) == Failure(r.error)
    ensures r.Success? ==> ForeignIndexes(inf, ss).Success? && Realises(r.value, ForeignIndexes(inf, ss).value)
    ensures r.Success? ==> forall k :: 0 <= k < |r.value| ==> fresh(r.value[k])
  {
    var indexes: seq<Index> := [];
    ghost var specs: seq<IndexSpec> := [];
    var j := 0;
    assert ss[..0] == [];
    while j < |ss|
      invariant 0 <= j <= |ss|
      invariant ForeignIndexes(inf, ss[..j]) == Success(specs)
      invariant Realises(indexes, specs)
      invariant forall k :: 0 <= k < |indexes| ==> fresh(indexes[k])
    {
      var index := CreateForeignIndexNext(inf, ss, j, specs);
      if index.Failure? {
        return Failure(index.error);
      }
      if index.value.Some? {
        indexes := indexes + [index.value.value];
        specs := specs + [ForeignIndex(inf, ss[j]).value.value];
      }
      j := j + 1;
    }
    assert ss[..j] == ss;
    r := Success(indexes);
  }

  /**
   * `getIndexes($entity)`: the search indexes, then the foreign-key ones; the first
   * failure of either pass is the method's.
   */
  method GetIndexes(inf: Inflector, entity: Entity) returns (r: Result<seq<Index>>)
    ensures var search := SearchIndexes(inf, Flagged(Values(entity.fields), SearchableFlag));
            var foreign := ForeignIndexes(inf, RelationsOf(Values(entity.fields)));
            (search.Failure? ==> r == Failure(search.error))
            && (search.Success? && foreign.Failure? ==> r == Failure(foreign.error))
            && (search.Success? && foreign.Success? ==>
                  r.Success? && Realises(r.value, search.value + foreign.value)
                  && forall i :: 0 <= i < |r.value| ==> fresh(r.value[i]))
  {
    // getSearchableFields() and getRelations(), as the functions that specify them
    var searchable := Flagged(Values(entity.fields), SearchableFlag);
    var relations := RelationsOf(Values(entity.fields));
    var search := CreateSearchIndexes(inf, searchable);
    if search.Failure? {
      return Failure(search.error);
    }
    ghost var wantedSearch := SearchIndexes(inf, searchable).value;
    var foreign := CreateForeignIndexes(inf, relations);
    assert SearchIndexes(inf, searchable) == Success(wantedSearch);
    if foreign.Failure? {
      return Failure(foreign.error);
    }
    RealisesAppend(search.value, wantedSearch, foreign.value, ForeignIndexes(inf, relations).value);
    r := Success(search.value + foreign.value);
  }

  // ---------------------------------------------------------------------------------
  // Fields stored in a table and fields checked by an audit

  /** The fields that are not lists, in order: what `getDatabaseFields` keeps. */
  function NonListFields(fs: seq<Field>): seq<Field>
    reads fs
  {
    if fs == [] then []
    else NonListFields(fs[..|fs| - 1]) + (if fs[|fs| - 1].list then [] else [fs[|fs| - 1]])
  }

  /** A field is kept exactly when it is not a list. */
  lemma {:induction false} NonListFieldsExactly(fs: seq<Field>)
    ensures forall f :: f in NonListFields(fs) <==> f in fs && !f.list
    ensures |NonListFields(fs)| <= |fs|
    decreases |fs|
  {
    if fs != [] {
      NonListFieldsExactly(fs[..|fs| - 1]);
      assert fs == fs[..|fs| - 1] + [fs[|fs| - 1]];
    }
  }

  /** `getDatabaseFields`. */
  method GetDatabaseFields(entity: Entity) returns (r: seq<Field>)
    ensures r == NonListFields(Values(entity.fields))
  {
    var fs := Values(entity.fields);
    r := [];
    var i := 0;
    while i < |fs|
      invariant 0 <= i <= |fs|
      invariant r == NonListFields(fs[..i])
    {
      assert fs[..i + 1][..i] == fs[..i];
      if !fs[i].list {
        r := r + [fs[i]];
      }
      i := i + 1;
    }
    assert fs[..|fs|] == fs;
  }

  /**
   * Whether `getAuditedFields` keeps a field: not generated (unless it is the
   * identifier), not a list, not a managed timestamp, and not the identifier when
   * `includeId` is off. `isCreated` and `isUpdated` stand for FieldHelper's
   * isEntityCreatedTimestamp and isEntityUpdatedTimestamp, which it does not declare.
   */
  predicate Audited(f: Field, identifier: Field?, includeId: bool,
                    isCreated: FieldAttrs -> bool, isUpdated: FieldAttrs -> bool)
    reads f
  {
    var audited :=
      if f.generated && f != identifier then false
      else if f.list then false
      else if isCreated(f.Attrs()) then false
      else !isUpdated(f.Attrs());
    audited && !(!includeId && f == identifier)
  }

  function AuditedFields(fs: seq<Field>, identifier: Field?, includeId: bool,
                         isCreated: FieldAttrs -> bool, isUpdated: FieldAttrs -> bool): (r: seq<Field>)
    reads fs
    ensures |r| <= |fs|
    ensures forall f :: f in r ==> f in fs && Audited(f, identifier, includeId, isCreated, isUpdated)
  {
    if fs == [] then []
    else
      var last := fs[|fs| - 1];
      AuditedFields(fs[..|fs| - 1], identifier, includeId, isCreated, isUpdated)
        + (if Audited(last, identifier, includeId, isCreated, isUpdated) then [last] else [])
  }

  /** What the audit keeps, field by field. */
  lemma {:induction false} AuditedFieldsExactly(fs: seq<Field>, identifier: Field?, includeId: bool,
                                                 isCreated: FieldAttrs -> bool, isUpdated: FieldAttrs -> bool)
    ensures forall f :: f in AuditedFields(fs, identifier, includeId, isCreated, isUpdated) <==>
              f in fs && (f == identifier || !f.generated) && !f.list
              && !isCreated(f.Attrs()) && !isUpdated(f.Attrs()) && (includeId || f != identifier)
    decreases |fs|
  {
    if fs != [] {
      AuditedFieldsExactly(fs[..|fs| - 1], identifier, includeId, isCreated, isUpdated);
      assert fs == fs[..|fs| - 1] + [fs[|fs| - 1]];
    }
  }

  /** Every audited field is a stored one. */
  lemma AuditedAreStored(fs: seq<Field>, identifier: Field?, includeId: bool,
                         isCreated: FieldAttrs -> bool, isUpdated: FieldAttrs -> bool)
    ensures forall f :: f in AuditedFields(fs, identifier, includeId, isCreated, isUpdated) ==> f in NonListFields(fs)
  {
    AuditedFieldsExactly(fs, identifier, includeId, isCreated, isUpdated);
    NonListFieldsExactly(fs);
  }

  /** `getAuditedFields($entity, $includeId)`. */
  method GetAuditedFields(entity: Entity, includeId: bool, isIdentifier: FieldAttrs -> bool,
                          isCreated: FieldAttrs -> bool, isUpdated: FieldAttrs -> bool) returns (r: seq<Field>)
    ensures r == AuditedFields(Values(entity.fields), FirstIdentifier(Values(entity.fields), isIdentifier),
                               includeId, isCreated, isUpdated)
  {
    hide *;
    var fs := Values(entity.fields);
    var identifier := entity.GetIdentifier(isIdentifier);
    r := [];
    var i := 0;
    AuditedFieldsSnoc(fs, 0, identifier, includeId, isCreated, isUpdated);
    while i < |fs|
      invariant 0 <= i <= |fs|
      invariant r == AuditedFields(fs[..i], identifier, includeId, isCreated, isUpdated)
    {
      AuditedFieldsSnoc(fs, i, identifier, includeId, isCreated, isUpdated);
      var field := fs[i];
      var audited := true;
      if field.generated && field != identifier {
        audited := false;
      } else if field.list {
        audited := false;
      } else if isCreated(field.Attrs()) {
        audited := false;
      } else if isUpdated(field.Attrs()) {
        audited := false;
      }
      if !includeId && field == identifier {
        audited := false;
      }
      AuditedMeans(field, identifier, includeId, isCreated, isUpdated);
      if audited {
        r := r + [field];
      }
      i := i + 1;
    }
    assert fs[..|fs|] == fs;
  }

  lemma AuditedMeans(f: Field, identifier: Field?, includeId: bool,
                     isCreated: FieldAttrs -> bool, isUpdated: FieldAttrs -> bool)
    ensures Audited(f, identifier, includeId, isCreated, isUpdated) <==>
              (f == identifier || !f.generated) && !f.list && !isCreated(f.Attrs()) && !isUpdated(f.Attrs())
              && (includeId || f != identifier)
  {
  }

  lemma AuditedFieldsSnoc(fs: seq<Field>, i: nat, identifier: Field?, includeId: bool,
                          isCreated: FieldAttrs -> bool, isUpdated: FieldAttrs -> bool)
    requires i <= |fs|
    ensures i == 0 ==> AuditedFields(fs[..i], identifier, includeId, isCreated, isUpdated) == []
    ensures i < |fs| ==>
              AuditedFields(fs[..i + 1], identifier, includeId, isCreated, isUpdated)
              == AuditedFields(fs[..i], identifier, includeId, isCreated, isUpdated)
                 + (if Audited(fs[i], identifier, includeId, isCreated, isUpdated) then [fs[i]] else [])
  {
    if i < |fs| {
      assert fs[..i + 1][..i] == fs[..i];
    }
  }
}
