/**
 * `generateRelationalFields` (src/Adapter/RelationalDatabaseAdapter.php): the pass over a
 * package that first gives every entity without an identifier a generated one, then adds
 * a foreign-key field on the remote side of each one-to-many relation whose remote side
 * has no field yet.
 */
module RelationalFields {
  import opened Wrappers
  import opened OrderedMap
  import opened Inflection
  import opened FieldHelper
  import opened Model
  import opened DatabaseAdapter
  import opened RelationalAdapter
  import Bundles

  // ---------------------------------------------------------------------------------
  // First loop: identifiers

  /** `isIdentifier` recognises every identifier the adapter generates with this type. */
  ghost predicate RecognisesGenerated(identifierType: string, isIdentifier: FieldAttrs -> bool)
  {
    forall n :: isIdentifier(IdentifierAttrs(n, identifierType))
  }

  /** `after` is `before` with the generated identifier of an entity named `name` appended. */
  predicate GainedIdentifier(inf: Inflector, name: string, identifierType: string,
                             before: seq<(string, Field)>, after: seq<(string, Field)>)
    reads if |after| > |before| then {after[|before|].1} else {}
  {
    |after| == |before| + 1 && after[..|before|] == before
    && IdentifierName(inf, name, before).Some?
    && after[|before|].0 == IdentifierName(inf, name, before).value
    && after[|before|].1.Attrs() == IdentifierAttrs(IdentifierName(inf, name, before).value, identifierType)
  }

  /** A generated identifier that `isIdentifier` recognises makes the entity identified. */
  lemma IdentifiedAfterGain(fs: seq<(string, Field)>, n: string, f: Field, identifierType: string,
                            isIdentifier: FieldAttrs -> bool)
    requires f.Attrs() == IdentifierAttrs(n, identifierType) && isIdentifier(f.Attrs())
    ensures FirstIdentifier(Values(fs + [(n, f)]), isIdentifier) != null
  {
    assert Values(fs + [(n, f)])[|fs|] == f;
    assert IsIdentifierCandidate(f, isIdentifier);
    FirstIdentifierIsFirst(Values(fs + [(n, f)]), isIdentifier);
  }

  /** `after` is `before` followed by fields without a relation. */
  predicate UnrelatedAdded(before: seq<(string, Field)>, after: seq<(string, Field)>)
    reads set p | p in after :: p.1
  {
    before <= after && forall m :: |before| <= m < |after| ==> after[m].1.relation == null
  }

  /** The body of the first loop for one entity. */
  method IdentifyEntity(inf: Inflector, entity: Entity, identifierType: string, isIdentifier: FieldAttrs -> bool)
    returns (r: Outcome)
    modifies entity
    ensures entity.Info() == old(entity.Info()) && UnrelatedAdded(old(entity.fields), entity.fields)
    ensures old(FirstIdentifier(Values(entity.fields), isIdentifier)) != null ==> r.Done? && entity.fields == old(entity.fields)
    ensures r.Fail? ==> IdentifierName(inf, entity.name, old(entity.fields)).None?
                        && r.error == Error(Runtime, IdentifierTaken(entity.name, inf.camelize(entity.name) + "Id"))
    ensures r.Done? && old(FirstIdentifier(Values(entity.fields), isIdentifier)) == null ==>
              GainedIdentifier(inf, entity.name, identifierType, old(entity.fields), entity.fields)
    ensures r.Done? && RecognisesGenerated(identifierType, isIdentifier) ==>
              FirstIdentifier(Values(entity.fields), isIdentifier) != null
  {
    hide IdentifierTaken;
    var identifier := entity.GetIdentifier(isIdentifier);
    if identifier == null {
      ghost var before := entity.fields;
      ghost var added: Field?;
      r, added := GenerateIdentifierField(inf, entity, identifierType);
      if r.Done? && RecognisesGenerated(identifierType, isIdentifier) {
        IdentifiedAfterGain(before, IdentifierName(inf, entity.name, before).value, added,
                            identifierType, isIdentifier);
      }
    } else {
      r := Done;
    }
  }

  /**
   * The first loop of `generateRelationalFields`: `generateIdentifierField` on each entity
   * whose `getIdentifier()` is null, stopping at the first that throws. What happens to one
   * entity is IdentifyEntity's contract; this one says what holds of them all.
   */
  method AddMissingIdentifiers(inf: Inflector, entities: seq<Entity>, identifierType: string,
                               isIdentifier: FieldAttrs -> bool) returns (r: Outcome)
    requires forall j, k :: 0 <= j < k < |entities| ==> entities[j] != entities[k]
    modifies set e | e in entities
    ensures forall k :: 0 <= k < |entities| ==>
              entities[k].Info() == old(entities[k].Info()) && UnrelatedAdded(old(entities[k].fields), entities[k].fields)
    ensures r.Done? && RecognisesGenerated(identifierType, isIdentifier) ==>
              forall k :: 0 <= k < |entities| ==>
                FirstIdentifier(Values(entities[k].fields), isIdentifier) != null
    ensures r.Fail? ==> exists k :: 0 <= k < |entities| && IdentifierName(inf, entities[k].name, old(entities[k].fields)).None?
                                    && r.error == Error(Runtime, IdentifierTaken(entities[k].name, inf.camelize(entities[k].name) + "Id"))
  {
    hide IdentifierTaken, IdentifierName, GainedIdentifier, FirstIdentifier, HasKey, IdentifierAttrs, RecognisesGenerated;
    var i := 0;
    while i < |entities|
      invariant 0 <= i <= |entities|
      invariant forall k :: 0 <= k < |entities| ==>
                  entities[k].Info() == old(entities[k].Info()) && UnrelatedAdded(old(entities[k].fields), entities[k].fields)
      invariant forall k :: i <= k < |entities| ==> entities[k].fields == old(entities[k].fields)
      invariant RecognisesGenerated(identifierType, isIdentifier) ==>
                  forall k :: 0 <= k < i ==>
                    FirstIdentifier(Values(entities[k].fields), isIdentifier) != null
    {
      var entity := entities[i];
      var outcome := IdentifyEntity(inf, entity, identifierType, isIdentifier);
      if outcome.Fail? {
        return outcome;
      }
      i := i + 1;
    }
    r := Done;
  }

  // ---------------------------------------------------------------------------------
  // Second loop: foreign keys

  const GetFieldOnNull := "Call to a member function getField() on null"

  /**
   * Whether the relation `s` of a field calls for a new foreign key: its relationship is
   * one-to-many and its remote side has no field. `getRelationship()` is called first, so
   * an unset relationship is a TypeError; `getRemoteSide()` only after the type test.
   */
  function NeedsForeignKey(s: RelationshipSide): (r: Result<bool>)
    reads s`relationship, s`side, (if s.GetRemoteSide() != null then {s.GetRemoteSide()} else {})`field
    ensures r.Failure? <==> s.relationship == null
                            || (s.relationship.relType == ONE_TO_MANY && s.GetRemoteSide() == null)
    ensures r == Success(true) <==> s.relationship != null && s.relationship.relType == ONE_TO_MANY
                                    && s.GetRemoteSide() != null && s.GetRemoteSide().field == null
  {
    if s.relationship == null then Failure(Error(Fatal, RelationshipUnset))
    else if s.relationship.relType != ONE_TO_MANY then Success(false)
    else if s.GetRemoteSide() == null then Failure(Error(Fatal, GetFieldOnNull))
    else Success(s.GetRemoteSide().field == null)
  }

  /** What handling the relation `s` may change: its remote side and that side's entity. */
  function LinkFrame(s: RelationshipSide): set<object>
    reads s`relationship, s`side
  {
    var remote := s.GetRemoteSide();
    if remote == null then {}
    else if remote.owner.OfEntity? then {remote, remote.owner.entity}
    else {remote}
  }

  /**
   * The body of the second loop for one field of `entity` whose relation is `s`: when the
   * relation needs one, a foreign key to `entity` is generated on the remote side's entity
   * and becomes the remote side's field.
   */
  method LinkForeignKey(inf: Inflector, entity: Entity, s: RelationshipSide, isIdentifier: FieldAttrs -> bool)
    returns (r: Outcome)
    modifies LinkFrame(s)
    // in every case: the remote side keeps its relationship, its stamp and any field it had,
    // and its entity only gains fields whose relation is the remote side
    ensures var remote := old(s.GetRemoteSide());
            remote != null ==>
              && remote.relationship == old(remote.relationship) && remote.side == old(remote.side)
              && (old(remote.field) != null ==> remote.field == old(remote.field))
              && (remote.owner.OfEntity? ==>
                    var owner := remote.owner.entity;
                    && owner.Info() == old(owner.Info()) && old(owner.fields) <= owner.fields
                    && forall k :: |old(owner.fields)| <= k < |owner.fields| ==> owner.fields[k].1.relation == remote)
    ensures r.Done? ==> Resolved(s)
    ensures old(NeedsForeignKey(s)).Failure? ==> r == Fail(old(NeedsForeignKey(s)).error) && unchanged(old(LinkFrame(s)))
    ensures old(NeedsForeignKey(s)) == Success(false) ==> r == Done && unchanged(old(LinkFrame(s)))
    ensures old(NeedsForeignKey(s)) == Success(true) && old(s.GetRemoteSide()).owner.OfModel? ==>
              r == Fail(Error(Fatal, EntityOfModel)) && unchanged(old(LinkFrame(s)))
    ensures old(NeedsForeignKey(s)) == Success(true) && old(s.GetRemoteSide()).owner.OfEntity? ==>
              var remote := old(s.GetRemoteSide());
              var owner := remote.owner.entity;
              var n := inf.camelize(old(entity.name));
              && (r.Done? <==> old(FirstIdentifier(Values(entity.fields), isIdentifier)) != null
                               && !HasKey(old(owner.fields), n))
              && (r.Fail? ==> unchanged(old(LinkFrame(s)))
                              && r.error == Error(Runtime, if old(FirstIdentifier(Values(entity.fields), isIdentifier)) == null
                                                           then NoForeignIdentifier(old(entity.name))
                                                           else ForeignKeyTaken(old(owner.name), n)))
              && (r.Done? ==>
                    remote.field != null && fresh(remote.field) && remote.field.relation == remote
                    && remote.field.Attrs() == ForeignKeyAttrs(n, old(entity.name))
                    && owner.fields == old(owner.fields) + [(n, remote.field)]
                    && owner.Info() == old(owner.Info())
                    && remote.side == old(remote.side) && remote.relationship == old(remote.relationship))
  {
    hide NoForeignIdentifier, ForeignKeyTaken;
    var needed := NeedsForeignKey(s);
    if needed.Failure? {
      return Fail(needed.error);
    }
    if !needed.value {
      return Done;
    }
    var remote := s.GetRemoteSide();
    var owner := SideEntity(remote);
    if owner.Failure? {
      return Fail(owner.error);
    }
    var field := GenerateForeignKeyField(inf, owner.value, entity, isIdentifier);
    if field.Failure? {
      return Fail(field.error);
    }
    var _ := remote.SetField(field.value);
    r := Done;
  }

  /** The relation `s` needs no new foreign key, and handling it again changes nothing. */
  predicate Resolved(s: RelationshipSide)
    reads s`relationship, s`side, (if s.GetRemoteSide() != null then {s.GetRemoteSide()} else {})`field
  {
    s.relationship != null
    && (s.relationship.relType != ONE_TO_MANY || (s.GetRemoteSide() != null && s.GetRemoteSide().field != null))
  }

  /** A resolved side is exactly one the pass would leave alone without error. */
  lemma ResolvedMeansNoForeignKey(s: RelationshipSide)
    ensures Resolved(s) <==> NeedsForeignKey(s) == Success(false)
  {
  }

  /** The remote side of every side in `S` is in `S`, and its entity, if it has one, in `E`. */
  predicate SidesClosed(E: set<Entity>, S: set<RelationshipSide>)
    reads S`relationship, S`side
  {
    forall s :: s in S && s.GetRemoteSide() != null ==>
      s.GetRemoteSide() in S && (s.GetRemoteSide().owner.OfEntity? ==> s.GetRemoteSide().owner.entity in E)
  }

  /** Every relation of the named fields `fs` is in `S`. */
  predicate RelationsIn(fs: seq<(string, Field)>, S: set<RelationshipSide>)
    reads set p | p in fs :: p.1
  {
    forall k :: 0 <= k < |fs| && fs[k].1.relation != null ==> fs[k].1.relation in S
  }

  /** Fields appended with relations in `S` keep every relation in `S`. */
  lemma {:induction false} RelationsInGrown(before: seq<(string, Field)>, after: seq<(string, Field)>, S: set<RelationshipSide>)
    requires RelationsIn(before, S) && before <= after
    requires forall k :: |before| <= k < |after| && after[k].1.relation != null ==> after[k].1.relation in S
    ensures RelationsIn(after, S)
  {
  }

  /**
   * The body of the inner loop for the field `f` of `entity`: nothing when it has no
   * relation, LinkForeignKey otherwise. What it keeps is stated for any entities `E` and
   * sides `S` the pass can reach.
   */
  method LinkField(inf: Inflector, entity: Entity, f: Field, isIdentifier: FieldAttrs -> bool,
                   ghost E: set<Entity>, ghost S: set<RelationshipSide>) returns (r: Outcome)
    requires SidesClosed(E, S) && (f.relation != null ==> f.relation in S)
    requires forall e :: e in E ==> RelationsIn(e.fields, S)
    modifies E, S
    ensures forall x :: x in S ==>
              && x.relationship == old(x.relationship) && x.side == old(x.side)
              && (old(x.field) != null ==> x.field == old(x.field))
    ensures forall e :: e in E ==> e.Info() == old(e.Info()) && old(e.fields) <= e.fields
    ensures forall e :: e in E ==> RelationsIn(e.fields, S)
    ensures r.Done? && f.relation != null ==> Resolved(f.relation)
  {
    hide NoForeignIdentifier, ForeignKeyTaken, ForeignKeyAttrs, FirstIdentifier, HasKey, Values, NeedsForeignKey;
    var relation := f.relation;
    if relation != null {
      ghost var remote := relation.GetRemoteSide();
      ghost var owner: Entity? := if remote != null && remote.owner.OfEntity? then remote.owner.entity else null;
      ghost var before := if owner != null then owner.fields else [];
      r := LinkForeignKey(inf, entity, relation, isIdentifier);
      if owner != null {
        RelationsInGrown(before, owner.fields, S);
      }
    } else {
      r := Done;
    }
  }

  /**
   * The inner loop of the second pass: LinkForeignKey for each field of `entity` that has a
   * relation, over the fields as they were when the loop started, stopping at the first
   * that throws. `E` and `S` are the entities and sides the pass can reach.
   */
  method LinkEntityRelations(inf: Inflector, entity: Entity, ghost E: set<Entity>, ghost S: set<RelationshipSide>,
                             isIdentifier: FieldAttrs -> bool) returns (r: Outcome)
    requires entity in E && SidesClosed(E, S) && forall e :: e in E ==> RelationsIn(e.fields, S)
    modifies E, S
    ensures forall x :: x in S ==>
              && x.relationship == old(x.relationship) && x.side == old(x.side)
              && (old(x.field) != null ==> x.field == old(x.field))
    ensures forall e :: e in E ==> e.Info() == old(e.Info()) && old(e.fields) <= e.fields
    ensures forall e :: e in E ==> RelationsIn(e.fields, S)
    ensures r.Done? ==> forall m :: 0 <= m < |old(entity.fields)| && old(entity.fields)[m].1.relation != null ==>
                          Resolved(old(entity.fields)[m].1.relation)
  {
    hide NoForeignIdentifier, ForeignKeyTaken, ForeignKeyAttrs, FirstIdentifier, HasKey, NeedsForeignKey;
    var fields := entity.fields;
    var j := 0;
    while j < |fields|
      invariant 0 <= j <= |fields| && fields == old(entity.fields)
      invariant forall x :: x in S ==>
                  && x.relationship == old(x.relationship) && x.side == old(x.side)
                  && (old(x.field) != null ==> x.field == old(x.field))
      invariant forall e :: e in E ==> e.Info() == old(e.Info()) && old(e.fields) <= e.fields
      invariant forall e :: e in E ==> RelationsIn(e.fields, S)
      invariant forall k :: 0 <= k < j && fields[k].1.relation != null ==> Resolved(fields[k].1.relation)
    {
      var outcome := LinkField(inf, entity, fields[j].1, isIdentifier, E, S);
      if outcome.Fail? {
        return outcome;
      }
      j := j + 1;
    }
    r := Done;
  }

  /**
   * The second loop of `generateRelationalFields`: LinkEntityRelations for each entity in
   * turn, stopping at the first that throws. When none does, every relation the entities'
   * fields had beforehand needs no further foreign key.
   */
  method AddMissingForeignKeys(inf: Inflector, entities: seq<Entity>, ghost E: set<Entity>, ghost S: set<RelationshipSide>,
                               isIdentifier: FieldAttrs -> bool) returns (r: Outcome)
    requires forall k :: 0 <= k < |entities| ==> entities[k] in E
    requires SidesClosed(E, S) && forall e :: e in E ==> RelationsIn(e.fields, S)
    modifies E, S
    ensures forall x :: x in S ==>
              && x.relationship == old(x.relationship) && x.side == old(x.side)
              && (old(x.field) != null ==> x.field == old(x.field))
    ensures forall e :: e in E ==> e.Info() == old(e.Info()) && old(e.fields) <= e.fields
    ensures r.Done? ==>
              forall k, m :: 0 <= k < |entities| && 0 <= m < |old(entities[k].fields)|
                             && old(entities[k].fields)[m].1.relation != null ==>
                Resolved(old(entities[k].fields)[m].1.relation)
  {
    hide NoForeignIdentifier, ForeignKeyTaken, ForeignKeyAttrs, FirstIdentifier, HasKey, NeedsForeignKey;
    var i := 0;
    while i < |entities|
      invariant 0 <= i <= |entities|
      invariant forall x :: x in S ==>
                  && x.relationship == old(x.relationship) && x.side == old(x.side)
                  && (old(x.field) != null ==> x.field == old(x.field))
      invariant forall e :: e in E ==> e.Info() == old(e.Info()) && old(e.fields) <= e.fields
      invariant forall e :: e in E ==> RelationsIn(e.fields, S)
      invariant forall k, m :: 0 <= k < i && 0 <= m < |old(entities[k].fields)|
                               && old(entities[k].fields)[m].1.relation != null ==>
                  Resolved(old(entities[k].fields)[m].1.relation)
    {
      var outcome := LinkEntityRelations(inf, entities[i], E, S, isIdentifier);
      if outcome.Fail? {
        return outcome;
      }
      i := i + 1;
    }
    r := Done;
  }

  /** Fields appended after an identifier do not change which field is the identifier. */
  lemma {:induction false} FirstIdentifierKept(u: seq<Field>, w: seq<Field>, isIdentifier: FieldAttrs -> bool)
    requires FirstIdentifier(u, isIdentifier) != null
    ensures FirstIdentifier(u + w, isIdentifier) == FirstIdentifier(u, isIdentifier)
    decreases |u|
  {
    assert (u + w)[0] == u[0];
    if !IsIdentifierCandidate(u[0], isIdentifier) {
      assert (u + w)[1..] == u[1..] + w;
      FirstIdentifierKept(u[1..], w, isIdentifier);
    }
  }

  /** The same for named fields that only grew. */
  lemma IdentifierKept(before: seq<(string, Field)>, after: seq<(string, Field)>, isIdentifier: FieldAttrs -> bool)
    requires before <= after && FirstIdentifier(Values(before), isIdentifier) != null
    ensures FirstIdentifier(Values(after), isIdentifier) == FirstIdentifier(Values(before), isIdentifier)
  {
    assert Values(after) == Values(before) + Values(after)[|before|..];
    FirstIdentifierKept(Values(before), Values(after)[|before|..], isIdentifier);
  }

  /**
   * `generateRelationalFields($package, $identifierType)`: the identifiers first, then the
   * foreign keys, over the package's entities in order. `E` and `S` hold every entity and
   * relationship side the pass can reach; the package keys its entities by name, and the
   * same entity object is not expected under two names.
   */
  method GenerateRelationalFields(inf: Inflector, package: Bundles.Package, identifierType: string,
                                  isIdentifier: FieldAttrs -> bool, ghost E: set<Entity>, ghost S: set<RelationshipSide>)
    returns (r: Outcome)
    requires forall j, k :: 0 <= j < k < |package.entities| ==> package.entities[j].1 != package.entities[k].1
    requires forall k :: 0 <= k < |package.entities| ==> package.entities[k].1 in E
    requires SidesClosed(E, S) && forall e :: e in E ==> RelationsIn(e.fields, S)
    modifies E, S
    ensures forall e :: e in E ==> e.Info() == old(e.Info()) && old(e.fields) <= e.fields
    ensures forall x :: x in S ==> x.relationship == old(x.relationship) && x.side == old(x.side)
    ensures r.Done? && RecognisesGenerated(identifierType, isIdentifier) ==>
              forall k :: 0 <= k < |package.entities| ==>
                FirstIdentifier(Values(package.entities[k].1.fields), isIdentifier) != null
    ensures r.Done? ==>
              forall k, m :: 0 <= k < |package.entities| && 0 <= m < |old(package.entities[k].1.fields)|
                             && old(package.entities[k].1.fields)[m].1.relation != null ==>
                Resolved(old(package.entities[k].1.fields)[m].1.relation)
  {
    hide IdentifierTaken, IdentifierName, NoForeignIdentifier, ForeignKeyTaken, ForeignKeyAttrs, HasKey, IdentifierAttrs, GainedIdentifier, NeedsForeignKey;
    var entities := Values(package.entities);
    r := AddMissingIdentifiers(inf, entities, identifierType, isIdentifier);
    if r.Fail? {
      return;
    }
    label Identified:
    forall e | e in E
      ensures RelationsIn(e.fields, S)
    {
      if e in entities {
        var k :| 0 <= k < |entities| && entities[k] == e;
        RelationsInGrown(old(e.fields), e.fields, S);
      }
    }
    r := AddMissingForeignKeys(inf, entities, E, S, isIdentifier);
    if r.Done? && RecognisesGenerated(identifierType, isIdentifier) {
      forall k | 0 <= k < |entities|
        ensures FirstIdentifier(Values(entities[k].fields), isIdentifier) != null
      {
        IdentifierKept(old@Identified(entities[k].fields), entities[k].fields, isIdentifier);
      }
    }
  }
}
