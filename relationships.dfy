/**
 * Relationship inference between the models of a business bundle
 * (src/Helper/BusinessBundleHelper.php) and between the entities of a package
 * (src/Helper/PackageHelper.php). A field whose type names another model becomes one side
 * of a relationship; the remote model's fields typed with this model's name are the
 * candidates to link back, and their number and list flags decide the relationship.
 */
module Relationships {
  import opened Wrappers
  import opened OrderedMap
  import opened FieldHelper
  import opened Model
  import opened Bundles

  /** The fields typed with the owner's name, in order: the candidates to link back. */
  function BackFields(fs: seq<Field>, ownerName: string): seq<Field>
    reads fs
  {
    if fs == [] then []
    else
      var last := fs[|fs| - 1];
      BackFields(fs[..|fs| - 1], ownerName) + (if last.fieldType == ownerName then [last] else [])
  }

  lemma {:induction false} BackFieldsExactly(fs: seq<Field>, ownerName: string)
    ensures forall f :: f in BackFields(fs, ownerName) <==> f in fs && f.fieldType == ownerName
    decreases |fs|
  {
    if fs != [] {
      var init := fs[..|fs| - 1];
      BackFieldsExactly(init, ownerName);
      assert fs == init + [fs[|fs| - 1]];
    }
  }

  method CollectBackFields(fs: seq<Field>, ownerName: string) returns (r: seq<Field>)
    ensures r == BackFields(fs, ownerName)
  {
    r := [];
    var i := 0;
    while i < |fs|
      invariant 0 <= i <= |fs|
      invariant r == BackFields(fs[..i], ownerName)
    {
      assert fs[..i + 1][..i] == fs[..i];
      if fs[i].fieldType == ownerName {
        r := r + [fs[i]];
      }
      i := i + 1;
    }
    assert fs[..|fs|] == fs;
  }

  /** The type of a bidirectional relationship and whether the field being linked is its left side. */
  datatype Shape = Shape(relType: string, fieldLeft: bool)

  function BidirectionalShape(fieldList: bool, remoteList: bool): (s: Shape)
    ensures s.relType == MANY_TO_MANY <==> fieldList && remoteList
    ensures s.relType == ONE_TO_ONE <==> !fieldList && !remoteList
    ensures s.relType == ONE_TO_MANY <==> fieldList != remoteList
    ensures s.fieldLeft <==> fieldList || !remoteList
  {
    if fieldList && remoteList then Shape(MANY_TO_MANY, true)
    else if fieldList then Shape(ONE_TO_MANY, true)
    else if remoteList then Shape(ONE_TO_MANY, false)
    else Shape(ONE_TO_ONE, true)
  }

  /**
   * In a one-to-many pair the list side is left, whichever of the two fields is linked
   * first; in the two symmetric cases the field linked first is left.
   */
  lemma SideChoice(a: bool, b: bool)
    ensures a != b ==> BidirectionalShape(a, b).relType == BidirectionalShape(b, a).relType == ONE_TO_MANY
    ensures a != b ==> BidirectionalShape(a, b).fieldLeft == a && BidirectionalShape(b, a).fieldLeft == b
    ensures a == b ==> BidirectionalShape(a, b).fieldLeft
  {
  }

  function MissingRemoteMessage(fieldType: string, bundleName: string): string
  {
    "Failed to locate remote entity " + fieldType + " in package " + bundleName
  }

  function MultipleBackFieldsMessage(name: string, remoteName: string): string
  {
    "Multiple bidirectional relationships found between the same entities: " + name + " and "
      + remoteName + ". This is not supported yet"
  }

  /** Without a field to link back: this side is left with the field, the remote side has none. */
  predicate Unidirectional(rel: Relationship, owner: Owner, field: Field, remote: Owner)
    reads rel.leftSide, rel.rightSide, field
  {
    && rel.relType == (if field.list then ONE_TO_MANY else ONE_TO_ONE)
    && rel.leftSide.owner == owner && rel.leftSide.field == field
    && rel.rightSide.owner == remote && rel.rightSide.field == null
    && field.relation == rel.leftSide
    && rel.Linked()
  }

  /**
   * With exactly one field to link back, both fields get a side, placed as BidirectionalShape
   * says. A field typed with its own model is its own back field: it ends up on the second side.
   */
  predicate Bidirectional(rel: Relationship, owner: Owner, field: Field, remote: Owner, back: Field)
    reads rel.leftSide, rel.rightSide, field, back
  {
    var s := BidirectionalShape(field.list, back.list);
    var mine := if s.fieldLeft then rel.leftSide else rel.rightSide;
    var theirs := if s.fieldLeft then rel.rightSide else rel.leftSide;
    && rel.relType == s.relType
    && mine.owner == owner && mine.field == field
    && theirs.owner == remote && theirs.field == back
    && back.relation == theirs
    && (field != back ==> field.relation == mine)
    && rel.Linked()
  }

  /** What createRelationship yields once the remote owner is found, given the back fields. */
  predicate LinkOutcome(r: Result<Relationship>, owner: Owner, ownerName: string, field: Field,
                        remote: Owner, remoteName: string, backs: seq<Field>)
    reads field, backs, if r.Success? then {r.value.leftSide, r.value.rightSide} else {}
  {
    && (r.Success? <==> |backs| <= 1)
    && (r.Failure? ==> r.error == Error(Runtime, MultipleBackFieldsMessage(ownerName, remoteName)))
    && (r.Success? && backs == [] ==> Unidirectional(r.value, owner, field, remote))
    && (r.Success? && |backs| == 1 ==> Bidirectional(r.value, owner, field, remote, backs[0]))
  }

  /** The part both createRelationship methods share, after the remote lookup. */
  method Link(owner: Owner, ownerName: string, field: Field, remote: Owner, remoteName: string,
              remoteFields: seq<Field>) returns (r: Result<Relationship>)
    modifies field`relation, remoteFields`relation
    ensures LinkOutcome(r, owner, ownerName, field, remote, remoteName, old(BackFields(remoteFields, ownerName)))
    ensures r.Success? ==> field.relation != null
    ensures r.Failure? ==> field.relation == old(field.relation)
    ensures r.Failure? ==> RelationsUnchanged(remoteFields)
    ensures NoneUnlinked(set g | g in remoteFields)
  {
    var backs := CollectBackFields(remoteFields, ownerName);
    if |backs| == 0 {
      var rel := LinkOneWay(owner, field, remote);
      return Success(rel);
    }
    if |backs| == 1 {
      BackFieldsExactly(remoteFields, ownerName);
      assert backs[0] in backs;
      var rel := LinkBothWays(owner, field, remote, backs[0]);
      return Success(rel);
    }
    return Failure(Error(Runtime, MultipleBackFieldsMessage(ownerName, remoteName)));
  }

  method LinkOneWay(owner: Owner, field: Field, remote: Owner) returns (rel: Relationship)
    modifies field`relation
    ensures Unidirectional(rel, owner, field, remote)
  {
    var left := new RelationshipSide(owner, field);
    var right := new RelationshipSide(remote, null);
    var t := ONE_TO_ONE;
    if field.list {
      t := ONE_TO_MANY;
    }
    rel := new Relationship(t, left, right);
  }

  method LinkBothWays(owner: Owner, field: Field, remote: Owner, back: Field) returns (rel: Relationship)
    modifies field`relation, back`relation
    ensures Bidirectional(rel, owner, field, remote, back)
  {
    var first := new RelationshipSide(owner, field);
    var second := new RelationshipSide(remote, back);
    var s := BidirectionalShape(field.list, back.list);
    if s.fieldLeft {
      rel := new Relationship(s.relType, first, second);
    } else {
      rel := new Relationship(s.relType, second, first);
    }
  }

  twostate predicate RelationsUnchanged(fs: seq<Field>)
    reads fs
  {
    forall f :: f in fs ==> f.relation == old(f.relation)
  }

  /** No relation was cleared: a field linked before is still linked. */
  twostate predicate NoneUnlinked(fs: set<Field>)
    reads fs
  {
    forall f :: f in fs && old(f.relation) != null ==> f.relation != null
  }

  // ---- BusinessBundleHelper ----

  /** The fields of the model the bundle keys under `t`, or none. */
  function RemoteModelFields(bundle: BusinessBundle, t: string): seq<Field>
    reads bundle, set m | m in Values(bundle.businessModels)
  {
    var m := bundle.GetBusinessModel(t);
    if m == null then [] else Values(m.fields)
  }

  /** Every field of every model of the bundle. */
  function ModelFields(bundle: BusinessBundle): set<Field>
    reads bundle, set m | m in Values(bundle.businessModels)
  {
    set m, f | m in Values(bundle.businessModels) && f in Values(m.fields) :: f
  }

  method CreateModelRelationship(bundle: BusinessBundle, model: BusinessModel, field: Field)
    returns (r: Result<Relationship>)
    modifies field`relation, RemoteModelFields(bundle, field.fieldType)`relation
    ensures var remote := bundle.GetBusinessModel(field.fieldType);
      remote == null ==> r == Failure(Error(Runtime, MissingRemoteMessage(field.fieldType, bundle.name)))
    ensures var remote := bundle.GetBusinessModel(field.fieldType);
      remote != null ==>
        LinkOutcome(r, OfModel(model), model.name, field, OfModel(remote), remote.name,
                    old(BackFields(Values(remote.fields), model.name)))
    ensures r.Success? ==> field.relation != null
    ensures r.Failure? ==> field.relation == old(field.relation)
    ensures NoneUnlinked(set g | g in old(RemoteModelFields(bundle, field.fieldType)))
  {
    var remote := bundle.GetBusinessModel(field.fieldType);
    if remote == null {
      return Failure(Error(Runtime, MissingRemoteMessage(field.fieldType, bundle.name)));
    }
    r := Link(OfModel(model), model.name, field, OfModel(remote), remote.name, Values(remote.fields));
  }

  /** Every field typed with a model of the bundle has a relation. */
  predicate ModelFieldsLinked(bundle: BusinessBundle)
    reads bundle, (set m | m in Values(bundle.businessModels))
    reads set m, f | m in Values(bundle.businessModels) && f in Values(m.fields) :: f
  {
    forall m, f :: m in Values(bundle.businessModels) && f in Values(m.fields) ==>
      LinkedIfTyped(f, Keys(bundle.businessModels))
  }

  /**
   * Links every model-typed field that has no relation yet. Linking a field also links its
   * back field, which the `relation === null` guard then skips, so each pair is created once.
   */
  method BuildModelRelationships(bundle: BusinessBundle) returns (r: Outcome)
    modifies ModelFields(bundle)`relation
    ensures r.Done? ==> ModelFieldsLinked(bundle)
    ensures r.Fail? ==> r.error.kind == Runtime
    ensures NoneUnlinked(ModelFields(bundle))
  {
    ghost var all := ModelFields(bundle);
    var models := Values(bundle.businessModels);
    var names := Keys(bundle.businessModels);
    r := Done;
    var i := 0;
    while i < |models|
      invariant 0 <= i <= |models|
      invariant forall m :: m in models[..i] ==> FieldsLinked(Values(m.fields), names)
      invariant NoneUnlinked(all)
      invariant r == Done
    {
      r := ModelStep(bundle, models, i, names, all);
      if r.Fail? {
        return;
      }
      i := i + 1;
    }
    assert models[..i] == models;
  }

  /** One turn of the outer loop: link the fields of the i-th model. */
  method ModelStep(bundle: BusinessBundle, models: seq<BusinessModel>, i: nat, names: seq<string>,
                   ghost all: set<Field>) returns (r: Outcome)
    requires all == ModelFields(bundle) && names == Keys(bundle.businessModels)
    requires models == Values(bundle.businessModels) && i < |models|
    requires forall m :: m in models[..i] ==> FieldsLinked(Values(m.fields), names)
    modifies all`relation
    ensures r.Done? ==> forall m :: m in models[..i + 1] ==> FieldsLinked(Values(m.fields), names)
    ensures r.Fail? ==> r.error.kind == Runtime
    ensures NoneUnlinked(all)
  {
    ModelFieldsOf(bundle, models[i]);
    ModelsOf(bundle, models[..i]);
    assert models[..i + 1] == models[..i] + [models[i]];
    r := LinkModelFields(bundle, models[i], all);
    if r.Done? {
      forall m | m in models[..i + 1] ensures FieldsLinked(Values(m.fields), names) {
        if m in models[..i] {
          forall f | f in Values(m.fields) ensures LinkedIfTyped(f, names) {
            assert f in all && old(LinkedIfTyped(f, names));
          }
        }
      }
    }
  }

  lemma ModelsOf(bundle: BusinessBundle, ms: seq<BusinessModel>)
    requires forall m :: m in ms ==> m in Values(bundle.businessModels)
    ensures forall m, f :: m in ms && f in Values(m.fields) ==> f in ModelFields(bundle)
  {
  }

  /** Every field in `fs` typed with a model name has a relation. */
  predicate FieldsLinked(fs: seq<Field>, names: seq<string>)
    reads fs
  {
    forall f :: f in fs ==> LinkedIfTyped(f, names)
  }

  /** The inner loop of buildRelationships, over one model's fields. */
  method LinkModelFields(bundle: BusinessBundle, model: BusinessModel, ghost all: set<Field>) returns (r: Outcome)
    requires all == ModelFields(bundle)
    requires forall f :: f in Values(model.fields) ==> f in all
    modifies all`relation
    ensures r.Done? ==> FieldsLinked(Values(model.fields), Keys(bundle.businessModels))
    ensures r.Fail? ==> r.error.kind == Runtime
    ensures NoneUnlinked(all)
  {
    var fs := Values(model.fields);
    var names := Keys(bundle.businessModels);
    r := Done;
    var k := 0;
    while k < |fs|
      invariant 0 <= k <= |fs|
      invariant FieldsLinked(fs[..k], names)
      invariant NoneUnlinked(all)
      invariant r == Done
    {
      r := LinkStep(bundle, model, fs, k, names, all);
      if r.Fail? {
        return;
      }
      k := k + 1;
    }
    assert fs[..k] == fs;
  }

  /** One turn of that loop: link the k-th field if it is model-typed and unlinked. */
  method LinkStep(bundle: BusinessBundle, model: BusinessModel, fs: seq<Field>, k: nat,
                  names: seq<string>, ghost all: set<Field>) returns (r: Outcome)
    requires all == ModelFields(bundle) && names == Keys(bundle.businessModels)
    requires k < |fs| && forall f :: f in fs ==> f in all
    requires FieldsLinked(fs[..k], names)
    modifies all`relation
    ensures r.Done? ==> FieldsLinked(fs[..k + 1], names)
    ensures r.Fail? ==> r.error.kind == Runtime
    ensures NoneUnlinked(all)
  {
    var f := fs[k];
    assert fs[..k + 1] == fs[..k] + [f];
    r := Done;
    if IsBusinessModel(f.Attrs(), names) && f.relation == null {
      r := LinkModelField(bundle, model, f, all);
    }
  }

  /** One createRelationship call, seen from the loop: the field is linked and nothing unlinked. */
  method LinkModelField(bundle: BusinessBundle, model: BusinessModel, f: Field, ghost all: set<Field>)
    returns (r: Outcome)
    requires all == ModelFields(bundle) && f in all
    modifies all`relation
    ensures r.Done? ==> f.relation != null
    ensures r.Fail? ==> r.error.kind == Runtime
    ensures NoneUnlinked(all)
  {
    RemoteModelFieldsInBundle(bundle, f.fieldType);
    var c := CreateModelRelationship(bundle, model, f);
    r := if c.Success? then Done else Fail(c.error);
  }

  // ---- BusinessBundleHelper as written ----

  /**
   * The TypeError of `new RelationshipSide($businessModel, ...)`: the constructor declares an
   * Entity, and a BusinessModel is not one.
   */
  const SideTypeError := Error(Fatal, "Argument 1 passed to CodePrimer\\Model\\RelationshipSide::__construct() "
    + "must be an instance of CodePrimer\\Model\\Entity, instance of CodePrimer\\Model\\BusinessModel given")

  /**
   * createRelationship as written: once the remote model is found, both the unidirectional and
   * the bidirectional path start by building a side over the business model, so every call
   * fails before any relation is set.
   */
  method CreateModelRelationshipAsWritten(bundle: BusinessBundle, model: BusinessModel, field: Field)
    returns (r: Result<Relationship>)
    ensures r.Failure?
    ensures var remote := bundle.GetBusinessModel(field.fieldType);
      remote == null ==> r.error == Error(Runtime, MissingRemoteMessage(field.fieldType, bundle.name))
    ensures var remote := bundle.GetBusinessModel(field.fieldType);
      remote != null ==>
        (r.error == SideTypeError <==> |BackFields(Values(remote.fields), model.name)| <= 1)
    ensures var remote := bundle.GetBusinessModel(field.fieldType);
      remote != null && r.error != SideTypeError ==>
        r.error == Error(Runtime, MultipleBackFieldsMessage(model.name, remote.name))
  {
    var remote := bundle.GetBusinessModel(field.fieldType);
    if remote == null {
      return Failure(Error(Runtime, MissingRemoteMessage(field.fieldType, bundle.name)));
    }
    var backs := CollectBackFields(Values(remote.fields), model.name);
    if |backs| == 0 {
      return Failure(SideTypeError);
    }
    if |backs| == 1 {
      return Failure(SideTypeError);
    }
    return Failure(Error(Runtime, MultipleBackFieldsMessage(model.name, remote.name)));
  }

  /**
   * buildRelationships as written: it succeeds exactly when no model-typed field is left to
   * link, and it changes nothing, so it never links a business model at all.
   */
  method BuildModelRelationshipsAsWritten(bundle: BusinessBundle) returns (r: Outcome)
    ensures r.Done? <==> ModelFieldsLinked(bundle)
    ensures r.Fail? ==> r.error == SideTypeError || r.error.kind == Runtime
  {
    hide *;
    var models := Values(bundle.businessModels);
    var names := Keys(bundle.businessModels);
    var i := 0;
    while i < |models|
      invariant 0 <= i <= |models|
      invariant forall m :: m in models[..i] ==> FieldsLinked(Values(m.fields), names)
    {
      r := LinkModelFieldsAsWritten(bundle, models[i]);
      if r.Fail? {
        LinkedByModels(bundle);
        return;
      }
      assert models[..i + 1] == models[..i] + [models[i]];
      i := i + 1;
    }
    assert models[..i] == models;
    LinkedByModels(bundle);
    r := Done;
  }

  lemma LinkedByModels(bundle: BusinessBundle)
    ensures ModelFieldsLinked(bundle) <==>
      forall m :: m in Values(bundle.businessModels) ==>
        FieldsLinked(Values(m.fields), Keys(bundle.businessModels))
  {
  }

  /** The inner loop as written: it stops at the first model-typed field without a relation. */
  method LinkModelFieldsAsWritten(bundle: BusinessBundle, model: BusinessModel) returns (r: Outcome)
    ensures r.Done? <==> FieldsLinked(Values(model.fields), Keys(bundle.businessModels))
    ensures r.Fail? ==> r.error == SideTypeError || r.error.kind == Runtime
  {
    var fs := Values(model.fields);
    var names := Keys(bundle.businessModels);
    var k := 0;
    while k < |fs|
      invariant 0 <= k <= |fs|
      invariant FieldsLinked(fs[..k], names)
    {
      var f := fs[k];
      if IsBusinessModel(f.Attrs(), names) && f.relation == null {
        var c := CreateModelRelationshipAsWritten(bundle, model, f);
        assert !LinkedIfTyped(f, names);
        return Fail(c.error);
      }
      assert fs[..k + 1] == fs[..k] + [f];
      k := k + 1;
    }
    assert fs[..k] == fs;
    return Done;
  }

  /** A field typed with a model name has a relation. */
  predicate LinkedIfTyped(f: Field, names: seq<string>)
    reads f
  {
    f.fieldType in names ==> f.relation != null
  }

  lemma ModelFieldsOf(bundle: BusinessBundle, m: BusinessModel)
    requires m in Values(bundle.businessModels)
    ensures forall f :: f in Values(m.fields) ==> f in ModelFields(bundle)
  {
  }

  lemma RemoteModelFieldsInBundle(bundle: BusinessBundle, t: string)
    ensures forall g :: g in RemoteModelFields(bundle, t) ==> g in ModelFields(bundle)
  {
    var m := bundle.GetBusinessModel(t);
    if m != null {
      var i :| 0 <= i < |bundle.businessModels| && bundle.businessModels[i] == (t, m);
      assert Values(bundle.businessModels)[i] == m;
    }
  }

  // ---- PackageHelper ----

  /** The fields of the entity the package keys under `t`, or none. */
  function RemoteEntityFields(package: Package, t: string): seq<Field>
    reads package, set e | e in Values(package.entities)
  {
    var e := package.GetEntity(t);
    if e == null then [] else Values(e.fields)
  }

  /** Every field of every entity of the package. */
  function EntityFields(package: Package): set<Field>
    reads package, set e | e in Values(package.entities)
  {
    set e, f | e in Values(package.entities) && f in Values(e.fields) :: f
  }

  method CreateEntityRelationship(package: Package, entity: Entity, field: Field)
    returns (r: Result<Relationship>)
    modifies field`relation, RemoteEntityFields(package, field.fieldType)`relation
    ensures var remote := package.GetEntity(field.fieldType);
      remote == null ==> r == Failure(Error(Runtime, MissingRemoteMessage(field.fieldType, package.name)))
    ensures var remote := package.GetEntity(field.fieldType);
      remote != null ==>
        LinkOutcome(r, OfEntity(entity), entity.name, field, OfEntity(remote), remote.name,
                    old(BackFields(Values(remote.fields), entity.name)))
    ensures r.Success? ==> field.relation != null
    ensures r.Failure? ==> field.relation == old(field.relation)
    ensures NoneUnlinked(set g | g in old(RemoteEntityFields(package, field.fieldType)))
  {
    var remote := package.GetEntity(field.fieldType);
    if remote == null {
      return Failure(Error(Runtime, MissingRemoteMessage(field.fieldType, package.name)));
    }
    r := Link(OfEntity(entity), entity.name, field, OfEntity(remote), remote.name, Values(remote.fields));
  }

  /** A field that `isEntity` accepts has a relation. */
  predicate LinkedIfEntity(f: Field, isEntity: FieldAttrs -> bool)
    reads f
  {
    isEntity(f.Attrs()) ==> f.relation != null
  }

  predicate EntityFieldsLinkedIn(fs: seq<Field>, isEntity: FieldAttrs -> bool)
    reads fs
  {
    forall f :: f in fs ==> LinkedIfEntity(f, isEntity)
  }

  /** Every field of the package that `isEntity` accepts has a relation. */
  predicate EntityFieldsLinked(package: Package, isEntity: FieldAttrs -> bool)
    reads package, (set e | e in Values(package.entities))
    reads set e, f | e in Values(package.entities) && f in Values(e.fields) :: f
  {
    forall e, f :: e in Values(package.entities) && f in Values(e.fields) ==> LinkedIfEntity(f, isEntity)
  }

  /**
   * PackageHelper::buildRelationships. `isEntity` stands for FieldHelper::isEntity, which the
   * FieldHelper class does not declare; a field it accepts whose type names no entity of
   * the package makes createRelationship throw.
   */
  method BuildEntityRelationships(package: Package, isEntity: FieldAttrs -> bool) returns (r: Outcome)
    modifies EntityFields(package)`relation
    ensures r.Done? ==> EntityFieldsLinked(package, isEntity)
    ensures r.Fail? ==> r.error.kind == Runtime
    ensures NoneUnlinked(EntityFields(package))
  {
    ghost var all := EntityFields(package);
    var entities := Values(package.entities);
    r := Done;
    var i := 0;
    while i < |entities|
      invariant 0 <= i <= |entities|
      invariant forall e :: e in entities[..i] ==> EntityFieldsLinkedIn(Values(e.fields), isEntity)
      invariant NoneUnlinked(all)
      invariant r == Done
    {
      r := EntityStep(package, entities, i, isEntity, all);
      if r.Fail? {
        return;
      }
      i := i + 1;
    }
    assert entities[..i] == entities;
  }

  method EntityStep(package: Package, entities: seq<Entity>, i: nat, isEntity: FieldAttrs -> bool,
                    ghost all: set<Field>) returns (r: Outcome)
    requires all == EntityFields(package)
    requires entities == Values(package.entities) && i < |entities|
    requires forall e :: e in entities[..i] ==> EntityFieldsLinkedIn(Values(e.fields), isEntity)
    modifies all`relation
    ensures r.Done? ==> forall e :: e in entities[..i + 1] ==> EntityFieldsLinkedIn(Values(e.fields), isEntity)
    ensures r.Fail? ==> r.error.kind == Runtime
    ensures NoneUnlinked(all)
  {
    EntitiesOf(package, entities[..i + 1]);
    assert entities[..i + 1] == entities[..i] + [entities[i]];
    r := LinkEntityFields(package, entities[i], isEntity, all);
  }

  lemma EntitiesOf(package: Package, es: seq<Entity>)
    requires forall e :: e in es ==> e in Values(package.entities)
    ensures forall e, f :: e in es && f in Values(e.fields) ==> f in EntityFields(package)
  {
  }

  method LinkEntityFields(package: Package, entity: Entity, isEntity: FieldAttrs -> bool, ghost all: set<Field>)
    returns (r: Outcome)
    requires all == EntityFields(package)
    requires forall f :: f in Values(entity.fields) ==> f in all
    modifies all`relation
    ensures r.Done? ==> EntityFieldsLinkedIn(Values(entity.fields), isEntity)
    ensures r.Fail? ==> r.error.kind == Runtime
    ensures NoneUnlinked(all)
  {
    var fs := Values(entity.fields);
    r := Done;
    var k := 0;
    while k < |fs|
      invariant 0 <= k <= |fs|
      invariant EntityFieldsLinkedIn(fs[..k], isEntity)
      invariant NoneUnlinked(all)
      invariant r == Done
    {
      r := EntityLinkStep(package, entity, fs, k, isEntity, all);
      if r.Fail? {
        return;
      }
      k := k + 1;
    }
    assert fs[..k] == fs;
  }

  method EntityLinkStep(package: Package, entity: Entity, fs: seq<Field>, k: nat,
                        isEntity: FieldAttrs -> bool, ghost all: set<Field>) returns (r: Outcome)
    requires all == EntityFields(package)
    requires k < |fs| && forall f :: f in fs ==> f in all
    requires EntityFieldsLinkedIn(fs[..k], isEntity)
    modifies all`relation
    ensures r.Done? ==> EntityFieldsLinkedIn(fs[..k + 1], isEntity)
    ensures r.Fail? ==> r.error.kind == Runtime
    ensures NoneUnlinked(all)
  {
    var f := fs[k];
    assert fs[..k + 1] == fs[..k] + [f];
    r := Done;
    if isEntity(f.Attrs()) && f.relation == null {
      r := LinkEntityField(package, entity, f, all);
    }
  }

  /** One createRelationship call, seen from the loop: the field is linked and nothing unlinked. */
  method LinkEntityField(package: Package, entity: Entity, f: Field, ghost all: set<Field>)
    returns (r: Outcome)
    requires all == EntityFields(package) && f in all
    modifies all`relation
    ensures r.Done? ==> f.relation != null
    ensures r.Fail? ==> r.error.kind == Runtime
    ensures NoneUnlinked(all)
  {
    RemoteEntityFieldsInPackage(package, f.fieldType);
    var c := CreateEntityRelationship(package, entity, f);
    r := if c.Success? then Done else Fail(c.error);
  }

  lemma RemoteEntityFieldsInPackage(package: Package, t: string)
    ensures forall g :: g in RemoteEntityFields(package, t) ==> g in EntityFields(package)
  {
    var e := package.GetEntity(t);
    if e != null {
      var i :| 0 <= i < |package.entities| && package.entities[i] == (t, e);
      assert Values(package.entities)[i] == e;
    }
  }
}
