/**
 * BusinessModelHelper and EntityHelper: the repository class name, the managed timestamp
 * fields, the models linked through relations, the business attributes and the
 * single-field unique constraint test. The helpers hold no state; each operation reads
 * the model it is given and changes nothing.
 */
module ModelHelpers {
  import opened Wrappers
  import opened OrderedMap
  import opened FieldHelper
  import opened Model
  import opened Inflection
  import opened Bundles

  const RepositorySuffix := "Repository"

  /** getRepositoryClass of both helpers: the classified name followed by the suffix. */
  function RepositoryClass(inf: Inflector, name: string): string
  {
    inf.classify(name) + RepositorySuffix
  }

  /**
   * Every repository class name ends with the suffix, and two names share a repository
   * class exactly when the inflector classifies them alike.
   */
  lemma RepositoryClassDecomposes(inf: Inflector, a: string, b: string)
    ensures |RepositoryClass(inf, a)| >= |RepositorySuffix|
    ensures RepositoryClass(inf, a)[|RepositoryClass(inf, a)| - |RepositorySuffix|..] == RepositorySuffix
    ensures RepositoryClass(inf, a) == RepositoryClass(inf, b) <==> inf.classify(a) == inf.classify(b)
  {
    var ra, rb := RepositoryClass(inf, a), RepositoryClass(inf, b);
    assert ra[|inf.classify(a)|..] == RepositorySuffix;
    if ra == rb {
      assert |inf.classify(a)| == |inf.classify(b)|;
      assert inf.classify(a) == ra[..|inf.classify(a)|];
      assert inf.classify(b) == rb[..|inf.classify(b)|];
    }
  }

  // ---- The first managed field a FieldHelper test accepts ----

  /** The first field whose attributes satisfy p, or null. */
  function FirstMatch(fs: seq<Field>, p: FieldAttrs -> bool): Field?
    reads fs
  {
    if fs == [] then null
    else if p(fs[0].Attrs()) then fs[0]
    else FirstMatch(fs[1..], p)
  }

  lemma {:induction false} FirstMatchIsFirst(fs: seq<Field>, p: FieldAttrs -> bool)
    ensures FirstMatch(fs, p) == null <==> forall f :: f in fs ==> !p(f.Attrs())
    ensures FirstMatch(fs, p) != null ==>
              exists i :: 0 <= i < |fs| && fs[i] == FirstMatch(fs, p) && p(fs[i].Attrs())
                && forall j :: 0 <= j < i ==> !p(fs[j].Attrs())
    decreases |fs|
  {
    if fs != [] && !p(fs[0].Attrs()) {
      FirstMatchIsFirst(fs[1..], p);
      assert fs == [fs[0]] + fs[1..];
      if FirstMatch(fs, p) != null {
        var i :| 0 <= i < |fs[1..]| && fs[1..][i] == FirstMatch(fs, p) && p(fs[1..][i].Attrs())
                 && forall j :: 0 <= j < i ==> !p(fs[1..][j].Attrs());
        assert fs[i + 1] == fs[1..][i];
        assert forall j :: 1 <= j < i + 1 ==> fs[j] == fs[1..][j - 1];
      }
    } else if fs != [] {
      assert fs[0] in fs;
    }
  }

  /** The foreach that stops at the first field the test accepts. */
  method FindFirst(fs: seq<Field>, p: FieldAttrs -> bool) returns (r: Field?)
    ensures r == FirstMatch(fs, p)
  {
    r := null;
    var i := 0;
    while i < |fs|
      invariant 0 <= i <= |fs|
      invariant FirstMatch(fs, p) == FirstMatch(fs[i..], p)
    {
      assert fs[i..][1..] == fs[i + 1..];
      if p(fs[i].Attrs()) {
        r := fs[i];
        break;
      }
      i := i + 1;
    }
  }

  /** The first managed field the test accepts, read against all the fields. */
  lemma FirstManaged(fs: seq<Field>, p: FieldAttrs -> bool)
    ensures var r := FirstMatch(Flagged(fs, ManagedFlag), p);
      (r == null <==> forall f :: f in fs && f.managed ==> !p(f.Attrs()))
      && (r != null ==> r in fs && r.managed && p(r.Attrs()))
  {
    FlaggedExactly(fs, ManagedFlag);
    FirstMatchIsFirst(Flagged(fs, ManagedFlag), p);
  }

  /** BusinessModelHelper::getCreatedTimestampField. */
  method GetCreatedTimestampField(m: BusinessModel) returns (r: Field?)
    ensures r == FirstMatch(Flagged(Values(m.fields), ManagedFlag), IsBusinessModelCreatedTimestamp)
    ensures r == null <==>
              forall f :: f in Values(m.fields) && f.managed ==> !IsBusinessModelCreatedTimestamp(f.Attrs())
    ensures r != null ==> r in Values(m.fields) && r.managed && IsBusinessModelCreatedTimestamp(r.Attrs())
  {
    var managed := m.GetManagedFields();
    r := FindFirst(managed, IsBusinessModelCreatedTimestamp);
    FirstManaged(Values(m.fields), IsBusinessModelCreatedTimestamp);
  }

  /** BusinessModelHelper::getUpdatedTimestampField. */
  method GetUpdatedTimestampField(m: BusinessModel) returns (r: Field?)
    ensures r == FirstMatch(Flagged(Values(m.fields), ManagedFlag), IsBusinessModelUpdatedTimestamp)
    ensures r == null <==>
              forall f :: f in Values(m.fields) && f.managed ==> !IsBusinessModelUpdatedTimestamp(f.Attrs())
    ensures r != null ==> r in Values(m.fields) && r.managed && IsBusinessModelUpdatedTimestamp(r.Attrs())
  {
    var managed := m.GetManagedFields();
    r := FindFirst(managed, IsBusinessModelUpdatedTimestamp);
    FirstManaged(Values(m.fields), IsBusinessModelUpdatedTimestamp);
  }

  /**
   * EntityHelper::getEntityCreatedTimestampField. `isCreated` stands for
   * FieldHelper::isEntityCreatedTimestamp, which the FieldHelper class does not declare.
   */
  method GetEntityCreatedTimestampField(e: Entity, isCreated: FieldAttrs -> bool) returns (r: Field?)
    ensures r == FirstMatch(Flagged(Values(e.fields), ManagedFlag), isCreated)
    ensures r == null <==> forall f :: f in Values(e.fields) && f.managed ==> !isCreated(f.Attrs())
    ensures r != null ==> r in Values(e.fields) && r.managed && isCreated(r.Attrs())
  {
    var managed := e.GetManagedFields();
    r := FindFirst(managed, isCreated);
    FirstManaged(Values(e.fields), isCreated);
  }

  /** EntityHelper::getEntityUpdatedTimestampField; `isUpdated` stands for FieldHelper::isEntityUpdatedTimestamp. */
  method GetEntityUpdatedTimestampField(e: Entity, isUpdated: FieldAttrs -> bool) returns (r: Field?)
    ensures r == FirstMatch(Flagged(Values(e.fields), ManagedFlag), isUpdated)
    ensures r == null <==> forall f :: f in Values(e.fields) && f.managed ==> !isUpdated(f.Attrs())
    ensures r != null ==> r in Values(e.fields) && r.managed && isUpdated(r.Attrs())
  {
    var managed := e.GetManagedFields();
    r := FindFirst(managed, isUpdated);
    FirstManaged(Values(e.fields), isUpdated);
  }

  /** The foreach that stops at the first managed field either test accepts. */
  method AnyManaged(fs: seq<Field>, isCreated: FieldAttrs -> bool, isUpdated: FieldAttrs -> bool)
    returns (r: bool)
    ensures r <==> exists f :: f in fs && f.managed && (isCreated(f.Attrs()) || isUpdated(f.Attrs()))
  {
    var managed := CollectFlagged(fs, ManagedFlag);
    FlaggedExactly(fs, ManagedFlag);
    r := false;
    var i := 0;
    while i < |managed|
      invariant 0 <= i <= |managed|
      invariant forall j :: 0 <= j < i ==> !(isCreated(managed[j].Attrs()) || isUpdated(managed[j].Attrs()))
    {
      if isCreated(managed[i].Attrs()) || isUpdated(managed[i].Attrs()) {
        assert managed[i] in managed;
        r := true;
        break;
      }
      i := i + 1;
    }
    if !r {
      forall f | f in managed
        ensures !(isCreated(f.Attrs()) || isUpdated(f.Attrs()))
      {
        var j :| 0 <= j < |managed| && managed[j] == f;
      }
    }
  }

  /** BusinessModelHelper::isManagedTimestamp. */
  method IsManagedTimestamp(m: BusinessModel) returns (r: bool)
    ensures r <==> exists f :: f in Values(m.fields) && f.managed &&
                     (IsBusinessModelCreatedTimestamp(f.Attrs()) || IsBusinessModelUpdatedTimestamp(f.Attrs()))
  {
    r := AnyManaged(Values(m.fields), IsBusinessModelCreatedTimestamp, IsBusinessModelUpdatedTimestamp);
  }

  /** EntityHelper::isManagedTimestamp, with the two missing FieldHelper tests as parameters. */
  method EntityIsManagedTimestamp(e: Entity, isCreated: FieldAttrs -> bool, isUpdated: FieldAttrs -> bool)
    returns (r: bool)
    ensures r <==> exists f :: f in Values(e.fields) && f.managed && (isCreated(f.Attrs()) || isUpdated(f.Attrs()))
  {
    r := AnyManaged(Values(e.fields), isCreated, isUpdated);
  }

  /** isManagedTimestamp holds exactly when one of the two timestamp getters finds a field. */
  lemma ManagedTimestampIffGetter(fs: seq<Field>, isCreated: FieldAttrs -> bool, isUpdated: FieldAttrs -> bool)
    ensures (exists f :: f in fs && f.managed && (isCreated(f.Attrs()) || isUpdated(f.Attrs()))) <==>
              FirstMatch(Flagged(fs, ManagedFlag), isCreated) != null
              || FirstMatch(Flagged(fs, ManagedFlag), isUpdated) != null
  {
    FirstManaged(fs, isCreated);
    FirstManaged(fs, isUpdated);
  }

  // ---- The models a model is linked to ----

  const NullBusinessModelCall := "Call to a member function getBusinessModel() on null"
  const NullEntityCall := "Call to a member function getEntity() on null"

  /** Every relation knows its remote side. */
  predicate AllRemote(rels: seq<RelationshipSide>)
    reads rels
  {
    forall s :: s in rels ==> s.GetRemoteSide() != null
  }

  /** The owner of each remote side, relation by relation. */
  function RemoteOwners(rels: seq<RelationshipSide>): (r: seq<Owner>)
    requires AllRemote(rels)
    reads rels
    ensures |r| == |rels|
    ensures forall i :: 0 <= i < |rels| ==> r[i] == rels[i].GetRemoteSide().owner
  {
    if rels == [] then []
    else RemoteOwners(rels[..|rels| - 1]) + [rels[|rels| - 1].GetRemoteSide().owner]
  }

  /**
   * What getLinkedBusinessModels and getLinkedEntities return: the remote owners, each once,
   * in first-seen order; the first relation without a remote side stops the loop with
   * PHP's error for a member call on null, the message naming the getter called.
   */
  function LinkedOwners(rels: seq<RelationshipSide>, nullCall: string): Result<seq<Owner>>
    reads rels
  {
    if AllRemote(rels) then Success(Dedup(RemoteOwners(rels))) else Failure(Error(Fatal, nullCall))
  }

  /** The loop over the relations with the `in_array` guarded append. */
  method CollectLinked(rels: seq<RelationshipSide>, nullCall: string) returns (r: Result<seq<Owner>>)
    ensures r == LinkedOwners(rels, nullCall)
  {
    assert Dedup(RemoteOwners(rels[..0])) == [];
    hide Dedup, RemoteOwners;
    var owners: seq<Owner> := [];
    var i := 0;
    while i < |rels|
      invariant 0 <= i <= |rels|
      invariant AllRemote(rels[..i]) && owners == Dedup(RemoteOwners(rels[..i]))
    {
      var remote := rels[i].GetRemoteSide();
      if remote == null {
        assert rels[i] in rels;
        return Failure(Error(Fatal, nullCall));
      }
      LinkedStep(rels, i);
      if remote.owner !in owners {
        owners := owners + [remote.owner];
      }
      i := i + 1;
    }
    assert rels[..i] == rels;
    r := Success(owners);
  }

  /** One more relation with a remote side: its owner joins the list unless already there. */
  lemma LinkedStep(rels: seq<RelationshipSide>, i: nat)
    requires i < |rels| && AllRemote(rels[..i]) && rels[i].GetRemoteSide() != null
    ensures AllRemote(rels[..i + 1])
    ensures var o := rels[i].GetRemoteSide().owner;
            var d := Dedup(RemoteOwners(rels[..i]));
            Dedup(RemoteOwners(rels[..i + 1])) == if o in d then d else d + [o]
  {
    var pre := rels[..i + 1];
    assert pre[..i] == rels[..i];
    assert pre[i] == rels[i];
    assert RemoteOwners(pre) == RemoteOwners(rels[..i]) + [rels[i].GetRemoteSide().owner];
  }

  /** The linked owners are the remote owners of the relations, none twice. */
  lemma LinkedOwnersExactly(rels: seq<RelationshipSide>, nullCall: string)
    ensures LinkedOwners(rels, nullCall).Success? <==> forall s :: s in rels ==> s.GetRemoteSide() != null
    ensures LinkedOwners(rels, nullCall).Failure? ==> LinkedOwners(rels, nullCall).error == Error(Fatal, nullCall)
    ensures LinkedOwners(rels, nullCall).Success? ==>
              var os := LinkedOwners(rels, nullCall).value;
              (forall o :: o in os <==> exists s :: s in rels && s.GetRemoteSide().owner == o)
              && forall i, j :: 0 <= i < j < |os| ==> os[i] != os[j]
  {
    if AllRemote(rels) {
      var owners := RemoteOwners(rels);
      DedupExactly(owners);
      forall o
        ensures o in owners <==> exists s :: s in rels && s.GetRemoteSide().owner == o
      {
        if o in owners {
          var i :| 0 <= i < |owners| && owners[i] == o;
          assert rels[i] in rels;
        }
      }
    }
  }

  /**
   * BusinessModelHelper::getLinkedBusinessModels. The remote side's getBusinessModel()
   * yields the model or entity the side was built for.
   */
  method GetLinkedBusinessModels(m: BusinessModel) returns (r: Result<seq<Owner>>)
    ensures r == LinkedOwners(RelationsOf(Values(m.fields)), NullBusinessModelCall)
  {
    var relations := m.GetRelations();
    r := CollectLinked(relations, NullBusinessModelCall);
  }

  /** EntityHelper::getLinkedEntities. */
  method GetLinkedEntities(e: Entity) returns (r: Result<seq<Owner>>)
    ensures r == LinkedOwners(RelationsOf(Values(e.fields)), NullEntityCall)
  {
    var relations := e.GetRelations();
    r := CollectLinked(relations, NullEntityCall);
  }

  // ---- Business attributes ----

  /** A native field that is not managed, or a field whose type names no model of the bundle. */
  predicate IsBusinessAttribute(f: Field, bundle: BusinessBundle)
    reads f, bundle
  {
    if IsNativeType(f.Attrs()) then !f.managed else bundle.GetBusinessModel(f.fieldType) == null
  }

  function BusinessAttributes(fs: seq<Field>, bundle: BusinessBundle): seq<Field>
    reads fs, bundle
  {
    if fs == [] then []
    else
      var last := fs[|fs| - 1];
      BusinessAttributes(fs[..|fs| - 1], bundle) + (if IsBusinessAttribute(last, bundle) then [last] else [])
  }

  /** The business attributes are the unmanaged natives and the fields typed with no model name. */
  lemma {:induction false} BusinessAttributesExactly(fs: seq<Field>, bundle: BusinessBundle)
    ensures forall f :: f in BusinessAttributes(fs, bundle) <==>
              f in fs && if IsNativeType(f.Attrs()) then !f.managed
                         else !IsBusinessModel(f.Attrs(), Keys(bundle.businessModels))
    ensures |BusinessAttributes(fs, bundle)| <= |fs|
    decreases |fs|
  {
    if fs != [] {
      var init := fs[..|fs| - 1];
      BusinessAttributesExactly(init, bundle);
      assert fs == init + [fs[|fs| - 1]];
    }
  }

  /** BusinessModelHelper::listBusinessAttributeFields. */
  method ListBusinessAttributeFields(m: BusinessModel, bundle: BusinessBundle) returns (r: seq<Field>)
    ensures r == BusinessAttributes(Values(m.fields), bundle)
  {
    hide *;
    var fs := Values(m.fields);
    r := [];
    var i := 0;
    BusinessAttributesSnoc(fs, 0, bundle);
    while i < |fs|
      invariant 0 <= i <= |fs|
      invariant r == BusinessAttributes(fs[..i], bundle)
    {
      BusinessAttributesSnoc(fs, i, bundle);
      var f := fs[i];
      BusinessAttributeMeans(f, bundle);
      if IsNativeType(f.Attrs()) {
        if !f.managed {
          r := r + [f];
        }
      } else if bundle.GetBusinessModel(f.fieldType) == null {
        r := r + [f];
      }
      i := i + 1;
    }
    assert fs[..|fs|] == fs;
  }

  lemma BusinessAttributeMeans(f: Field, bundle: BusinessBundle)
    ensures IsBusinessAttribute(f, bundle) <==>
              if IsNativeType(f.Attrs()) then !f.managed else bundle.GetBusinessModel(f.fieldType) == null
  {
  }

  lemma BusinessAttributesSnoc(fs: seq<Field>, i: nat, bundle: BusinessBundle)
    requires i <= |fs|
    ensures i == 0 ==> BusinessAttributes(fs[..i], bundle) == []
    ensures i < |fs| ==>
              BusinessAttributes(fs[..i + 1], bundle)
              == BusinessAttributes(fs[..i], bundle) + (if IsBusinessAttribute(fs[i], bundle) then [fs[i]] else [])
  {
    if i < |fs| {
      assert fs[..i + 1][..i] == fs[..i];
    }
  }

  // ---- Unique fields ----

  /** Constraint::getField finds the field. */
  predicate Names(c: Constraint, name: string)
    reads c
  {
    c.GetField(name) != null
  }

  /** The position of the last of the first n constraints naming the field, or -1 when none does. */
  function LastNaming(cs: seq<Constraint>, name: string, n: nat): (r: int)
    requires n <= |cs|
    reads cs
    ensures -1 <= r < n
    ensures r >= 0 ==> Names(cs[r], name)
    ensures forall j :: r < j < n ==> !Names(cs[j], name)
  {
    if n == 0 then -1
    else if Names(cs[n - 1], name) then n - 1
    else LastNaming(cs, name, n - 1)
  }

  /** What isUniqueField computes: the last constraint naming the field has no other field. */
  predicate UniqueAsWritten(cs: seq<Constraint>, name: string)
    reads cs
  {
    UniqueAmong(cs, name, |cs|)
  }

  /** The answer after the first n constraints. */
  predicate UniqueAmong(cs: seq<Constraint>, name: string, n: nat)
    requires n <= |cs|
    reads cs
  {
    var i := LastNaming(cs, name, n);
    i >= 0 && |cs[i].fields| == 1
  }

  /** BusinessModelHelper::isUniqueField as written: each constraint naming the field overwrites the answer. */
  method IsUniqueField(m: BusinessModel, name: string) returns (r: bool)
    ensures r == UniqueAsWritten(m.uniqueConstraints, name)
  {
    var cs := m.uniqueConstraints;
    r := false;
    var i := 0;
    while i < |cs|
      invariant 0 <= i <= |cs|
      invariant r == UniqueAmong(cs, name, i)
    {
      if Names(cs[i], name) {
        r := |cs[i].fields| == 1;
      }
      i := i + 1;
    }
  }

  /** The rule the method's documentation gives: some unique constraint holds just this field. */
  predicate HasSoleConstraint(cs: seq<Constraint>, name: string)
    reads cs
  {
    exists c :: c in cs && Names(c, name) && |c.fields| == 1
  }

  /** A later constraint over the field and another one hides an earlier single-field constraint. */
  lemma WiderConstraintHidesUnique(single: Constraint, wider: Constraint, name: string)
    requires Names(single, name) && |single.fields| == 1
    requires Names(wider, name) && |wider.fields| == 2
    ensures HasSoleConstraint([single, wider], name)
    ensures !UniqueAsWritten([single, wider], name)
  {
    assert single in [single, wider];
  }

  /** isUniqueField as documented: true exactly when a single-field constraint names the field. */
  method IsUniqueFieldCorrected(m: BusinessModel, name: string) returns (r: bool)
    ensures r <==> HasSoleConstraint(m.uniqueConstraints, name)
  {
    var cs := m.uniqueConstraints;
    r := false;
    var i := 0;
    while i < |cs|
      invariant 0 <= i <= |cs|
      invariant r <==> HasSoleConstraint(cs[..i], name)
    {
      assert cs[..i + 1] == cs[..i] + [cs[i]];
      if Names(cs[i], name) && |cs[i].fields| == 1 {
        r := true;
      }
      i := i + 1;
    }
    assert cs[..|cs|] == cs;
  }

  /** The documented rule agrees with the written one whenever the field is named by at most one constraint. */
  lemma UniqueRulesAgreeOnOneConstraint(cs: seq<Constraint>, name: string, k: nat)
    requires k < |cs| && Names(cs[k], name)
    requires forall j :: 0 <= j < |cs| && j != k ==> !Names(cs[j], name)
    ensures UniqueAsWritten(cs, name) <==> HasSoleConstraint(cs, name)
  {
    assert LastNaming(cs, name, |cs|) == k;
    if HasSoleConstraint(cs, name) {
      var c :| c in cs && Names(c, name) && |c.fields| == 1;
      var j :| 0 <= j < |cs| && cs[j] == c;
      assert j == k;
    }
  }
}
