/**
 * The mutually referencing part of the metamodel (namespace CodePrimer\Model): fields,
 * the two sides of a relationship, business models, the older entities and their
 * unique constraints. A field points at its relationship side, a side at its owner and
 * its field, the owner at its fields, so they live in one module.
 *
 * PHP keyed arrays are association lists (module OrderedMap): assigning to an existing
 * key keeps its position, a new key goes last, and iteration follows that order.
 */
module Model {
  import opened Wrappers
  import opened PhpStrings
  import opened PhpValues
  import opened OrderedMap
  import opened FieldHelper
  import opened StateMachines

  const LEFT := "left"
  const RIGHT := "right"

  const ONE_TO_ONE := "OneToOne"
  const ONE_TO_MANY := "OneToMany"
  const MANY_TO_MANY := "ManyToMany"

  const TYPE_UNIQUE := 1

  class Field {
    var name: string
    var fieldType: string
    var description: string
    var default: Option<string>
    var example: Option<string>
    var mandatory: bool
    var searchable: bool
    var managed: bool
    var list: bool
    var generated: bool
    /**
     * BusinessModel calls Field::isIdentifier and Field::setIdentifier, which the Field
     * class does not declare; this flag stands for the state they would read and write.
     */
    var identifier: bool
    var relation: RelationshipSide?

    /** Everything but the relation, as the value the helpers and renderers work on. */
    function Attrs(): FieldAttrs
      reads this`name, this`fieldType, this`description, this`mandatory, this`default, this`example
      reads this`searchable, this`managed, this`list, this`generated, this`identifier
    {
      FieldAttrs(name, fieldType, description, mandatory, default, example,
                 searchable, managed, list, generated, identifier)
    }

    constructor (name: string, fieldType: string, description: string := "",
                 mandatory: bool := false, default: Option<string> := None,
                 example: Option<string> := None)
      ensures Attrs() == FieldAttrs(name, fieldType, description, mandatory, default, example,
                                    false, false, false, false, false)
      ensures relation == null
    {
      this.name := name;
      this.fieldType := fieldType;
      this.description := description;
      this.mandatory := mandatory;
      this.default := default;
      this.example := example;
      searchable, managed, list, generated, identifier := false, false, false, false, false;
      relation := null;
    }

    method SetName(name: string) returns (r: Field)
      modifies this
      ensures r == this && Attrs() == old(Attrs()).(name := name) && relation == old(relation)
    {
      this.name := name;
      r := this;
    }

    method SetType(fieldType: string) returns (r: Field)
      modifies this
      ensures r == this && Attrs() == old(Attrs()).(fieldType := fieldType) && relation == old(relation)
    {
      this.fieldType := fieldType;
      r := this;
    }

    method SetDescription(description: string) returns (r: Field)
      modifies this
      ensures r == this && Attrs() == old(Attrs()).(description := description) && relation == old(relation)
    {
      this.description := description;
      r := this;
    }

    method SetDefault(default: Option<string>) returns (r: Field)
      modifies this
      ensures r == this && Attrs() == old(Attrs()).(default := default) && relation == old(relation)
    {
      this.default := default;
      r := this;
    }

    method SetExample(example: Option<string>) returns (r: Field)
      modifies this
      ensures r == this && Attrs() == old(Attrs()).(example := example) && relation == old(relation)
    {
      this.example := example;
      r := this;
    }

    method SetMandatory(mandatory: bool) returns (r: Field)
      modifies this
      ensures r == this && Attrs() == old(Attrs()).(mandatory := mandatory) && relation == old(relation)
    {
      this.mandatory := mandatory;
      r := this;
    }

    method SetSearchable(searchable: bool) returns (r: Field)
      modifies this
      ensures r == this && Attrs() == old(Attrs()).(searchable := searchable) && relation == old(relation)
    {
      this.searchable := searchable;
      r := this;
    }

    method SetManaged(managed: bool) returns (r: Field)
      modifies this
      ensures r == this && Attrs() == old(Attrs()).(managed := managed) && relation == old(relation)
    {
      this.managed := managed;
      r := this;
    }

    method SetList(list: bool) returns (r: Field)
      modifies this
      ensures r == this && Attrs() == old(Attrs()).(list := list) && relation == old(relation)
    {
      this.list := list;
      r := this;
    }

    method SetGenerated(generated: bool) returns (r: Field)
      modifies this
      ensures r == this && Attrs() == old(Attrs()).(generated := generated) && relation == old(relation)
    {
      this.generated := generated;
      r := this;
    }

    /** The missing Field::setIdentifier. */
    method SetIdentifier(identifier: bool) returns (r: Field)
      modifies this
      ensures r == this && Attrs() == old(Attrs()).(identifier := identifier) && relation == old(relation)
    {
      this.identifier := identifier;
      r := this;
    }

    /** Overwrites the relation; the side it named, or now names, is not touched. */
    method SetRelation(relation: RelationshipSide?) returns (r: Field)
      modifies this`relation
      ensures r == this && Attrs() == old(Attrs()) && this.relation == relation
    {
      this.relation := relation;
      r := this;
    }
  }

  /**
   * The owner of a relationship side. The constructor of RelationshipSide declares an
   * Entity, while BusinessBundleHelper builds sides over business models; both are kept.
   */
  datatype Owner = OfModel(model: BusinessModel) | OfEntity(entity: Entity)

  /** The field, if any, as a frame. */
  function NonNull(f: Field?): (r: set<Field>)
    ensures f != null ==> r == {f}
    ensures f == null ==> r == {}
  {
    if f == null then {} else {f}
  }

  class RelationshipSide {
    var side: Option<string>
    const owner: Owner
    var field: Field?
    var relationship: Relationship?

    constructor (owner: Owner, field: Field?)
      modifies NonNull(field)`relation
      ensures this.owner == owner && this.field == field
      ensures side == None && relationship == null
      ensures field != null ==> field.relation == this && field.Attrs() == old(field.Attrs())
    {
      this.owner := owner;
      this.field := null;
      side := None;
      relationship := null;
      new;
      var _ := SetField(field);
    }

    predicate IsLeft()
      reads this
    {
      side == Some(LEFT)
    }

    predicate IsRight()
      reads this
    {
      side == Some(RIGHT)
    }

    /**
     * Links the side and a field both ways, first clearing the relation of the field
     * previously on this side.
     */
    method SetField(f: Field?) returns (r: RelationshipSide)
      modifies this, NonNull(field)`relation, NonNull(f)`relation
      ensures r == this && field == f
      ensures side == old(side) && relationship == old(relationship)
      ensures f != null ==> f.relation == this && f.Attrs() == old(f.Attrs())
      ensures old(field) != null && old(field) != f ==>
                old(field).relation == null && old(field).Attrs() == old(field.Attrs())
    {
      if field != null {
        var _ := field.SetRelation(null);
      }
      field := f;
      if f != null {
        var _ := f.SetRelation(this);
      }
      r := this;
    }

    method SetRelationship(relationship: Relationship, side: string) returns (r: RelationshipSide)
      modifies this
      ensures r == this && this.relationship == relationship && this.side == Some(side)
      ensures field == old(field)
    {
      this.relationship := relationship;
      this.side := Some(side);
      r := this;
    }

    /** The other side of the relationship, when this side is stamped left or right. */
    function GetRemoteSide(): RelationshipSide?
      reads this`relationship, this`side
    {
      if relationship == null then null
      else if side == Some(LEFT) then relationship.rightSide
      else if side == Some(RIGHT) then relationship.leftSide
      else null
    }
  }

  class Relationship {
    const relType: string
    const leftSide: RelationshipSide
    const rightSide: RelationshipSide

    /** Both sides point back at the relationship and at each other as remote sides. */
    predicate Linked()
      reads leftSide, rightSide
    {
      leftSide.relationship == this && rightSide.relationship == this
      && leftSide.IsLeft() && rightSide.IsRight()
    }

    /** Stamps the first side left and the second right; one side given twice ends up right. */
    constructor (relType: string, leftSide: RelationshipSide, rightSide: RelationshipSide)
      modifies leftSide, rightSide
      ensures this.relType == relType && this.leftSide == leftSide && this.rightSide == rightSide
      ensures leftSide.relationship == this && rightSide.relationship == this
      ensures rightSide.side == Some(RIGHT)
      ensures leftSide != rightSide ==> Linked()
      ensures leftSide != rightSide ==>
                leftSide.GetRemoteSide() == rightSide && rightSide.GetRemoteSide() == leftSide
      ensures leftSide == rightSide ==> leftSide.GetRemoteSide() == leftSide
      ensures leftSide.field == old(leftSide.field) && rightSide.field == old(rightSide.field)
    {
      this.relType := relType;
      this.leftSide := leftSide;
      this.rightSide := rightSide;
      new;
      var _ := leftSide.SetRelationship(this, LEFT);
      var _ := rightSide.SetRelationship(this, RIGHT);
    }
  }

  /** The attributes of a BusinessModel or an Entity other than its fields. */
  datatype Header = Header(
    name: string,
    description: string,
    audited: bool,
    stateMachine: StateMachine?,
    uniqueConstraints: seq<Constraint>)

  /** The flags `get*Fields` filter on. */
  datatype Flag = MandatoryFlag | SearchableFlag | ManagedFlag

  predicate HasFlag(f: Field, k: Flag)
    reads f
  {
    match k
    case MandatoryFlag => f.mandatory
    case SearchableFlag => f.searchable
    case ManagedFlag => f.managed
  }

  /** The fields carrying flag k, in their order. */
  function Flagged(fs: seq<Field>, k: Flag): seq<Field>
    reads fs
  {
    if fs == [] then []
    else Flagged(fs[..|fs| - 1], k) + (if HasFlag(fs[|fs| - 1], k) then [fs[|fs| - 1]] else [])
  }

  lemma {:induction false} FlaggedExactly(fs: seq<Field>, k: Flag)
    ensures forall f :: f in Flagged(fs, k) <==> f in fs && HasFlag(f, k)
    ensures |Flagged(fs, k)| <= |fs|
    decreases |fs|
  {
    if fs != [] {
      var init := fs[..|fs| - 1];
      FlaggedExactly(init, k);
      assert fs == init + [fs[|fs| - 1]];
    }
  }

  method CollectFlagged(fs: seq<Field>, k: Flag) returns (r: seq<Field>)
    ensures r == Flagged(fs, k)
  {
    r := [];
    var i := 0;
    while i < |fs|
      invariant 0 <= i <= |fs|
      invariant r == Flagged(fs[..i], k)
    {
      assert fs[..i + 1][..i] == fs[..i];
      if HasFlag(fs[i], k) {
        r := r + [fs[i]];
      }
      i := i + 1;
    }
    assert fs[..|fs|] == fs;
  }

  /** The non-null relations of the fields, in field order. */
  function RelationsOf(fs: seq<Field>): seq<RelationshipSide>
    reads fs
  {
    if fs == [] then []
    else
      var last := fs[|fs| - 1];
      RelationsOf(fs[..|fs| - 1]) + (if last.relation != null then [last.relation] else [])
  }

  lemma {:induction false} RelationsOfExactly(fs: seq<Field>)
    ensures forall s :: s in RelationsOf(fs) <==> exists f :: f in fs && f.relation == s
    decreases |fs|
  {
    if fs != [] {
      var init := fs[..|fs| - 1];
      RelationsOfExactly(init);
      assert fs == init + [fs[|fs| - 1]];
    }
  }

  method CollectRelations(fs: seq<Field>) returns (r: seq<RelationshipSide>)
    ensures r == RelationsOf(fs)
  {
    r := [];
    var i := 0;
    while i < |fs|
      invariant 0 <= i <= |fs|
      invariant r == RelationsOf(fs[..i])
    {
      assert fs[..i + 1][..i] == fs[..i];
      var relation := fs[i].relation;
      if relation != null {
        r := r + [relation];
      }
      i := i + 1;
    }
    assert fs[..|fs|] == fs;
  }

  /** What Entity::getIdentifier looks for; `isIdentifier` stands for the missing FieldHelper::isIdentifier. */
  predicate IsIdentifierCandidate(f: Field, isIdentifier: FieldAttrs -> bool)
    reads f
  {
    f.managed && f.mandatory && isIdentifier(f.Attrs())
  }

  /** The first identifier candidate, in order, or null. */
  function FirstIdentifier(fs: seq<Field>, isIdentifier: FieldAttrs -> bool): Field?
    reads fs
  {
    if fs == [] then null
    else if IsIdentifierCandidate(fs[0], isIdentifier) then fs[0]
    else FirstIdentifier(fs[1..], isIdentifier)
  }

  lemma {:induction false} FirstIdentifierIsFirst(fs: seq<Field>, isIdentifier: FieldAttrs -> bool)
    ensures FirstIdentifier(fs, isIdentifier) == null <==>
              forall f :: f in fs ==> !IsIdentifierCandidate(f, isIdentifier)
    ensures FirstIdentifier(fs, isIdentifier) != null ==>
              exists i :: 0 <= i < |fs| && fs[i] == FirstIdentifier(fs, isIdentifier)
                && IsIdentifierCandidate(fs[i], isIdentifier)
                && forall j :: 0 <= j < i ==> !IsIdentifierCandidate(fs[j], isIdentifier)
    decreases |fs|
  {
    if fs != [] && !IsIdentifierCandidate(fs[0], isIdentifier) {
      FirstIdentifierIsFirst(fs[1..], isIdentifier);
      assert fs == [fs[0]] + fs[1..];
      if FirstIdentifier(fs, isIdentifier) != null {
        var i :| 0 <= i < |fs[1..]| && fs[1..][i] == FirstIdentifier(fs, isIdentifier)
                 && IsIdentifierCandidate(fs[1..][i], isIdentifier)
                 && forall j :: 0 <= j < i ==> !IsIdentifierCandidate(fs[1..][j], isIdentifier);
        assert fs[i + 1] == fs[1..][i];
        assert forall j :: 1 <= j < i + 1 ==> fs[j] == fs[1..][j - 1];
      }
    } else if fs != [] {
      assert fs[0] in fs;
    }
  }

  method FindIdentifier(fs: seq<Field>, isIdentifier: FieldAttrs -> bool) returns (r: Field?)
    ensures r == FirstIdentifier(fs, isIdentifier)
  {
    var i := 0;
    while i < |fs|
      invariant 0 <= i <= |fs|
      invariant FirstIdentifier(fs, isIdentifier) == FirstIdentifier(fs[i..], isIdentifier)
    {
      assert fs[i..][1..] == fs[i + 1..];
      if IsIdentifierCandidate(fs[i], isIdentifier) {
        return fs[i];
      }
      i := i + 1;
    }
    return null;
  }

  /** The state addField works on: the keyed fields, the identifier and its saved flags. */
  datatype IdentifierState = IdentifierState(
    fields: seq<(string, Field)>,
    identifier: Field?,
    managed: bool,
    mandatory: bool,
    generated: bool)

  /** An identifier's managed, mandatory and generated flags forced on. */
  function Forced(a: FieldAttrs): FieldAttrs
  {
    a.(managed := true, mandatory := true, generated := true)
  }

  /** A demoted identifier: flag cleared, the flags saved at its promotion put back. */
  function Restored(a: FieldAttrs, saved: IdentifierState): FieldAttrs
  {
    a.(identifier := false, managed := saved.managed, mandatory := saved.mandatory,
       generated := saved.generated)
  }

  /** `0 === strcasecmp(t, 'id') || 0 === strcasecmp(t, 'uuid')`. */
  predicate IsIdentifierType(t: string)
  {
    Lower(t) == ID || Lower(t) == UUID
  }

  const InvalidIdentifierPrefix := "Invalid identifier type provided: "
  const InvalidIdentifierSuffix := ". Must be either FieldType::UUID or FieldType::ID"
  /** The fatal error of calling setIdentifier() on the null getField() returns. */
  const NullIdentifierCall := "Call to a member function setIdentifier() on null"

  function InvalidIdentifierMessage(t: string): string
  {
    InvalidIdentifierPrefix + t + InvalidIdentifierSuffix
  }

  class BusinessModel {
    var name: string
    var description: string
    var audited: bool
    var stateMachine: StateMachine?
    var fields: seq<(string, Field)>
    var identifier: Field?
    var initIdentifierManaged: bool
    var initIdentifierMandatory: bool
    var initIdentifierGenerated: bool
    var uniqueConstraints: seq<Constraint>

    function Info(): Header
      reads this
    {
      Header(name, description, audited, stateMachine, uniqueConstraints)
    }

    function Ids(): IdentifierState
      reads this
    {
      IdentifierState(fields, identifier, initIdentifierManaged, initIdentifierMandatory,
                      initIdentifierGenerated)
    }

    constructor (name: string, description: string := "")
      ensures Info() == Header(name, description, false, null, [])
      ensures fields == [] && identifier == null
    {
      this.name := name;
      this.description := description;
      audited := false;
      stateMachine := null;
      fields := [];
      identifier := null;
      initIdentifierManaged, initIdentifierMandatory, initIdentifierGenerated := false, false, false;
      uniqueConstraints := [];
    }

    method SetName(name: string) returns (r: BusinessModel)
      modifies this
      ensures r == this && Info() == old(Info()).(name := name) && Ids() == old(Ids())
    {
      this.name := name;
      r := this;
    }

    method SetDescription(description: string) returns (r: BusinessModel)
      modifies this
      ensures r == this && Info() == old(Info()).(description := description) && Ids() == old(Ids())
    {
      this.description := description;
      r := this;
    }

    method SetAudited(audited: bool) returns (r: BusinessModel)
      modifies this
      ensures r == this && Info() == old(Info()).(audited := audited) && Ids() == old(Ids())
    {
      this.audited := audited;
      r := this;
    }

    method SetStateMachine(stateMachine: StateMachine?) returns (r: BusinessModel)
      modifies this
      ensures r == this && Info() == old(Info()).(stateMachine := stateMachine) && Ids() == old(Ids())
    {
      this.stateMachine := stateMachine;
      r := this;
    }

    function GetField(name: string): (r: Field?)
      reads this
      ensures r != null <==> HasKey(fields, name)
      ensures r != null ==> (name, r) in fields
    {
      var o := Get(fields, name);
      if o.Some? then o.value else null
    }

    /** The field stored under the identifier's name: the one a new identifier demotes. */
    function CurrentIdField(): (r: Field?)
      reads this, identifier
      ensures r != null ==> identifier != null && (identifier.name, r) in fields
    {
      if identifier == null then null else GetField(identifier.name)
    }

    function CurrentIdSlot(): set<Field>
      reads this, identifier
    {
      if CurrentIdField() == null then {} else {CurrentIdField()}
    }

    /**
     * Stores the field under its name. An identifier field must be typed id or uuid; it
     * demotes the field stored under the current identifier's name (restoring the flags
     * saved when that one was promoted), saves its own managed/mandatory/generated flags,
     * has them forced on and becomes the identifier. Nothing changes on failure.
     */
    method AddField(field: Field) returns (r: Outcome)
      modifies this, field, CurrentIdSlot()
      ensures r.Fail? <==>
                (old(field.identifier) && (!IsIdentifierType(old(field.fieldType))
                                           || (old(identifier) != null && old(CurrentIdField()) == null)))
      ensures r.Fail? && !IsIdentifierType(old(field.fieldType)) ==>
                r.error == Error(InvalidArgument, InvalidIdentifierMessage(old(field.fieldType)))
      ensures r.Fail? && IsIdentifierType(old(field.fieldType)) ==> r.error.kind == Fatal
      ensures r.Fail? ==> Ids() == old(Ids()) && field.Attrs() == old(field.Attrs())
      ensures Info() == old(Info())
      ensures field.relation == old(field.relation) && field.name == old(field.name)
      ensures forall c :: c in old(CurrentIdSlot()) ==> c.name == old(c.name) && c.relation == old(c.relation)
      ensures forall p :: p in fields ==> p in old(fields) || p.1 == field || p.1 in old(CurrentIdSlot())
      ensures r.Done? ==> HasKey(fields, field.name) && forall k :: HasKey(old(fields), k) ==> HasKey(fields, k)
      // a plain field is stored and nothing else happens
      ensures !old(field.identifier) ==>
                r.Done? && Ids() == old(Ids()).(fields := Put(old(fields), field.name, field))
                && unchanged(field) && unchanged(old(CurrentIdSlot()))
      // an accepted identifier is forced on, stored and becomes the identifier
      ensures r.Done? && old(field.identifier) ==> IdentifierAccepted(field)
      // with no identifier yet, its own flags are saved
      ensures r.Done? && old(field.identifier) && old(identifier) == null ==>
                Ids() == IdentifierState(Put(old(fields), field.name, field), field,
                                         old(field.managed), old(field.mandatory), old(field.generated))
                && field.Attrs() == Forced(old(field.Attrs()))
      // otherwise the field under the identifier's name is demoted and stored again first
      ensures r.Done? && old(field.identifier) && old(CurrentIdField()) != null ==>
                var cur: Field := old(CurrentIdField());
                var demoted := Restored(old(cur.Attrs()), old(Ids()));
                fields == Put(Put(old(fields), old(cur.name), cur), old(field.name), field)
                && (cur != field ==>
                      cur.Attrs() == demoted && field.Attrs() == Forced(old(field.Attrs()))
                      && Saved() == (old(field.managed), old(field.mandatory), old(field.generated)))
                && (cur == field ==>
                      field.Attrs() == Forced(demoted)
                      && Saved() == (demoted.managed, demoted.mandatory, demoted.generated))
    {
      if field.identifier {
        r := AddIdentifier(field);
      } else {
        Store(field);
        r := Done;
      }
    }

    /** The flags saved from the current identifier when it was promoted. */
    function Saved(): (bool, bool, bool)
      reads this
    {
      (initIdentifierManaged, initIdentifierMandatory, initIdentifierGenerated)
    }

    /** The accepted identifier's flags are on and it is the model's identifier. */
    predicate IdentifierAccepted(field: Field)
      reads this, field
    {
      identifier == field && field.mandatory && field.managed && field.generated
    }

    /** Lines 142-170 for a field flagged as identifier. */
    method AddIdentifier(field: Field) returns (r: Outcome)
      requires field.identifier
      modifies this, field, CurrentIdSlot()
      ensures r.Fail? <==>
                (!IsIdentifierType(old(field.fieldType)) || (old(identifier) != null && old(CurrentIdField()) == null))
      ensures r.Fail? && !IsIdentifierType(old(field.fieldType)) ==>
                r.error == Error(InvalidArgument, InvalidIdentifierMessage(old(field.fieldType)))
      ensures r.Fail? && IsIdentifierType(old(field.fieldType)) ==> r.error.kind == Fatal
      ensures r.Fail? ==> Ids() == old(Ids()) && field.Attrs() == old(field.Attrs())
      ensures Info() == old(Info())
      ensures field.relation == old(field.relation) && field.name == old(field.name)
      ensures forall c :: c in old(CurrentIdSlot()) ==> c.name == old(c.name) && c.relation == old(c.relation)
      ensures forall p :: p in fields ==> p in old(fields) || p.1 == field || p.1 in old(CurrentIdSlot())
      ensures r.Done? ==> HasKey(fields, field.name) && forall k :: HasKey(old(fields), k) ==> HasKey(fields, k)
      ensures r.Done? ==> IdentifierAccepted(field)
      ensures r.Done? && old(identifier) == null ==>
                Ids() == IdentifierState(Put(old(fields), field.name, field), field,
                                         old(field.managed), old(field.mandatory), old(field.generated))
                && field.Attrs() == Forced(old(field.Attrs()))
      ensures r.Done? && old(CurrentIdField()) != null ==>
                var cur: Field := old(CurrentIdField());
                var demoted := Restored(old(cur.Attrs()), old(Ids()));
                fields == Put(Put(old(fields), old(cur.name), cur), old(field.name), field)
                && (cur != field ==>
                      cur.Attrs() == demoted && field.Attrs() == Forced(old(field.Attrs()))
                      && Saved() == (old(field.managed), old(field.mandatory), old(field.generated)))
                && (cur == field ==>
                      field.Attrs() == Forced(demoted)
                      && Saved() == (demoted.managed, demoted.mandatory, demoted.generated))
    {
      if !IsIdentifierType(field.fieldType) {
        return Fail(Error(InvalidArgument, InvalidIdentifierMessage(field.fieldType)));
      }
      if identifier != null && GetField(identifier.name) == null {
        return Fail(Error(Fatal, NullIdentifierCall));
      }
      AcceptIdentifier(field);
      return Done;
    }

    /** Lines 148-170 once the identifier's type is accepted and any field to demote exists. */
    method AcceptIdentifier(field: Field)
      requires identifier != null ==> CurrentIdField() != null
      modifies this, field, CurrentIdSlot()
      ensures Info() == old(Info())
      ensures field.relation == old(field.relation) && field.name == old(field.name)
      ensures forall c :: c in old(CurrentIdSlot()) ==> c.name == old(c.name) && c.relation == old(c.relation)
      ensures forall p :: p in fields ==> p in old(fields) || p.1 == field || p.1 in old(CurrentIdSlot())
      ensures HasKey(fields, field.name) && forall k :: HasKey(old(fields), k) ==> HasKey(fields, k)
      ensures IdentifierAccepted(field)
      ensures old(identifier) == null ==>
                Ids() == IdentifierState(Put(old(fields), field.name, field), field,
                                         old(field.managed), old(field.mandatory), old(field.generated))
                && field.Attrs() == Forced(old(field.Attrs()))
      ensures old(CurrentIdField()) != null ==>
                var cur: Field := old(CurrentIdField());
                var demoted := Restored(old(cur.Attrs()), old(Ids()));
                fields == Put(Put(old(fields), old(cur.name), cur), old(field.name), field)
                && (cur != field ==>
                      cur.Attrs() == demoted && field.Attrs() == Forced(old(field.Attrs()))
                      && Saved() == (old(field.managed), old(field.mandatory), old(field.generated)))
                && (cur == field ==>
                      field.Attrs() == Forced(demoted)
                      && Saved() == (demoted.managed, demoted.mandatory, demoted.generated))
    {
      hide Info, Put, Forced, Restored, HasKey, IdentifierAccepted;
      if identifier != null {
        ReplaceIdentifier(field, GetField(identifier.name));
      } else {
        PromoteAndStore(field);
      }
    }

    /** Lines 148-170 when a field sits under the current identifier's name. */
    method ReplaceIdentifier(field: Field, cur: Field)
      requires cur == CurrentIdField()
      modifies this, field, cur
      ensures Info() == old(Info()) && IdentifierAccepted(field)
      ensures field.relation == old(field.relation) && field.name == old(field.name)
      ensures cur.relation == old(cur.relation) && cur.name == old(cur.name)
      ensures forall p :: p in fields ==> p in old(fields) || p.1 == field || p.1 == cur
      ensures HasKey(fields, field.name) && forall k :: HasKey(old(fields), k) ==> HasKey(fields, k)
      ensures fields == Put(Put(old(fields), old(cur.name), cur), old(field.name), field)
      ensures cur != field ==>
                cur.Attrs() == Restored(old(cur.Attrs()), old(Ids()))
                && field.Attrs() == Forced(old(field.Attrs()))
                && Saved() == (old(field.managed), old(field.mandatory), old(field.generated))
      ensures cur == field ==>
                var demoted := Restored(old(cur.Attrs()), old(Ids()));
                field.Attrs() == Forced(demoted)
                && Saved() == (demoted.managed, demoted.mandatory, demoted.generated)
    {
      Demote(cur);
      // line 156: adding the demoted field, no longer an identifier, only stores it
      Store(cur);
      PromoteAndStore(field);
    }

    /** Lines 160-170. */
    method PromoteAndStore(field: Field)
      modifies this, field
      ensures field.Attrs() == Forced(old(field.Attrs())) && field.relation == old(field.relation)
      ensures field.name == old(field.name)
      ensures Ids() == IdentifierState(Put(old(fields), old(field.name), field), field,
                                       old(field.managed), old(field.mandatory), old(field.generated))
      ensures Info() == old(Info()) && IdentifierAccepted(field)
      ensures forall p :: p in fields ==> p in old(fields) || p.1 == field
      ensures HasKey(fields, field.name) && forall k :: HasKey(old(fields), k) ==> HasKey(fields, k)
    {
      Promote(field);
      Store(field);
    }

    /** `$this->fields[$field->getName()] = $field` (line 170). */
    method Store(field: Field)
      modifies this
      ensures Ids() == old(Ids()).(fields := Put(old(fields), field.name, field)) && Info() == old(Info())
      ensures forall p :: p in fields ==> p in old(fields) || p == (field.name, field)
      ensures HasKey(fields, field.name) && forall k :: HasKey(old(fields), k) ==> HasKey(fields, k)
    {
      PutEntries(fields, field.name, field);
      PutKeepsKeys(fields, field.name, field);
      fields := Put(fields, field.name, field);
    }

    /**
     * Clears the fields, then adds the given ones in order, stopping at the first
     * failure. The identifier is not cleared, so the first identifier field among them
     * demotes whatever field now sits under the old identifier's name, or fails when
     * none does.
     */
    method SetFields(fs: seq<Field>) returns (r: Outcome)
      modifies this, fs
      ensures Info() == old(Info())
      ensures forall p :: p in fields ==> p.1 in fs
      ensures forall i :: 0 <= i < |fs| ==> fs[i].name == old(fs[i].name)
      ensures r.Done? ==> forall i :: 0 <= i < |fs| ==> HasKey(fields, fs[i].name)
      // without identifier fields this is the plain keyed store
      ensures (forall i :: 0 <= i < |fs| ==> !old(fs[i].identifier)) ==>
                r.Done? && fields == PutAll([], old(Named(fs))) && identifier == old(identifier)
    {
      ghost var noId := forall i :: 0 <= i < |fs| ==> !fs[i].identifier;
      ghost var named := Named(fs);
      assert named == old(Named(fs));
      fields := [];
      var i := 0;
      while i < |fs|
        invariant 0 <= i <= |fs|
        invariant Info() == old(Info())
        invariant forall p :: p in fields ==> p.1 in fs
        invariant forall j :: 0 <= j < |fs| ==> fs[j].name == named[j].0
        invariant forall j :: 0 <= j < i ==> HasKey(fields, named[j].0)
        invariant noId ==> unchanged(fs)
        invariant noId ==> fields == PutAll([], named[..i])
        invariant noId ==> identifier == old(identifier)
      {
        ghost var before := fields;
        r := AddListed(fs, named, i, noId);
        if r.Fail? {
          return;
        }
        KeysStep(before, fields, named, i);
        if noId {
          PutAllStep([], named, i);
        }
        i := i + 1;
      }
      assert named[..|fs|] == named;
      return Done;
    }

    /** One round of the setFields loop: addField of the i-th given field. */
    method AddListed(fs: seq<Field>, ghost named: seq<(string, Field)>, i: nat, ghost noId: bool)
      returns (r: Outcome)
      requires i < |fs| == |named|
      requires forall p :: p in fields ==> p.1 in fs
      requires forall j :: 0 <= j < |fs| ==> fs[j].name == named[j].0 && fs[j] == named[j].1
      requires noId ==> !fs[i].identifier
      modifies this, fs
      ensures Info() == old(Info())
      ensures forall p :: p in fields ==> p.1 in fs
      ensures forall j :: 0 <= j < |fs| ==> fs[j].name == named[j].0
      ensures r.Done? ==> HasKey(fields, named[i].0) && forall k :: HasKey(old(fields), k) ==> HasKey(fields, k)
      ensures noId ==> r.Done? && unchanged(fs) && identifier == old(identifier)
                       && fields == Put(old(fields), named[i].0, named[i].1)
    {
      r := AddField(fs[i]);
    }

    /** Clears the identifier flag and restores the flags saved at promotion (lines 150-154). */
    method Demote(cur: Field)
      modifies this, cur
      ensures cur.Attrs() == Restored(old(cur.Attrs()), old(Ids()))
      ensures cur.relation == old(cur.relation)
      ensures Ids() == old(Ids()).(identifier := null) && Info() == old(Info())
    {
      var _ := cur.SetIdentifier(false);
      var _ := cur.SetManaged(initIdentifierManaged);
      var _ := cur.SetMandatory(initIdentifierMandatory);
      var _ := cur.SetGenerated(initIdentifierGenerated);
      identifier := null;
    }

    /** Saves the field's flags, forces them on and makes it the identifier (lines 160-167). */
    method Promote(field: Field)
      modifies this, field
      ensures field.Attrs() == Forced(old(field.Attrs()))
      ensures field.relation == old(field.relation)
      ensures Ids() == IdentifierState(old(fields), field, old(field.managed), old(field.mandatory),
                                       old(field.generated))
      ensures Info() == old(Info())
    {
      initIdentifierManaged := field.managed;
      initIdentifierMandatory := field.mandatory;
      initIdentifierGenerated := field.generated;
      ForceFlags(field);
      identifier := field;
    }

    /** `setMandatory(true)`, `setManaged(true)` and `setGenerated(true)` (lines 162-164). */
    static method ForceFlags(field: Field)
      modifies field
      ensures field.Attrs() == Forced(old(field.Attrs())) && field.relation == old(field.relation)
    {
      var _ := field.SetMandatory(true);
      var _ := field.SetManaged(true);
      var _ := field.SetGenerated(true);
    }

    method GetMandatoryFields() returns (r: seq<Field>)
      ensures r == Flagged(Values(fields), MandatoryFlag)
    {
      r := CollectFlagged(Values(fields), MandatoryFlag);
    }

    method GetSearchableFields() returns (r: seq<Field>)
      ensures r == Flagged(Values(fields), SearchableFlag)
    {
      r := CollectFlagged(Values(fields), SearchableFlag);
    }

    method GetManagedFields() returns (r: seq<Field>)
      ensures r == Flagged(Values(fields), ManagedFlag)
    {
      r := CollectFlagged(Values(fields), ManagedFlag);
    }

    method GetRelations() returns (r: seq<RelationshipSide>)
      ensures r == RelationsOf(Values(fields))
    {
      r := CollectRelations(Values(fields));
    }

    method AddUniqueConstraint(constraint: Constraint) returns (r: BusinessModel)
      modifies this
      ensures r == this && Info() == old(Info()).(uniqueConstraints := old(uniqueConstraints) + [constraint])
      ensures Ids() == old(Ids())
    {
      uniqueConstraints := uniqueConstraints + [constraint];
      r := this;
    }

    /** Clears the list, then appends each constraint in turn; duplicates are kept. */
    method SetUniqueConstraints(constraints: seq<Constraint>) returns (r: BusinessModel)
      modifies this
      ensures r == this && Info() == old(Info()).(uniqueConstraints := constraints)
      ensures Ids() == old(Ids())
    {
      uniqueConstraints := [];
      var i := 0;
      while i < |constraints|
        invariant 0 <= i <= |constraints|
        invariant Info() == old(Info()).(uniqueConstraints := constraints[..i])
        invariant Ids() == old(Ids())
      {
        var _ := AddUniqueConstraint(constraints[i]);
        i := i + 1;
      }
      assert constraints[..|constraints|] == constraints;
      r := this;
    }
  }

  /** The older form of BusinessModel: fields keyed by name, no identifier bookkeeping. */
  class Entity {
    var name: string
    var description: string
    var audited: bool
    var stateMachine: StateMachine?
    var fields: seq<(string, Field)>
    var uniqueConstraints: seq<Constraint>

    function Info(): Header
      reads this
    {
      Header(name, description, audited, stateMachine, uniqueConstraints)
    }

    constructor (name: string, description: string := "")
      ensures Info() == Header(name, description, false, null, []) && fields == []
    {
      this.name := name;
      this.description := description;
      audited := false;
      stateMachine := null;
      fields := [];
      uniqueConstraints := [];
    }

    method SetName(name: string) returns (r: Entity)
      modifies this
      ensures r == this && Info() == old(Info()).(name := name) && fields == old(fields)
    {
      this.name := name;
      r := this;
    }

    method SetDescription(description: string) returns (r: Entity)
      modifies this
      ensures r == this && Info() == old(Info()).(description := description) && fields == old(fields)
    {
      this.description := description;
      r := this;
    }

    method SetAudited(audited: bool) returns (r: Entity)
      modifies this
      ensures r == this && Info() == old(Info()).(audited := audited) && fields == old(fields)
    {
      this.audited := audited;
      r := this;
    }

    method SetStateMachine(stateMachine: StateMachine?) returns (r: Entity)
      modifies this
      ensures r == this && Info() == old(Info()).(stateMachine := stateMachine) && fields == old(fields)
    {
      this.stateMachine := stateMachine;
      r := this;
    }

    method AddField(field: Field) returns (r: Entity)
      modifies this
      ensures r == this && fields == Put(old(fields), field.name, field) && Info() == old(Info())
    {
      fields := Put(fields, field.name, field);
      r := this;
    }

    /** Clears the fields, then adds each in order: the later of two equal names wins. */
    method SetFields(fs: seq<Field>) returns (r: Entity)
      modifies this
      ensures r == this && fields == PutAll([], old(Named(fs))) && Info() == old(Info())
    {
      ghost var named := Named(fs);
      fields := [];
      var i := 0;
      while i < |fs|
        invariant 0 <= i <= |fs|
        invariant fields == PutAll([], named[..i]) && Info() == old(Info())
      {
        var _ := AddField(fs[i]);
        PutAllStep([], named, i);
        i := i + 1;
      }
      assert named[..|fs|] == named;
      r := this;
    }

    function GetField(name: string): (r: Field?)
      reads this
      ensures r != null <==> HasKey(fields, name)
      ensures r != null ==> (name, r) in fields
    {
      var o := Get(fields, name);
      if o.Some? then o.value else null
    }

    method GetMandatoryFields() returns (r: seq<Field>)
      ensures r == Flagged(Values(fields), MandatoryFlag)
    {
      r := CollectFlagged(Values(fields), MandatoryFlag);
    }

    method GetSearchableFields() returns (r: seq<Field>)
      ensures r == Flagged(Values(fields), SearchableFlag)
    {
      r := CollectFlagged(Values(fields), SearchableFlag);
    }

    method GetManagedFields() returns (r: seq<Field>)
      ensures r == Flagged(Values(fields), ManagedFlag)
    {
      r := CollectFlagged(Values(fields), ManagedFlag);
    }

    method GetRelations() returns (r: seq<RelationshipSide>)
      ensures r == RelationsOf(Values(fields))
    {
      r := CollectRelations(Values(fields));
    }

    /** `isIdentifier` stands for FieldHelper::isIdentifier, which FieldHelper does not declare. */
    method GetIdentifier(isIdentifier: FieldAttrs -> bool) returns (r: Field?)
      ensures r == FirstIdentifier(Values(fields), isIdentifier)
    {
      r := FindIdentifier(Values(fields), isIdentifier);
    }

    method AddUniqueConstraint(constraint: Constraint) returns (r: Entity)
      modifies this
      ensures r == this && Info() == old(Info()).(uniqueConstraints := old(uniqueConstraints) + [constraint])
      ensures fields == old(fields)
    {
      uniqueConstraints := uniqueConstraints + [constraint];
      r := this;
    }

    method SetUniqueConstraints(constraints: seq<Constraint>) returns (r: Entity)
      modifies this
      ensures r == this && Info() == old(Info()).(uniqueConstraints := constraints)
      ensures fields == old(fields)
    {
      uniqueConstraints := [];
      var i := 0;
      while i < |constraints|
        invariant 0 <= i <= |constraints|
        invariant Info() == old(Info()).(uniqueConstraints := constraints[..i])
        invariant fields == old(fields)
      {
        var _ := AddUniqueConstraint(constraints[i]);
        i := i + 1;
      }
      assert constraints[..|constraints|] == constraints;
      r := this;
    }
  }

  /** The names of the first `i` entries stay keys, and the i-th one becomes one. */
  lemma KeysStep(before: seq<(string, Field)>, after: seq<(string, Field)>,
                 named: seq<(string, Field)>, i: nat)
    requires i < |named|
    requires forall j :: 0 <= j < i ==> HasKey(before, named[j].0)
    requires forall k :: HasKey(before, k) ==> HasKey(after, k)
    requires HasKey(after, named[i].0)
    ensures forall j :: 0 <= j < i + 1 ==> HasKey(after, named[j].0)
  {
  }

  /** Each field paired with its name: the assignments `$this->fields[$f->getName()] = $f`. */
  function Named(fs: seq<Field>): (r: seq<(string, Field)>)
    reads fs
    ensures |r| == |fs|
    ensures forall i :: 0 <= i < |fs| ==> r[i] == (fs[i].name, fs[i])
  {
    if fs == [] then [] else Named(fs[..|fs| - 1]) + [(fs[|fs| - 1].name, fs[|fs| - 1])]
  }

  /** A unique constraint over some fields; the constructor keeps the keys it is given. */
  class Constraint {
    var name: string
    const constraintType: int
    var fields: seq<(ArrayKey, Field)>
    var description: string
    var errorMessage: string

    constructor (name: string, constraintType: int := TYPE_UNIQUE,
                 fields: seq<(ArrayKey, Field)> := [], description: string := "",
                 errorMessage: string := "")
      ensures this.name == name && this.constraintType == constraintType && this.fields == fields
      ensures this.description == description && this.errorMessage == errorMessage
    {
      this.name := name;
      this.constraintType := constraintType;
      this.fields := fields;
      this.description := description;
      this.errorMessage := errorMessage;
    }

    method SetName(name: string) returns (r: Constraint)
      modifies this
      ensures r == this && this.name == name
      ensures fields == old(fields) && description == old(description) && errorMessage == old(errorMessage)
    {
      this.name := name;
      r := this;
    }

    method SetDescription(description: string) returns (r: Constraint)
      modifies this
      ensures r == this && this.description == description
      ensures fields == old(fields) && name == old(name) && errorMessage == old(errorMessage)
    {
      this.description := description;
      r := this;
    }

    method SetErrorMessage(errorMessage: string) returns (r: Constraint)
      modifies this
      ensures r == this && this.errorMessage == errorMessage
      ensures fields == old(fields) && name == old(name) && description == old(description)
    {
      this.errorMessage := errorMessage;
      r := this;
    }

    /** Stores the field under the key PHP makes of its name. */
    method AddField(field: Field) returns (r: Constraint)
      modifies this
      ensures r == this && fields == Put(old(fields), KeyOf(field.name), field)
      ensures name == old(name) && description == old(description) && errorMessage == old(errorMessage)
    {
      fields := Put(fields, KeyOf(field.name), field);
      r := this;
    }

    /** A name that spells an int finds the field the constructor was given at that position key. */
    function GetField(name: string): (r: Field?)
      reads this
      ensures r != null <==> HasKey(fields, KeyOf(name))
      ensures r != null ==> (KeyOf(name), r) in fields
    {
      var o := Get(fields, KeyOf(name));
      if o.Some? then o.value else null
    }
  }

  /** A database index over fields (namespace CodePrimer\Model\Database). */
  class Index {
    const ASCENDING := "ASC"
    const DESCENDING := "DESC"

    var name: string
    var description: Option<string>
    var fields: seq<Field>
    var order: string

    constructor (name: string, fields: seq<Field>, order: string := "ASC")
      ensures this.name == name && this.fields == fields && this.order == order
      ensures description == None
    {
      this.name := name;
      this.fields := fields;
      this.order := order;
      description := None;
    }

    method SetName(name: string) returns (r: Index)
      modifies this
      ensures r == this && this.name == name
      ensures fields == old(fields) && order == old(order) && description == old(description)
    {
      this.name := name;
      r := this;
    }

    method SetDescription(description: string) returns (r: Index)
      modifies this
      ensures r == this && this.description == Some(description)
      ensures fields == old(fields) && order == old(order) && name == old(name)
    {
      this.description := Some(description);
      r := this;
    }

    method SetFields(fields: seq<Field>) returns (r: Index)
      modifies this
      ensures r == this && this.fields == fields
      ensures name == old(name) && order == old(order) && description == old(description)
    {
      this.fields := fields;
      r := this;
    }

    method SetOrder(order: string) returns (r: Index)
      modifies this
      ensures r == this && this.order == order
      ensures fields == old(fields) && name == old(name) && description == old(description)
    {
      this.order := order;
      r := this;
    }
  }
}
