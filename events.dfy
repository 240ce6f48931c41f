/** The older event class, attached to an Entity (src/Model/Event.php). */
module Events {
  import opened OrderedMap
  import opened Model

  class Event {
    var name: string
    var code: string
    var description: string
    var entity: Entity?
    /** Keyed by field name. */
    var fields: seq<(string, Field)>

    constructor (name: string, code: string, description: string := "", entity: Entity? := null)
      ensures this.name == name && this.code == code && this.description == description
      ensures this.entity == entity && fields == []
    {
      this.name := name;
      this.code := code;
      this.description := description;
      this.entity := entity;
      fields := [];
    }

    method SetName(name: string) returns (r: Event)
      modifies this
      ensures r == this && this.name == name
      ensures code == old(code) && description == old(description) && entity == old(entity) && fields == old(fields)
    {
      this.name := name;
      r := this;
    }

    method SetCode(code: string) returns (r: Event)
      modifies this
      ensures r == this && this.code == code
      ensures name == old(name) && description == old(description) && entity == old(entity) && fields == old(fields)
    {
      this.code := code;
      r := this;
    }

    method SetDescription(description: string) returns (r: Event)
      modifies this
      ensures r == this && this.description == description
      ensures name == old(name) && code == old(code) && entity == old(entity) && fields == old(fields)
    {
      this.description := description;
      r := this;
    }

    method SetEntity(entity: Entity) returns (r: Event)
      modifies this
      ensures r == this && this.entity == entity
      ensures name == old(name) && code == old(code) && description == old(description) && fields == old(fields)
    {
      this.entity := entity;
      r := this;
    }

    /** Keyed by the field's name, replacing an earlier field of that name in place. */
    method AddField(field: Field) returns (r: Event)
      modifies this
      ensures r == this && fields == Put(old(fields), field.name, field)
      ensures name == old(name) && code == old(code) && description == old(description) && entity == old(entity)
    {
      fields := Put(fields, field.name, field);
      r := this;
    }

    /** Clears the fields, then adds each in order. */
    method SetFields(fs: seq<Field>) returns (r: Event)
      modifies this
      ensures r == this && fields == PutAll([], old(Named(fs)))
      ensures name == old(name) && code == old(code) && description == old(description) && entity == old(entity)
    {
      ghost var named := Named(fs);
      fields := [];
      var i := 0;
      while i < |fs|
        invariant 0 <= i <= |fs|
        invariant fields == PutAll([], named[..i])
        invariant name == old(name) && code == old(code) && description == old(description) && entity == old(entity)
      {
        var _ := AddField(fs[i]);
        PutAllStep([], named, i);
        i := i + 1;
      }
      assert named[..|fs|] == named;
      r := this;
    }

    function GetField(name: string): (r: Field?)
      reads this
      ensures r != null <==> HasKey(fields, name)
      ensures r != null ==> (name, r) in fields
    {
      var o := Get(fields, name);
      if o.Some? then o.value else null
    }

    /** The mandatory fields, in field order. */
    method ListMandatoryFields() returns (r: seq<Field>)
      ensures r == Flagged(Values(fields), MandatoryFlag)
    {
      r := CollectFlagged(Values(fields), MandatoryFlag);
    }
  }
}
