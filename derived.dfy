/**
 * The event a business process reacts to, and the message it may produce
 * (src/Model/Derived/Event.php, src/Model/Derived/Message.php). A Message is an Event
 * that also carries an id; here it is an Event whose `id` is present.
 */
module Derived {
  import opened Wrappers
  import opened PhpStrings
  import opened OrderedMap
  import opened Model

  class Event {
    var name: string
    var code: string
    var description: string
    var businessModel: BusinessModel?
    /** Keyed by field name. */
    var fields: seq<(string, Field)>
    /** Present exactly for a Message. */
    var id: Option<string>

    constructor (name: string, code: string, description: string := "", businessModel: BusinessModel? := null)
      ensures this.name == name && this.code == code && this.description == description
      ensures this.businessModel == businessModel && fields == [] && id == None
    {
      this.name := name;
      this.code := code;
      this.description := description;
      this.businessModel := businessModel;
      fields := [];
      id := None;
    }

    /**
     * `new Message($id, $name, $description)`: an empty name (as PHP's empty() sees it)
     * becomes the id, and the description is passed on as the parent's second argument,
     * which is the event code; the event description stays ''.
     */
    static method NewMessage(id: string, name: string := "", description: string := "") returns (m: Event)
      ensures fresh(m) && m.id == Some(id)
      ensures m.name == (if IsEmpty(name) then id else name)
      ensures m.code == description && m.description == ""
      ensures m.businessModel == null && m.fields == []
    {
      var n := name;
      if IsEmpty(n) {
        n := id;
      }
      m := new Event(n, description);
      m.id := Some(id);
    }

    predicate IsMessage()
      reads this
    {
      id.Some?
    }

    function GetId(): (r: string)
      reads this
      requires IsMessage()
      ensures Some(r) == id
    {
      id.value
    }

    method SetName(name: string) returns (r: Event)
      modifies this
      ensures r == this && this.name == name
      ensures code == old(code) && description == old(description) && businessModel == old(businessModel)
      ensures fields == old(fields) && id == old(id)
    {
      this.name := name;
      r := this;
    }

    method SetCode(code: string) returns (r: Event)
      modifies this
      ensures r == this && this.code == code
      ensures name == old(name) && description == old(description) && businessModel == old(businessModel)
      ensures fields == old(fields) && id == old(id)
    {
      this.code := code;
      r := this;
    }

    method SetDescription(description: string) returns (r: Event)
      modifies this
      ensures r == this && this.description == description
      ensures name == old(name) && code == old(code) && businessModel == old(businessModel)
      ensures fields == old(fields) && id == old(id)
    {
      this.description := description;
      r := this;
    }

    method SetBusinessModel(businessModel: BusinessModel) returns (r: Event)
      modifies this
      ensures r == this && this.businessModel == businessModel
      ensures name == old(name) && code == old(code) && description == old(description)
      ensures fields == old(fields) && id == old(id)
    {
      this.businessModel := businessModel;
      r := this;
    }

    /** Keyed by the field's name, replacing an earlier field of that name in place. */
    method AddField(field: Field) returns (r: Event)
      modifies this
      ensures r == this && fields == Put(old(fields), field.name, field)
      ensures name == old(name) && code == old(code) && description == old(description)
      ensures businessModel == old(businessModel) && id == old(id)
    {
      fields := Put(fields, field.name, field);
      r := this;
    }

    /** Clears the fields, then adds each in order. */
    method SetFields(fs: seq<Field>) returns (r: Event)
      modifies this
      ensures r == this && fields == PutAll([], old(Named(fs)))
      ensures name == old(name) && code == old(code) && description == old(description)
      ensures businessModel == old(businessModel) && id == old(id)
    {
      ghost var named := Named(fs);
      fields := [];
      var i := 0;
      while i < |fs|
        invariant 0 <= i <= |fs|
        invariant fields == PutAll([], named[..i])
        invariant name == old(name) && code == old(code) && description == old(description)
        invariant businessModel == old(businessModel) && id == old(id)
      {
        var _ := AddField(fs[i]);
        PutAllStep([], named, i);
        i := i + 1;
      }
      assert named[..|fs|] == named;
      r := this;
    }

    function GetField(name: string): (r: Field?)
      reads this
      ensures r != null <==> HasKey(fields, name)
      ensures r != null ==> (name, r) in fields
    {
      var o := Get(fields, name);
      if o.Some? then o.value else null
    }

    /** The mandatory fields, in field order. */
    method ListMandatoryFields() returns (r: seq<Field>)
      ensures r == Flagged(Values(fields), MandatoryFlag)
    {
      r := CollectFlagged(Values(fields), MandatoryFlag);
    }
  }
}
