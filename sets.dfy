/** The older pre-defined value sets (src/Model/Set.php, src/Model/Element.php). */
module Sets {
  import opened Wrappers
  import opened PhpValues
  import opened OrderedMap
  import opened Model
  import opened Datasets

  /** A row of a Set: any PHP array of values. */
  class Element {
    var values: seq<(ArrayKey, Value)>

    constructor ()
      ensures values == []
    {
      values := [];
    }

    /** Replaces the whole map; unlike the data set rows, no key is checked. */
    method SetValues(values: seq<(ArrayKey, Value)>)
      modifies this
      ensures this.values == values
    {
      this.values := values;
    }

    /** `$this->values[$name] = $value`: one entry set or overwritten, the others kept. */
    method AddValue(name: string, value: Value)
      modifies this
      ensures values == Put(old(values), KeyOf(name), value)
      ensures Get(values, KeyOf(name)) == Some(value)
      ensures forall k :: k != KeyOf(name) ==> Get(values, k) == Get(old(values), k)
    {
      values := Put(values, KeyOf(name), value);
    }

    /** Declared `: ?string`: an absent or null value is null, a DateTime a TypeError. */
    function GetValue(name: string): (r: Result<Option<string>>)
      reads this
      ensures !HasKey(values, KeyOf(name)) ==> r == Success(None)
      ensures r.Failure? <==> Get(values, KeyOf(name)).Some? && Get(values, KeyOf(name)).value.VDateTime?
      ensures r.Success? && r.value.Some? ==>
        exists v :: (KeyOf(name), v) in values && StringOf(v) == Success(r.value.value)
    {
      ReturnNullableString(Lookup(values, name))
    }
  }

  /** What GetValue reads back after AddValue of a string: that string. */
  lemma AddedStringReadsBack(values: seq<(ArrayKey, Value)>, name: string, s: string)
    ensures ReturnNullableString(Lookup(Put(values, KeyOf(name), VString(s)), name)) == Success(Some(s))
  {
  }

  /** A named set of fields with an appended list of rows. */
  class Set {
    var name: string
    var description: string
    /** Keyed by field name. */
    var fields: seq<(string, Field)>
    var elements: seq<Element>

    constructor (name: string, description: string := "")
      ensures this.name == name && this.description == description
      ensures fields == [] && elements == []
    {
      this.name := name;
      this.description := description;
      fields := [];
      elements := [];
    }

    method SetName(name: string)
      modifies this
      ensures this.name == name && description == old(description)
      ensures fields == old(fields) && elements == old(elements)
    {
      this.name := name;
    }

    method SetDescription(description: string)
      modifies this
      ensures this.description == description && name == old(name)
      ensures fields == old(fields) && elements == old(elements)
    {
      this.description := description;
    }

    /** Keyed by the field's name; an earlier field of that name is replaced in place. */
    method AddField(field: Field)
      modifies this
      ensures fields == Put(old(fields), field.name, field)
      ensures name == old(name) && description == old(description) && elements == old(elements)
    {
      fields := Put(fields, field.name, field);
    }

    /** Clears the fields, then adds each in order. */
    method SetFields(fs: seq<Field>)
      modifies this
      ensures fields == PutAll([], old(Named(fs)))
      ensures name == old(name) && description == old(description) && elements == old(elements)
    {
      ghost var named := Named(fs);
      fields := [];
      var i := 0;
      while i < |fs|
        invariant 0 <= i <= |fs|
        invariant fields == PutAll([], named[..i])
        invariant name == old(name) && description == old(description) && elements == old(elements)
      {
        AddField(fs[i]);
        PutAllStep([], named, i);
        i := i + 1;
      }
      assert named[..|fs|] == named;
    }

    function GetField(name: string): (r: Field?)
      reads this
      ensures r != null <==> HasKey(fields, name)
      ensures r != null ==> (name, r) in fields
    {
      var o := Get(fields, name);
      if o.Some? then o.value else null
    }

    /** The mandatory fields, in field order. */
    method ListMandatoryFields() returns (r: seq<Field>)
      ensures r == Flagged(Values(fields), MandatoryFlag)
    {
      r := CollectFlagged(Values(fields), MandatoryFlag);
    }

    /** Replaces the whole list. */
    method SetElements(elements: seq<Element>)
      modifies this
      ensures this.elements == elements
      ensures name == old(name) && description == old(description) && fields == old(fields)
    {
      this.elements := elements;
    }

    /** Appends, with no duplicate check. */
    method AddElement(element: Element)
      modifies this
      ensures elements == old(elements) + [element]
      ensures name == old(name) && description == old(description) && fields == old(fields)
    {
      elements := elements + [element];
    }
  }
}
