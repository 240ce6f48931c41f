/**
 * The older data bundle (src/Model/DataBundle.php): per business model, the fields it
 * carries split into a mandatory and an optional map, each keyed by field name.
 */
module LegacyBundles {
  import opened Wrappers
  import opened PhpStrings
  import opened OrderedMap
  import opened Model

  /** An entry of addFields' lists: a Field, or the name of one. */
  datatype Desired = AField(field: Field) | AName(name: string)

  function NameOf(d: Desired): string
    reads if d.AField? then {d.field} else {}
  {
    if d.AField? then d.field.name else d.name
  }

  function DesiredNames(ds: seq<Desired>): (r: seq<string>)
    reads set d | d in ds && d.AField? :: d.field
    ensures |r| == |ds|
    ensures forall i :: 0 <= i < |ds| ==> r[i] == NameOf(ds[i])
  {
    if ds == [] then [] else DesiredNames(ds[..|ds| - 1]) + [NameOf(ds[|ds| - 1])]
  }

  function MandatoryUndefined(name: string, model: string): string
  {
    "Requested mandatory field " + name + " is not defined in BusinessModel " + model
  }

  function OptionalUndefined(name: string, model: string): string
  {
    "Requested optional field " + name + " is not defined in BusinessModel " + model
  }

  function BothMessage(name: string, model: string): string
  {
    "Requested field " + name + " for BusinessModel " + model + " cannot be both mandatory and optional"
  }

  type Keyed = seq<(string, Field)>

  /**
   * The first loop of addFields: each requested name must be a field of the model; the
   * model's field goes into the map under its own name.
   */
  function PickMandatory(fields: Keyed, model: string, names: seq<string>, acc: Keyed): Result<Keyed>
    reads set p | p in fields :: p.1
    decreases |names|
  {
    if names == [] then Success(acc)
    else match Get(fields, names[0])
      case None => Failure(Error(InvalidArgument, MandatoryUndefined(names[0], model)))
      case Some(f) => PickMandatory(fields, model, names[1..], Put(acc, f.name, f))
  }

  /** The second loop: as the first, and a field already picked as mandatory is refused. */
  function PickOptional(fields: Keyed, model: string, names: seq<string>, mandatory: Keyed, acc: Keyed): Result<Keyed>
    reads set p | p in fields :: p.1
    decreases |names|
  {
    if names == [] then Success(acc)
    else match Get(fields, names[0])
      case None => Failure(Error(InvalidArgument, OptionalUndefined(names[0], model)))
      case Some(f) =>
        if HasKey(mandatory, f.name) then Failure(Error(InvalidArgument, BothMessage(names[0], model)))
        else PickOptional(fields, model, names[1..], mandatory, Put(acc, f.name, f))
  }

  /**
   * The fields of fs whose mandatory flag is `mandatory`, skipping managed ones when
   * `onlyUnmanaged`, keyed by name (a later field of the same name replaces an earlier one).
   */
  function Split(fs: seq<Field>, mandatory: bool, onlyUnmanaged: bool): Keyed
    reads fs
  {
    if fs == [] then []
    else
      var last := fs[|fs| - 1];
      var prev := Split(fs[..|fs| - 1], mandatory, onlyUnmanaged);
      if last.mandatory == mandatory && (!onlyUnmanaged || !last.managed) then Put(prev, last.name, last) else prev
  }

  /** What addFields stores for the model, or the exception it throws first. */
  function Selection(fields: Keyed, model: string, mNames: seq<string>, oNames: seq<string>): Result<(Keyed, Keyed)>
    reads set p | p in fields :: p.1
  {
    var m :- PickMandatory(fields, model, mNames, []);
    var o :- PickOptional(fields, model, oNames, m, []);
    if m == [] && o == [] then Success((Split(Values(fields), true, true), Split(Values(fields), false, true)))
    else Success((m, o))
  }

  /** The loops of addBusinessModel and of addFields' fill: one pass over the fields. */
  method SplitFields(fs: seq<Field>, onlyUnmanaged: bool) returns (mf: Keyed, of: Keyed)
    ensures mf == Split(fs, true, onlyUnmanaged) && of == Split(fs, false, onlyUnmanaged)
  {
    mf, of := [], [];
    var i := 0;
    while i < |fs|
      invariant 0 <= i <= |fs|
      invariant mf == Split(fs[..i], true, onlyUnmanaged) && of == Split(fs[..i], false, onlyUnmanaged)
    {
      assert fs[..i + 1][..i] == fs[..i];
      var f := fs[i];
      if !onlyUnmanaged || !f.managed {
        if f.mandatory {
          mf := Put(mf, f.name, f);
        } else {
          of := Put(of, f.name, f);
        }
      }
      i := i + 1;
    }
    assert fs[..|fs|] == fs;
  }

  /** addFields' first loop. */
  method CollectMandatory(model: BusinessModel, ds: seq<Desired>) returns (r: Result<Keyed>)
    ensures r == PickMandatory(model.fields, model.name, DesiredNames(ds), [])
  {
    ghost var names := DesiredNames(ds);
    var mf: Keyed := [];
    var i := 0;
    while i < |ds|
      invariant 0 <= i <= |ds|
      invariant PickMandatory(model.fields, model.name, names, []) == PickMandatory(model.fields, model.name, names[i..], mf)
    {
      assert names[i..][1..] == names[i + 1..];
      var g := model.GetField(NameOf(ds[i]));
      if g == null {
        return Failure(Error(InvalidArgument, MandatoryUndefined(NameOf(ds[i]), model.name)));
      }
      var f: Field := g;
      mf := Put(mf, f.name, f);
      i := i + 1;
    }
    r := Success(mf);
  }

  /** addFields' second loop, against the mandatory map the first one built. */
  method CollectOptional(model: BusinessModel, ds: seq<Desired>, mf: Keyed) returns (r: Result<Keyed>)
    ensures r == PickOptional(model.fields, model.name, DesiredNames(ds), mf, [])
  {
    ghost var names := DesiredNames(ds);
    var of: Keyed := [];
    var i := 0;
    while i < |ds|
      invariant 0 <= i <= |ds|
      invariant PickOptional(model.fields, model.name, names, mf, []) == PickOptional(model.fields, model.name, names[i..], mf, of)
    {
      assert names[i..][1..] == names[i + 1..];
      var g := model.GetField(NameOf(ds[i]));
      if g == null {
        return Failure(Error(InvalidArgument, OptionalUndefined(NameOf(ds[i]), model.name)));
      }
      var f: Field := g;
      if HasKey(mf, f.name) {
        return Failure(Error(InvalidArgument, BothMessage(NameOf(ds[i]), model.name)));
      }
      of := Put(of, f.name, f);
      i := i + 1;
    }
    r := Success(of);
  }

  /** Selection in terms of its two picks. */
  lemma SelectionCases(fields: Keyed, model: string, mNames: seq<string>, oNames: seq<string>)
    ensures var m := PickMandatory(fields, model, mNames, []);
      m.Failure? ==> Selection(fields, model, mNames, oNames) == Failure(m.error)
    ensures var m := PickMandatory(fields, model, mNames, []);
      m.Success? ==> var o := PickOptional(fields, model, oNames, m.value, []);
        Selection(fields, model, mNames, oNames) ==
          if o.Failure? then Failure(o.error)
          else if m.value == [] && o.value == [] then Success((Split(Values(fields), true, true), Split(Values(fields), false, true)))
          else Success((m.value, o.value))
  {
  }

  /** addFields' checks and its choice of fields, before anything is stored. */
  method Choose(model: BusinessModel, mandatory: seq<Desired>, optional: seq<Desired>) returns (r: Result<(Keyed, Keyed)>)
    ensures r == Selection(model.fields, model.name, DesiredNames(mandatory), DesiredNames(optional))
  {
    SelectionCases(model.fields, model.name, DesiredNames(mandatory), DesiredNames(optional));
    var mf :- CollectMandatory(model, mandatory);
    var of :- CollectOptional(model, optional, mf);
    if mf == [] && of == [] {
      mf, of := SplitFields(Values(model.fields), true);
    }
    r := Success((mf, of));
  }

  /**
   * How addFields leaves the three maps: on success each gets the model under its name,
   * with the chosen mandatory and optional maps; on failure none changes.
   */
  predicate Recorded(sel: Result<(Keyed, Keyed)>, r: Outcome, name: string, model: BusinessModel,
                     oldModels: seq<(string, BusinessModel)>, oldMandatory: seq<(string, Keyed)>, oldOptional: seq<(string, Keyed)>,
                     models: seq<(string, BusinessModel)>, mandatory: seq<(string, Keyed)>, optional: seq<(string, Keyed)>)
  {
    && (r.Done? <==> sel.Success?)
    && (r.Fail? ==> r.error == sel.error && models == oldModels && mandatory == oldMandatory && optional == oldOptional)
    && (r.Done? ==> models == Put(oldModels, name, model) && mandatory == Put(oldMandatory, name, sel.value.0)
                    && optional == Put(oldOptional, name, sel.value.1))
  }

  class DataBundle {
    var name: string
    var description: string
    var businessModels: seq<(string, BusinessModel)>
    var mandatoryFields: seq<(string, Keyed)>
    var optionalFields: seq<(string, Keyed)>

    constructor (name: string := "", description: string := "")
      ensures this.name == name && this.description == description
      ensures businessModels == [] && mandatoryFields == [] && optionalFields == []
    {
      this.name := name;
      this.description := description;
      businessModels := [];
      mandatoryFields := [];
      optionalFields := [];
    }

    method SetName(name: string) returns (r: DataBundle)
      modifies this
      ensures r == this && this.name == name && description == old(description)
      ensures businessModels == old(businessModels) && mandatoryFields == old(mandatoryFields) && optionalFields == old(optionalFields)
    {
      this.name := name;
      r := this;
    }

    method SetDescription(description: string) returns (r: DataBundle)
      modifies this
      ensures r == this && this.description == description && name == old(name)
      ensures businessModels == old(businessModels) && mandatoryFields == old(mandatoryFields) && optionalFields == old(optionalFields)
    {
      this.description := description;
      r := this;
    }

    function IsBusinessModelPresent(name: string): bool
      reads this
    {
      HasKey(businessModels, name)
    }

    /** Every field of the model, mandatory ones in one map and the rest in the other. */
    method AddBusinessModel(model: BusinessModel)
      modifies this
      ensures businessModels == Put(old(businessModels), model.name, model)
      ensures mandatoryFields == Put(old(mandatoryFields), model.name, old(Split(Values(model.fields), true, false)))
      ensures optionalFields == Put(old(optionalFields), model.name, old(Split(Values(model.fields), false, false)))
      ensures name == old(name) && description == old(description)
    {
      var mf, of := SplitFields(Values(model.fields), false);
      Record(model, mf, of);
    }

    /** The three assignments both adders end with. */
    method Record(model: BusinessModel, mf: Keyed, of: Keyed)
      modifies this
      ensures businessModels == Put(old(businessModels), model.name, model)
      ensures mandatoryFields == Put(old(mandatoryFields), model.name, mf)
      ensures optionalFields == Put(old(optionalFields), model.name, of)
      ensures name == old(name) && description == old(description)
    {
      businessModels := Put(businessModels, model.name, model);
      mandatoryFields := Put(mandatoryFields, model.name, mf);
      optionalFields := Put(optionalFields, model.name, of);
    }

    /**
     * addFields: the requested mandatory then optional fields are checked in order and the
     * first bad one throws, before anything is stored; with both lists empty the model's
     * unmanaged fields are taken, split by their mandatory flag.
     */
    method AddFields(model: BusinessModel, mandatory: seq<Desired> := [], optional: seq<Desired> := []) returns (r: Outcome)
      modifies this
      ensures Recorded(old(Selection(model.fields, model.name, DesiredNames(mandatory), DesiredNames(optional))), r, old(model.name), model,
        old(businessModels), old(mandatoryFields), old(optionalFields), businessModels, mandatoryFields, optionalFields)
      ensures name == old(name) && description == old(description)
    {
      var chosen := Choose(model, mandatory, optional);
      if chosen.Failure? {
        return Fail(chosen.error);
      }
      Record(model, chosen.value.0, chosen.value.1);
      r := Done;
    }

    /** The mandatory map of a model, `[]` for a model never added. */
    function GetBusinessModelMandatoryFields(name: string): (r: Keyed)
      reads this
      ensures !HasKey(mandatoryFields, name) ==> r == []
      ensures HasKey(mandatoryFields, name) ==> (name, r) in mandatoryFields
    {
      Get(mandatoryFields, name).GetOr([])
    }

    /** The optional map of a model, `[]` for a model never added. */
    function GetBusinessModelOptionalFields(name: string): (r: Keyed)
      reads this
      ensures !HasKey(optionalFields, name) ==> r == []
      ensures HasKey(optionalFields, name) ==> (name, r) in optionalFields
    {
      Get(optionalFields, name).GetOr([])
    }
  }

  /** The mandatory list is accepted iff every name in it is a field of the model. */
  lemma {:induction false} PickMandatoryAccepts(fields: Keyed, model: string, names: seq<string>, acc: Keyed)
    ensures PickMandatory(fields, model, names, acc).Success? <==> forall n :: n in names ==> HasKey(fields, n)
    decreases |names|
  {
    if names != [] {
      var g := Get(fields, names[0]);
      assert forall n :: n in names <==> n == names[0] || n in names[1..];
      if g.Some? {
        PickMandatoryAccepts(fields, model, names[1..], Put(acc, g.value.name, g.value));
      } else {
        assert !HasKey(fields, names[0]);
      }
    }
  }

  /** No field ends up both mandatory and optional when the lists are given explicitly. */
  lemma {:induction false} PickOptionalDisjoint(fields: Keyed, model: string, names: seq<string>, mandatory: Keyed, acc: Keyed)
    requires forall k :: HasKey(acc, k) ==> !HasKey(mandatory, k)
    requires PickOptional(fields, model, names, mandatory, acc).Success?
    ensures forall k :: HasKey(PickOptional(fields, model, names, mandatory, acc).value, k) ==> !HasKey(mandatory, k)
    decreases |names|
  {
    if names != [] {
      var f := Get(fields, names[0]).value;
      PutKeepsKeys(acc, f.name, f);
      PickOptionalDisjoint(fields, model, names[1..], mandatory, Put(acc, f.name, f));
    }
  }

  /** A non-empty request that is accepted yields a non-empty map, so the fill only happens when both lists are empty. */
  lemma {:induction false} PickMandatoryNonEmpty(fields: Keyed, model: string, names: seq<string>, acc: Keyed)
    requires PickMandatory(fields, model, names, acc).Success?
    requires names != [] || acc != []
    ensures PickMandatory(fields, model, names, acc).value != []
    decreases |names|
  {
    if names != [] {
      var f := Get(fields, names[0]).value;
      PickMandatoryNonEmpty(fields, model, names[1..], Put(acc, f.name, f));
    }
  }

  /** The same for the optional list. */
  lemma {:induction false} PickOptionalNonEmpty(fields: Keyed, model: string, names: seq<string>, mandatory: Keyed, acc: Keyed)
    requires PickOptional(fields, model, names, mandatory, acc).Success?
    requires names != [] || acc != []
    ensures PickOptional(fields, model, names, mandatory, acc).value != []
    decreases |names|
  {
    if names != [] {
      var f := Get(fields, names[0]).value;
      PickOptionalNonEmpty(fields, model, names[1..], mandatory, Put(acc, f.name, f));
    }
  }

  /**
   * Split keeps exactly the fields with the wanted flags: every key names such a field
   * stored under its name, and every such field's name is a key.
   */
  lemma {:induction false} SplitExactly(fs: seq<Field>, mandatory: bool, onlyUnmanaged: bool)
    ensures forall k, f :: (k, f) in Split(fs, mandatory, onlyUnmanaged) ==>
      f in fs && f.name == k && f.mandatory == mandatory && (!onlyUnmanaged || !f.managed)
    ensures forall f :: f in fs && f.mandatory == mandatory && (!onlyUnmanaged || !f.managed) ==>
      HasKey(Split(fs, mandatory, onlyUnmanaged), f.name)
    decreases |fs|
  {
    if fs != [] {
      var init := fs[..|fs| - 1];
      var last := fs[|fs| - 1];
      SplitExactly(init, mandatory, onlyUnmanaged);
      assert fs == init + [last];
      var prev := Split(init, mandatory, onlyUnmanaged);
      if last.mandatory == mandatory && (!onlyUnmanaged || !last.managed) {
        PutEntries(prev, last.name, last);
        PutKeepsKeys(prev, last.name, last);
      }
    }
  }
}
