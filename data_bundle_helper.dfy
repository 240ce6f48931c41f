/**
 * DataBundleHelper: which fields of a business model go into a data bundle, at which level
 * of details and as plain or event data, and the copy of a bundle into a new one of another
 * class. Every add* operation is a loop that builds one Data per selected field and adds it
 * to the bundle; it is modelled as the list of items the loop works through (StoreEach),
 * each item planned by a function (PlanOf), so that what the bundle holds afterwards reads
 * off the plan.
 */
module DataBundleHelpers {
  import opened Wrappers
  import opened PhpValues
  import opened OrderedMap
  import opened FieldHelper
  import opened Model
  import opened Bundles
  import opened DataModel

  /**
   * The state of a built Data, with the names of its model and field at the time it was
   * planned: the keys it goes in under.
   */
  datatype DataView = DataView(model: BusinessModel, field: Field, details: string, variant: Variant,
                               modelName: string, fieldName: string)

  predicate Shows(d: Data, v: DataView)
    reads d
  {
    d.businessModel == v.model && d.field == v.field && d.details == v.details && d.variant == v.variant
  }

  /**
   * One Data the loop builds and adds: its model, the requested field, the details
   * mapDetails chose or the error it threw, and the mandatory flag of an EventData, None
   * for a plain Data.
   */
  datatype Item = Item(model: BusinessModel, req: Requested, details: Result<string>, mandatory: Option<bool>)

  function FieldsOf(m: BusinessModel): set<Field>
    reads m`fields
  {
    set p | p in m.fields :: p.1
  }

  /** The fields an item's plan reads: the requested one and the model's. */
  function ItemFields(it: Item): set<Field>
    reads it.model`fields
  {
    (if it.req.ByField? then {it.req.field} else {}) + FieldsOf(it.model)
  }

  function Models(items: seq<Item>): (r: set<BusinessModel>)
    ensures forall j :: 0 <= j < |items| ==> items[j].model in r
  {
    if items == [] then {} else Models(items[..|items| - 1]) + {items[|items| - 1].model}
  }

  /** The fields the plans of the items read. */
  function Footprints(items: seq<Item>): (r: set<Field>)
    reads Models(items)`fields
    ensures forall j :: 0 <= j < |items| ==> ItemFields(items[j]) <= r
  {
    if items == [] then {}
    else
      var n := |items| - 1;
      Footprints(items[..n]) + ItemFields(items[n])
  }

  /** What `new Data` or `new EventData` builds from an item whose details were mapped. */
  function Built(it: Item): (r: Result<DataView>)
    requires it.details.Success?
    reads it.model, ItemFields(it)
    ensures r.Success? ==> r.value.model == it.model && r.value.field in FieldsOf(it.model)
  {
    var f := Resolve(it.model, it.req, it.details.value);
    if f.Failure? then Failure(f.error)
    else Success(DataView(it.model, f.value, it.details.value,
                          if it.mandatory.Some? then EventData(it.mandatory.value) else PlainData,
                          it.model.name, f.value.name))
  }

  /** A field of the model as it was looked up: the object, its name and its mandatory flag. */
  datatype Found = Found(field: Field, name: string, mandatory: bool)

  /** BusinessModel::getField on the model's list of fields. */
  function Fetch(fields: seq<(string, Field)>, name: string): (r: Field?)
    ensures r != null <==> HasKey(fields, name)
    ensures r != null ==> (name, r) in fields
  {
    var o := Get(fields, name);
    if o.Some? then o.value else null
  }

  function Snapshot(f: Field?): (r: Option<Found>)
    reads (if f == null then {} else {f})`name, (if f == null then {} else {f})`mandatory
    ensures r.Some? <==> f != null
  {
    if f == null then None else Some(Found(f, f.name, f.mandatory))
  }

  /**
   * What the constructors of an item's data find in its model: the model's name, the
   * requested name (None for an argument that is neither a Field nor a string), the field
   * of that name, and the field of that field's own name, which an event bundle's
   * rebuilding looks up again.
   */
  datatype Look = Look(modelName: string, reqName: Option<string>, first: Option<Found>, second: Option<Found>)

  function LookUp(it: Item): Look
    reads it.model`name, it.model`fields, ItemFields(it)`name, ItemFields(it)`mandatory
  {
    var name := if it.req.OtherValue? then None else if it.req.ByField? then Some(it.req.field.name) else Some(it.req.name);
    var first := if name.None? then null else Fetch(it.model.fields, name.value);
    var second := if first == null then null else Fetch(it.model.fields, first.name);
    Look(it.model.name, name, Snapshot(first), Snapshot(second))
  }

  /** Data::validate on what was looked up. */
  function Validated(modelName: string, name: Option<string>, found: Option<Found>, details: string): Result<Found>
  {
    if name.None? then Failure(Error(InvalidArgument, NotFieldOrString))
    else if found.None? then Failure(Error(InvalidArgument, UndefinedFieldMessage(name.value, modelName)))
    else if !IsDetails(details) then Failure(Error(InvalidArgument, InvalidDetailsMessage(details)))
    else Success(found.value)
  }

  /**
   * What the bundle ends up holding for an item, or the error that stops the loop there:
   * mapDetails' error, then the Data constructor's; an event bundle rebuilds a plain Data
   * as an EventData of basic details, mandatory as its field is.
   */
  function PlanFrom(kind: BundleKind, it: Item, look: Look): Result<DataView>
  {
    if it.details.Failure? then Failure(it.details.error)
    else
      var b := Validated(look.modelName, look.reqName, look.first, it.details.value);
      var v := if it.mandatory.Some? then EventData(it.mandatory.value) else PlainData;
      if b.Failure? then Failure(b.error)
      else if !kind.EventBundle? || v.EventData? then
        Success(DataView(it.model, b.value.field, it.details.value, v, look.modelName, b.value.name))
      else
        var w := Validated(look.modelName, Some(b.value.name), look.second, BASIC);
        if w.Failure? then Failure(w.error)
        else Success(DataView(it.model, w.value.field, BASIC, EventData(b.value.mandatory), look.modelName, w.value.name))
  }

  function PlanOf(kind: BundleKind, it: Item): Result<DataView>
    reads it.model`name, it.model`fields, ItemFields(it)`name, ItemFields(it)`mandatory
  {
    PlanFrom(kind, it, LookUp(it))
  }

  /** What each item's constructors find, in order. */
  function Looks(items: seq<Item>): (r: seq<Look>)
    reads Models(items)`name, Models(items)`fields, Footprints(items)`name, Footprints(items)`mandatory
    ensures |r| == |items| && forall j :: 0 <= j < |items| ==> r[j] == LookUp(items[j])
  {
    if items == [] then []
    else
      var n := |items| - 1;
      Looks(items[..n]) + [LookUp(items[n])]
  }

  /** The plan of each item from what was looked up for it. */
  function PlansFrom(kind: BundleKind, items: seq<Item>, looks: seq<Look>): (r: seq<Result<DataView>>)
    requires |looks| == |items|
    ensures |r| == |items| && forall j :: 0 <= j < |items| ==> r[j] == PlanFrom(kind, items[j], looks[j])
  {
    if items == [] then []
    else
      var n := |items| - 1;
      PlansFrom(kind, items[..n], looks[..n]) + [PlanFrom(kind, items[n], looks[n])]
  }

  /** The plan of each item, in order. */
  function Plans(kind: BundleKind, items: seq<Item>): (r: seq<Result<DataView>>)
    reads Models(items)`name, Models(items)`fields, Footprints(items)`name, Footprints(items)`mandatory
    ensures |r| == |items| && forall j :: 0 <= j < |items| ==> r[j] == PlanOf(kind, items[j])
  {
    PlansFrom(kind, items, Looks(items))
  }

  /** A stored data with the model and field keys it went in under. */
  type Stored = (ArrayKey, ArrayKey, Data)

  function StoredData(stored: seq<Stored>): (r: set<Data>)
    ensures forall j :: 0 <= j < |stored| ==> stored[j].2 in r
  {
    if stored == [] then {} else StoredData(stored[..|stored| - 1]) + {stored[|stored| - 1].2}
  }

  /** The plan succeeded, and the stored data and its keys are the plan's. */
  predicate Placed(p: Result<DataView>, e: Stored)
    reads e.2
  {
    p.Success? && Shows(e.2, p.value) && e.0 == KeyOf(p.value.modelName) && e.1 == KeyOf(p.value.fieldName)
  }

  /** Each stored data is placed as its plan says, in order. */
  predicate AllPlaced(plans: seq<Result<DataView>>, stored: seq<Stored>)
    reads StoredData(stored)
  {
    |stored| <= |plans| && forall j :: 0 <= j < |stored| ==> Placed(plans[j], stored[j])
  }

  lemma AllPlacedExtends(plans: seq<Result<DataView>>, stored: seq<Stored>, e: Stored)
    requires AllPlaced(plans, stored) && |stored| < |plans| && Placed(plans[|stored|], e)
    ensures AllPlaced(plans, stored + [e])
  {
  }

  /** The stored data follow the plans, up to the first plan that fails, whose error is the outcome's. */
  predicate Follows(plans: seq<Result<DataView>>, r: Outcome, stored: seq<Stored>)
    reads StoredData(stored)
  {
    && AllPlaced(plans, stored)
    && (r.Done? <==> |stored| == |plans|)
    && (r.Fail? ==> plans[|stored|] == Failure(r.error))
  }

  /** The contents once each stored data has been put under its keys, in order. */
  function Filled(c: Contents, stored: seq<Stored>): Contents
  {
    if stored == [] then c
    else
      var e := stored[|stored| - 1];
      PutIn(Filled(c, stored[..|stored| - 1]), e.0, e.1, e.2)
  }

  lemma FilledSnoc(c: Contents, stored: seq<Stored>, e: Stored)
    ensures Filled(c, stored + [e]) == PutIn(Filled(c, stored), e.0, e.1, e.2)
  {
    assert (stored + [e])[..|stored|] == stored;
  }

  /** `new Data` or `new EventData` for an item whose details were mapped. */
  method Make(it: Item) returns (made: Result<Data>)
    requires it.details.Success?
    ensures made.Failure? <==> Built(it).Failure?
    ensures made.Failure? ==> made.error == Built(it).error
    ensures made.Success? ==> fresh(made.value) && Shows(made.value, Built(it).value)
  {
    if it.mandatory.Some? {
      made := Data.NewEventData(it.model, it.req, it.mandatory.value, it.details.value);
    } else {
      made := Data.New(it.model, it.req, it.details.value);
    }
  }

  /** One pass of the loop: build the item's Data and add it, as planned. */
  method StoreItem(bundle: DataBundle, it: Item, ghost look: Look) returns (r: Outcome, ghost e: Option<Stored>)
    requires look == LookUp(it)
    modifies bundle`data
    ensures r.Done? <==> e.Some?
    ensures r.Fail? ==> PlanFrom(bundle.kind, it, look) == Failure(r.error) && bundle.data == old(bundle.data)
    ensures e.Some? ==> fresh(e.value.2) && Placed(PlanFrom(bundle.kind, it, look), e.value)
    ensures e.Some? ==> bundle.data == PutIn(old(bundle.data), e.value.0, e.value.1, e.value.2)
  {
    if it.details.Failure? {
      return Fail(it.details.error), None;
    }
    var made := Make(it);
    if made.Failure? {
      return Fail(made.error), None;
    }
    ghost var w: Data?;
    r, w := bundle.Add(made.value);
    if r.Done? {
      ghost var d: Data := w;
      e := Some((KeyOf(d.businessModel.name), KeyOf(d.field.name), d));
    } else {
      e := None;
    }
  }

  /**
   * The loop: each item in turn, stopping at the first that throws; `looks` are what the
   * items' constructors find in their models, which the loop does not change.
   */
  method StoreEach(bundle: DataBundle, items: seq<Item>, ghost looks: seq<Look>) returns (r: Outcome, ghost stored: seq<Stored>)
    requires |looks| == |items| && forall j :: 0 <= j < |items| ==> looks[j] == LookUp(items[j])
    modifies bundle`data
    ensures Follows(PlansFrom(bundle.kind, items, looks), r, stored)
    ensures forall e :: e in stored ==> fresh(e.2)
    ensures bundle.data == Filled(old(bundle.data), stored)
  {
    ghost var plans := PlansFrom(bundle.kind, items, looks);
    r, stored := Done, [];
    var i := 0;
    while i < |items|
      invariant 0 <= i <= |items| && |stored| == i
      invariant AllPlaced(plans, stored)
      invariant forall e :: e in stored ==> fresh(e.2)
      invariant bundle.data == Filled(old(bundle.data), stored)
    {
      LookUpKept(items[i]);
      var s;
      ghost var e;
      s, e := StoreNext(bundle, items[i], looks[i], plans, stored);
      if s.Fail? {
        return s, stored;
      }
      FilledSnoc(old(bundle.data), stored, e.value);
      stored := stored + [e.value];
      i := i + 1;
    }
  }

  /** One turn of the loop: the next item stored as its plan says, or its plan's error. */
  method StoreNext(bundle: DataBundle, it: Item, ghost look: Look, ghost plans: seq<Result<DataView>>, ghost stored: seq<Stored>)
    returns (r: Outcome, ghost e: Option<Stored>)
    requires look == LookUp(it) && AllPlaced(plans, stored) && |stored| < |plans|
    requires plans[|stored|] == PlanFrom(bundle.kind, it, look)
    modifies bundle`data
    ensures r.Done? <==> e.Some?
    ensures r.Fail? ==> plans[|stored|] == Failure(r.error) && bundle.data == old(bundle.data)
    ensures e.Some? ==> fresh(e.value.2) && AllPlaced(plans, stored + [e.value])
    ensures e.Some? ==> bundle.data == PutIn(old(bundle.data), e.value.0, e.value.1, e.value.2)
  {
    r, e := StoreItem(bundle, it, look);
    if e.Some? {
      AllPlacedExtends(plans, stored, e.value);
    }
  }

  /** What an item looks up does not change while its model and fields stay as they were. */
  twostate lemma LookUpKept(it: Item)
    requires unchanged(it.model) && unchanged(old(ItemFields(it)))
    ensures LookUp(it) == old(LookUp(it))
  {
  }

  // ---- Which fields are added ----

  /** The field filters of the add* operations. */
  datatype Keep =
    | Every
    | Unmanaged
    | Attributes(modelNames: seq<string>, includeManaged: bool)
    | Except(excluded: seq<string>, dropManaged: bool)

  predicate Keeps(k: Keep, f: Field)
    reads f
  {
    match k
    case Every => true
    case Unmanaged => !f.managed
    case Attributes(names, includeManaged) => !IsBusinessModel(f.Attrs(), names) && (includeManaged || !f.managed)
    case Except(excluded, dropManaged) => !(dropManaged && f.managed) && f.name !in excluded
  }

  function Kept(fs: seq<Field>, k: Keep): (r: seq<Field>)
    reads fs
    ensures forall f :: f in r ==> f in fs
  {
    if fs == [] then []
    else Kept(fs[..|fs| - 1], k) + (if Keeps(k, fs[|fs| - 1]) then [fs[|fs| - 1]] else [])
  }

  lemma {:induction false} KeptExactly(fs: seq<Field>, k: Keep)
    ensures forall f :: f in Kept(fs, k) <==> f in fs && Keeps(k, f)
    ensures |Kept(fs, k)| <= |fs|
    decreases |fs|
  {
    if fs != [] {
      var init := fs[..|fs| - 1];
      KeptExactly(init, k);
      assert fs == init + [fs[|fs| - 1]];
    }
  }

  /** The names `isFieldInList` compares a field's name with: a Field's name, or the string itself. */
  function ExcludedNames(excludes: seq<Requested>): (r: seq<string>)
    requires forall q :: q in excludes ==> !q.OtherValue?
    reads set q | q in excludes && q.ByField? :: q.field
    ensures |r| == |excludes|
    ensures forall i :: 0 <= i < |excludes| ==>
              r[i] == if excludes[i].ByField? then excludes[i].field.name else excludes[i].name
  {
    if excludes == [] then []
    else
      var q := excludes[|excludes| - 1];
      ExcludedNames(excludes[..|excludes| - 1]) + [if q.ByField? then q.field.name else q.name]
  }

  /** DataBundleHelper::isFieldInList: stops at the first entry of the same name. */
  method IsFieldInList(field: Field, excludes: seq<Requested>) returns (r: bool)
    requires forall q :: q in excludes ==> !q.OtherValue?
    ensures r <==> field.name in ExcludedNames(excludes)
  {
    var i := 0;
    while i < |excludes|
      invariant 0 <= i <= |excludes|
      invariant field.name !in ExcludedNames(excludes)[..i]
    {
      var q := excludes[i];
      assert ExcludedNames(excludes)[..i + 1] == ExcludedNames(excludes)[..i] + [ExcludedNames(excludes)[i]];
      if q.ByField? {
        if field.name == q.field.name {
          return true;
        }
      } else if field.name == q.name {
        return true;
      }
      i := i + 1;
    }
    assert ExcludedNames(excludes)[..i] == ExcludedNames(excludes);
    return false;
  }

  // ---- The contents copied by the create*FromExisting operations ----

  /** Every data of the contents, model by model, field by field. */
  function Flat(c: Contents): seq<Data>
  {
    if c == [] then [] else Flat(c[..|c| - 1]) + Values(c[|c| - 1].1)
  }

  /** Each entry of each model's list shows up in the flattened contents. */
  lemma {:induction false} FlatHoldsEntries(c: Contents, i: nat, j: nat)
    requires i < |c| && j < |c[i].1|
    ensures c[i].1[j].1 in Flat(c)
    decreases |c|
  {
    var n := |c| - 1;
    assert Flat(c) == Flat(c[..n]) + Values(c[n].1);
    if i < n {
      FlatHoldsEntries(c[..n], i, j);
    } else {
      assert Values(c[n].1)[j] == c[i].1[j].1;
    }
  }

  lemma EntryFlat(c: Contents, k1: ArrayKey, k2: ArrayKey)
    requires Entry(c, k1, k2).Some?
    ensures Entry(c, k1, k2).value in Flat(c)
  {
    var inner := Get(c, k1).value;
    var i :| 0 <= i < |c| && c[i] == (k1, inner);
    var v := Get(inner, k2).value;
    var j :| 0 <= j < |inner| && inner[j] == (k2, v);
    FlatHoldsEntries(c, i, j);
  }

  /** copyData's item for one data: a plain Data of the same model, field and details. */
  function CopyItems(ds: seq<Data>): (r: seq<Item>)
    reads ds
    ensures |r| == |ds|
    ensures forall i :: 0 <= i < |ds| ==>
              r[i] == Item(ds[i].businessModel, ByField(ds[i].field), Success(ds[i].details), None)
  {
    if ds == [] then []
    else
      var d := ds[|ds| - 1];
      CopyItems(ds[..|ds| - 1]) + [Item(d.businessModel, ByField(d.field), Success(d.details), None)]
  }

  /**
   * Putting data again under keys the contents already hold changes no key and no count:
   * re-adding a model overwrites its entries.
   */
  lemma {:induction false} RefillKeepsKeys(c: Contents, stored: seq<Stored>)
    requires forall e :: e in stored ==> Entry(c, e.0, e.1).Some?
    ensures Keys(Filled(c, stored)) == Keys(c)
    ensures forall k :: Keys(Inner(Filled(c, stored), k)) == Keys(Inner(c, k))
    decreases |stored|
  {
    if stored != [] {
      var n := |stored| - 1;
      var init, e := stored[..n], stored[n];
      RefillKeepsKeys(c, init);
      var a := Filled(c, init);
      assert Entry(c, e.0, e.1).Some?;
      assert HasKey(a, e.0);
      assert e.1 in Keys(Inner(a, e.0)) by {
        assert Keys(Inner(a, e.0)) == Keys(Inner(c, e.0));
      }
      var r := PutIn(a, e.0, e.1, e.2);
      forall k ensures Keys(Inner(r, k)) == Keys(Inner(a, k)) {
        if k == e.0 {
          assert Inner(r, k) == Put(Inner(a, k), e.1, e.2);
        } else {
          assert Get(r, k) == Get(a, k);
        }
      }
    }
  }

  // ---- The helper ----

  class DataBundleHelper {
    const businessBundle: BusinessBundle
    /** Data::ATTRIBUTES, the details mapDetails gives a native field; the Data class does not declare it. */
    const attributes: string

    constructor (businessBundle: BusinessBundle, attributes: string)
      ensures this.businessBundle == businessBundle && this.attributes == attributes
    {
      this.businessBundle := businessBundle;
      this.attributes := attributes;
    }

    /**
     * mapDetails: a field named by a string must be one of the model's; a native field
     * gets the attributes details, any other the details asked for.
     */
    function MapDetails(model: BusinessModel, req: Requested, fieldDetails: string): (r: Result<string>)
      requires !req.OtherValue?
      reads model, FieldsOf(model), if req.ByField? then {req.field} else {}
      ensures req.ByName? && model.GetField(req.name) == null <==> r.Failure?
      ensures r.Failure? ==> r.error == Error(InvalidArgument, UndefinedFieldMessage(req.name, model.name))
      ensures r.Success? ==>
        var f := if req.ByField? then req.field else model.GetField(req.name);
        f != null && r.value == if IsNativeType(f.Attrs()) then attributes else fieldDetails
    {
      var f := if req.ByField? then req.field else model.GetField(req.name);
      if f == null then Failure(Error(InvalidArgument, UndefinedFieldMessage(req.name, model.name)))
      else if IsNativeType(f.Attrs()) then Success(attributes)
      else Success(fieldDetails)
    }

    /** One item per requested field, in order. */
    function RequestItems(model: BusinessModel, reqs: seq<Requested>, fieldDetails: string, mandatory: Option<bool>)
      : (r: seq<Item>)
      requires forall q :: q in reqs ==> !q.OtherValue?
      reads model, FieldsOf(model), set q | q in reqs && q.ByField? :: q.field
      ensures |r| == |reqs|
      ensures forall i :: 0 <= i < |reqs| ==>
                r[i] == Item(model, reqs[i], MapDetails(model, reqs[i], fieldDetails), mandatory)
    {
      if reqs == [] then []
      else
        var q := reqs[|reqs| - 1];
        RequestItems(model, reqs[..|reqs| - 1], fieldDetails, mandatory)
          + [Item(model, q, MapDetails(model, q, fieldDetails), mandatory)]
    }

    /** One item per field, in order; an EventData takes its field's mandatory flag when `perField`. */
    function FieldItems(model: BusinessModel, fs: seq<Field>, fieldDetails: string, perField: bool): (r: seq<Item>)
      reads model, FieldsOf(model), fs
      ensures |r| == |fs|
      ensures forall i :: 0 <= i < |fs| ==>
                r[i] == Item(model, ByField(fs[i]), MapDetails(model, ByField(fs[i]), fieldDetails),
                             if perField then Some(fs[i].mandatory) else None)
    {
      if fs == [] then []
      else
        var f := fs[|fs| - 1];
        FieldItems(model, fs[..|fs| - 1], fieldDetails, perField)
          + [Item(model, ByField(f), MapDetails(model, ByField(f), fieldDetails), if perField then Some(f.mandatory) else None)]
    }

    /** addFieldsAsMandatory: each requested field as an EventData that is mandatory. */
    method AddFieldsAsMandatory(dataBundle: DataBundle, model: BusinessModel, fields: seq<Requested>,
                                fieldDetails: string := REFERENCE)
      returns (r: Outcome, ghost stored: seq<Stored>)
      requires dataBundle.kind.EventBundle?
      requires forall q :: q in fields ==> !q.OtherValue?
      modifies dataBundle`data
      ensures Follows(old(Plans(dataBundle.kind, RequestItems(model, fields, fieldDetails, Some(true)))), r, stored)
      ensures dataBundle.data == Filled(old(dataBundle.data), stored)
    {
      var items := RequestItems(model, fields, fieldDetails, Some(true));
      r, stored := StoreEach(dataBundle, items, Looks(items));
    }

    /** addFieldsAsOptional: each requested field as an EventData that is optional. */
    method AddFieldsAsOptional(dataBundle: DataBundle, model: BusinessModel, fields: seq<Requested>,
                               fieldDetails: string := REFERENCE)
      returns (r: Outcome, ghost stored: seq<Stored>)
      requires dataBundle.kind.EventBundle?
      requires forall q :: q in fields ==> !q.OtherValue?
      modifies dataBundle`data
      ensures Follows(old(Plans(dataBundle.kind, RequestItems(model, fields, fieldDetails, Some(false)))), r, stored)
      ensures dataBundle.data == Filled(old(dataBundle.data), stored)
    {
      var items := RequestItems(model, fields, fieldDetails, Some(false));
      r, stored := StoreEach(dataBundle, items, Looks(items));
    }

    /** addFields: each requested field as a plain Data. */
    method AddFields(dataBundle: DataBundle, model: BusinessModel, fields: seq<Requested>,
                     fieldDetails: string := REFERENCE)
      returns (r: Outcome, ghost stored: seq<Stored>)
      requires forall q :: q in fields ==> !q.OtherValue?
      modifies dataBundle`data
      ensures Follows(old(Plans(dataBundle.kind, RequestItems(model, fields, fieldDetails, None))), r, stored)
      ensures dataBundle.data == Filled(old(dataBundle.data), stored)
    {
      var items := RequestItems(model, fields, fieldDetails, None);
      r, stored := StoreEach(dataBundle, items, Looks(items));
    }

    /** The items of addBusinessModel: the unmanaged fields for an event bundle, every field otherwise. */
    function ModelItems(model: BusinessModel, kind: BundleKind, fieldDetails: string): seq<Item>
      reads model, FieldsOf(model), Values(model.fields), Kept(Values(model.fields), Unmanaged)
    {
      var fs := Values(model.fields);
      if kind.EventBundle? then FieldItems(model, Kept(fs, Unmanaged), fieldDetails, true)
      else FieldItems(model, fs, fieldDetails, false)
    }

    /**
     * addBusinessModel, with the event bundle's private variant: an event bundle gets the
     * unmanaged fields as EventData mandatory as each field is, any other bundle every field
     * as plain Data.
     */
    method AddBusinessModel(dataBundle: DataBundle, model: BusinessModel, fieldDetails: string := REFERENCE)
      returns (r: Outcome, ghost stored: seq<Stored>)
      modifies dataBundle`data
      ensures Follows(old(Plans(dataBundle.kind, ModelItems(model, dataBundle.kind, fieldDetails))), r, stored)
      ensures dataBundle.data == Filled(old(dataBundle.data), stored)
    {
      var items := ModelItems(model, dataBundle.kind, fieldDetails);
      r, stored := StoreEach(dataBundle, items, Looks(items));
    }

    /** The items of addBusinessModelAttributes. */
    function AttributeItems(model: BusinessModel, kind: BundleKind, includeManaged: bool): seq<Item>
      reads model, FieldsOf(model), Values(model.fields), businessBundle
      reads Kept(Values(model.fields), Attributes(Keys(businessBundle.businessModels), false))
      reads Kept(Values(model.fields), Attributes(Keys(businessBundle.businessModels), includeManaged))
    {
      var fs, names := Values(model.fields), Keys(businessBundle.businessModels);
      if kind.EventBundle? then FieldItems(model, Kept(fs, Attributes(names, false)), REFERENCE, true)
      else FieldItems(model, Kept(fs, Attributes(names, includeManaged)), REFERENCE, false)
    }

    /**
     * addBusinessModelAttributes: the fields whose type names no model of the helper's
     * bundle, at reference details; managed ones only when asked for, and never for an
     * event bundle, which gets EventData mandatory as each field is.
     */
    method AddBusinessModelAttributes(dataBundle: DataBundle, model: BusinessModel, includeManaged: bool := false)
      returns (r: Outcome, ghost stored: seq<Stored>)
      modifies dataBundle`data
      ensures Follows(old(Plans(dataBundle.kind, AttributeItems(model, dataBundle.kind, includeManaged))), r, stored)
      ensures dataBundle.data == Filled(old(dataBundle.data), stored)
    {
      var items := AttributeItems(model, dataBundle.kind, includeManaged);
      r, stored := StoreEach(dataBundle, items, Looks(items));
    }

    /** The items of addBusinessModelExceptFields. */
    function ExceptItems(model: BusinessModel, kind: BundleKind, excluded: seq<string>, fieldDetails: string): seq<Item>
      reads model, FieldsOf(model), Values(model.fields)
      reads Kept(Values(model.fields), Except(excluded, true)), Kept(Values(model.fields), Except(excluded, false))
    {
      var fs := Values(model.fields);
      if kind.EventBundle? then FieldItems(model, Kept(fs, Except(excluded, true)), fieldDetails, true)
      else FieldItems(model, Kept(fs, Except(excluded, false)), fieldDetails, false)
    }

    /**
     * addBusinessModelExceptFields: the fields isFieldInList does not find among the
     * exclusions; an event bundle also leaves out the managed ones.
     */
    method AddBusinessModelExceptFields(dataBundle: DataBundle, model: BusinessModel, excludeFields: seq<Requested>,
                                        fieldDetails: string := REFERENCE)
      returns (r: Outcome, ghost stored: seq<Stored>)
      requires forall q :: q in excludeFields ==> !q.OtherValue?
      modifies dataBundle`data
      ensures Follows(old(Plans(dataBundle.kind, ExceptItems(model, dataBundle.kind, ExcludedNames(excludeFields), fieldDetails))), r, stored)
      ensures dataBundle.data == Filled(old(dataBundle.data), stored)
    {
      var excluded := ExcludedNames(excludeFields);
      var items := ExceptItems(model, dataBundle.kind, excluded, fieldDetails);
      r, stored := StoreEach(dataBundle, items, Looks(items));
    }

    /**
     * copyData's first step: setAsSimpleStructure or setAsListStructure, as the existing
     * bundle is; the plans of the items it then copies stay as they were.
     */
    method CopyStructure(existing: DataBundle, target: DataBundle, ghost items: seq<Item>)
      modifies target`structure
      ensures target.structure == existing.structure
      ensures Plans(target.kind, items) == old(Plans(target.kind, items))
    {
      if existing.IsSimpleStructure() {
        target.structure := Simple;
      } else if existing.IsListStructure() {
        target.structure := ListOf;
      }
    }

    /** copyData: the structure, then every data, model by model, as a plain Data. */
    method CopyData(existing: DataBundle, target: DataBundle) returns (r: Outcome, ghost stored: seq<Stored>)
      requires existing != target
      modifies target`structure, target`data
      ensures target.structure == existing.structure
      ensures Follows(old(Plans(target.kind, CopyItems(Flat(existing.data)))), r, stored)
      ensures forall e :: e in stored ==> fresh(e.2)
      ensures target.data == Filled(old(target.data), stored)
    {
      var items := CopyItems(Flat(existing.data));
      CopyStructure(existing, target, items);
      r, stored := StoreEach(target, items, Looks(items));
    }

    /**
     * The first step of create*DataBundleFromExisting: a new bundle of the given class with
     * the existing one's name and description; the plans of the items then copied stay as
     * they were.
     */
    method NewBundle(kind: BundleKind, existing: DataBundle, ghost items: seq<Item>) returns (b: DataBundle)
      ensures fresh(b) && b.kind == kind && b.structure == Simple && b.data == []
      ensures b.name == existing.name && b.description == existing.description
      ensures Looks(items) == old(Looks(items))
    {
      b := new DataBundle(kind, existing.name, existing.description);
    }

    /**
     * The five create*DataBundleFromExisting operations: a new bundle of the given class
     * with the existing one's name and description, then copyData.
     */
    method CreateFromExisting(kind: BundleKind, existing: DataBundle) returns (r: Result<DataBundle>, ghost stored: seq<Stored>)
      requires kind == MessageBundle || kind == ReturnedBundle || kind == ContextBundle
               || kind == InternalBundle(DEFAULT_CLIENT) || kind == ExternalBundle(DEFAULT_CLIENT)
      ensures Follows(old(Plans(kind, CopyItems(Flat(existing.data)))), if r.Success? then Done else Fail(r.error), stored)
      ensures r.Success? ==> fresh(r.value) && r.value.kind == kind
      ensures r.Success? ==> r.value.name == existing.name && r.value.description == existing.description
      ensures r.Success? ==> r.value.structure == existing.structure && r.value.data == Filled([], stored)
    {
      ghost var items := CopyItems(Flat(existing.data));
      var b := NewBundle(kind, existing, items);
      var out;
      out, stored := CopyData(existing, b);
      if out.Fail? {
        return Failure(out.error), stored;
      }
      r := Success(b);
    }

    /** mapDetails throws exactly the error the Data constructor would throw for the same field. */
    lemma MapDetailsFailsLikeData(model: BusinessModel, req: Requested, fieldDetails: string, details: string)
      requires !req.OtherValue?
      requires MapDetails(model, req, fieldDetails).Failure?
      ensures Resolve(model, req, details) == Failure(MapDetails(model, req, fieldDetails).error)
    {
    }
  }
}
