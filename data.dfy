/**
 * The data a business process consumes or produces (src/Model/Data/). A `Data` names one
 * field of one business model at a level of details; its subclasses EventData, ExistingData
 * and InputData add a mandatory flag, a source, or an input type, and are modelled here as
 * one class whose `variant` says which of them an instance is. The concrete bundle classes
 * likewise share one `DataBundle` class whose `kind` holds the subclass and its own state.
 */
module DataModel {
  import opened Wrappers
  import opened PhpValues
  import opened OrderedMap
  import opened Model

  const BASIC := "basic"
  const REFERENCE := "reference"
  const FULL := "full"

  const NEW := "new"
  const UPDATED := "updated"
  const NEW_OR_UPDATED := "newOrUpdated"
  const OBSOLETE := "obsolete"

  const DEFAULT_SOURCE := "default"
  const DEFAULT_CLIENT := "default"

  const NotFieldOrString := "Requested field must be either of type Field or string"

  /** The untyped `$field` argument: a Field, a string, or any other PHP value. */
  datatype Requested = ByField(field: Field) | ByName(name: string) | OtherValue

  /** Which class of the Data family an instance belongs to, with the state it adds. */
  datatype Variant =
    | PlainData
    | EventData(mandatory: bool)
    | ExistingData(source: string)
    | InputData(inputType: string, mandatory: bool)

  predicate IsDetails(details: string)
  {
    details == BASIC || details == REFERENCE || details == FULL
  }

  predicate IsInputType(t: string)
  {
    t == NEW || t == UPDATED || t == NEW_OR_UPDATED || t == OBSOLETE
  }

  function UndefinedFieldMessage(name: string, model: string): string
  {
    "Requested field " + name + " is not defined in BusinessModel " + model
  }

  function InvalidDetailsMessage(details: string): string
  {
    "Invalid details provided: " + details + ". Must be one of: basic, reference or full"
  }

  function InvalidInputTypeMessage(t: string): string
  {
    "Invalid type provided: " + t + ". Must be one of: new, updated, newOrUpdated or obsolete"
  }

  /** The name a requested field is looked up by. */
  function RequestedName(req: Requested): string
    reads if req.ByField? then {req.field} else {}
    requires !req.OtherValue?
  {
    if req.ByField? then req.field.name else req.name
  }

  /**
   * Data::validate: the argument's kind is checked first, then that the model has a field
   * of that name, then the details. The field kept is the model's own, found by name.
   */
  function Resolve(model: BusinessModel, req: Requested, details: string): (r: Result<Field>)
    reads model, if req.ByField? then {req.field} else {}
    ensures r.Success? <==> !req.OtherValue? && model.GetField(RequestedName(req)) != null && IsDetails(details)
    ensures r.Success? ==> (RequestedName(req), r.value) in model.fields
    ensures req.OtherValue? ==> r == Failure(Error(InvalidArgument, NotFieldOrString))
    ensures !req.OtherValue? && model.GetField(RequestedName(req)) == null ==>
      r == Failure(Error(InvalidArgument, UndefinedFieldMessage(RequestedName(req), model.name)))
    ensures !req.OtherValue? && model.GetField(RequestedName(req)) != null && !IsDetails(details) ==>
      r == Failure(Error(InvalidArgument, InvalidDetailsMessage(details)))
  {
    if req.OtherValue? then Failure(Error(InvalidArgument, NotFieldOrString))
    else
      var found := model.GetField(RequestedName(req));
      if found == null then Failure(Error(InvalidArgument, UndefinedFieldMessage(RequestedName(req), model.name)))
      else if !IsDetails(details) then Failure(Error(InvalidArgument, InvalidDetailsMessage(details)))
      else var field: Field := found; Success(field)
  }

  /** InputData's constructor: its own type check comes before everything Data checks. */
  function ResolveInput(t: string, model: BusinessModel, req: Requested, details: string): (r: Result<Field>)
    reads model, if req.ByField? then {req.field} else {}
    ensures !IsInputType(t) ==> r == Failure(Error(InvalidArgument, InvalidInputTypeMessage(t)))
    ensures IsInputType(t) ==> r == Resolve(model, req, details)
  {
    if !IsInputType(t) then Failure(Error(InvalidArgument, InvalidInputTypeMessage(t))) else Resolve(model, req, details)
  }

  class Data {
    const businessModel: BusinessModel
    const field: Field
    const details: string
    var variant: Variant
    /**
     * The name DataNameHelper gives the data through `setName`, a member Data does not
     * declare; None until one is given.
     */
    var name: Option<string>

    constructor Make(businessModel: BusinessModel, field: Field, details: string, variant: Variant)
      ensures this.businessModel == businessModel && this.field == field
      ensures this.details == details && this.variant == variant && name == None
    {
      this.businessModel := businessModel;
      this.field := field;
      this.details := details;
      this.variant := variant;
      name := None;
    }

    /** `new Data($model, $field, $details)`; nothing is built when validation throws. */
    static method New(model: BusinessModel, req: Requested, details: string := BASIC) returns (r: Result<Data>)
      ensures r.Success? <==> Resolve(model, req, details).Success?
      ensures r.Failure? ==> r == Failure(Resolve(model, req, details).error)
      ensures r.Success? ==> fresh(r.value) && r.value.businessModel == model && r.value.field == Resolve(model, req, details).value
      ensures r.Success? ==> r.value.details == details && r.value.variant == PlainData && r.value.name == None
    {
      var f :- Resolve(model, req, details);
      var d := new Data.Make(model, f, details, PlainData);
      return Success(d);
    }

    /** `new EventData($model, $field, $mandatory = true, $details = basic)`. */
    static method NewEventData(model: BusinessModel, req: Requested, mandatory: bool := true, details: string := BASIC)
      returns (r: Result<Data>)
      ensures r.Success? <==> Resolve(model, req, details).Success?
      ensures r.Failure? ==> r == Failure(Resolve(model, req, details).error)
      ensures r.Success? ==> fresh(r.value) && r.value.businessModel == model && r.value.field == Resolve(model, req, details).value
      ensures r.Success? ==> r.value.details == details && r.value.variant == EventData(mandatory) && r.value.name == None
    {
      var f :- Resolve(model, req, details);
      var d := new Data.Make(model, f, details, EventData(mandatory));
      return Success(d);
    }

    /** `new ExistingData($model, $field, $source = 'default', $details = basic)`. */
    static method NewExistingData(model: BusinessModel, req: Requested, source: string := DEFAULT_SOURCE, details: string := BASIC)
      returns (r: Result<Data>)
      ensures r.Success? <==> Resolve(model, req, details).Success?
      ensures r.Failure? ==> r == Failure(Resolve(model, req, details).error)
      ensures r.Success? ==> fresh(r.value) && r.value.businessModel == model && r.value.field == Resolve(model, req, details).value
      ensures r.Success? ==> r.value.details == details && r.value.variant == ExistingData(source) && r.value.name == None
    {
      var f :- Resolve(model, req, details);
      var d := new Data.Make(model, f, details, ExistingData(source));
      return Success(d);
    }

    /** `new InputData($type, $model, $field, $mandatory = true, $details = basic)`. */
    static method NewInputData(t: string, model: BusinessModel, req: Requested, mandatory: bool := true, details: string := BASIC)
      returns (r: Result<Data>)
      ensures r.Success? <==> ResolveInput(t, model, req, details).Success?
      ensures r.Failure? ==> r == Failure(ResolveInput(t, model, req, details).error)
      ensures r.Success? ==> fresh(r.value) && r.value.businessModel == model && r.value.field == ResolveInput(t, model, req, details).value
      ensures r.Success? ==> r.value.details == details && r.value.variant == InputData(t, mandatory) && r.value.name == None
    {
      var f :- ResolveInput(t, model, req, details);
      var d := new Data.Make(model, f, details, InputData(t, mandatory));
      return Success(d);
    }

    /** The identity isSame compares: model name, field name, details. */
    function Key(): (string, string, string)
      reads this, businessModel, field
    {
      (businessModel.name, field.name, details)
    }

    /** Strict comparison of model name, then field name, then details. */
    function IsSame(other: Data): (r: bool)
      reads this, businessModel, field, other, other.businessModel, other.field
      ensures r <==> Key() == other.Key()
    {
      if businessModel.name != other.businessModel.name then false
      else if field.name != other.field.name then false
      else details == other.details
    }

    predicate HasMandatoryFlag()
      reads this
    {
      variant.EventData? || variant.InputData?
    }

    function IsMandatory(): bool
      reads this
      requires HasMandatoryFlag()
    {
      variant.mandatory
    }

    /** EventData/InputData::setMandatory; only that flag changes. */
    method SetMandatory(mandatory: bool) returns (r: Data)
      requires HasMandatoryFlag()
      modifies this
      ensures variant == old(variant).(mandatory := mandatory)
      ensures r == this && HasMandatoryFlag() && IsMandatory() == mandatory
      ensures name == old(name)
    {
      variant := variant.(mandatory := mandatory);
      r := this;
    }

    /** ExistingData::setSource. */
    method SetSource(source: string) returns (r: Data)
      requires variant.ExistingData?
      modifies this
      ensures r == this && variant == ExistingData(source)
      ensures name == old(name)
    {
      variant := ExistingData(source);
      r := this;
    }

    /** InputData::setType: an invalid type throws and leaves the data as it was. */
    method SetType(t: string) returns (r: Result<Data>)
      requires variant.InputData?
      modifies this
      ensures r.Success? <==> IsInputType(t)
      ensures r.Success? ==> r.value == this && variant == old(variant).(inputType := t)
      ensures r.Failure? ==> r.error == Error(InvalidArgument, InvalidInputTypeMessage(t)) && variant == old(variant)
      ensures name == old(name)
    {
      if !IsInputType(t) {
        return Failure(Error(InvalidArgument, InvalidInputTypeMessage(t)));
      }
      variant := variant.(inputType := t);
      r := Success(this);
    }
  }

  /** isSame is an equivalence: it compares the three-part key and nothing else. */
  lemma IsSameEquivalence(a: Data, b: Data, c: Data)
    ensures a.IsSame(a)
    ensures a.IsSame(b) == b.IsSame(a)
    ensures a.IsSame(b) && b.IsSame(c) ==> a.IsSame(c)
  {
  }

  /** Data built from the same model, field and details is the same, whatever its variant. */
  lemma {:induction false} SameRequestIsSame(model: BusinessModel, req: Requested, details: string, a: Data, b: Data)
    requires Resolve(model, req, details).Success?
    requires a.businessModel == model && a.field == Resolve(model, req, details).value && a.details == details
    requires b.businessModel == model && b.field == Resolve(model, req, details).value && b.details == details
    ensures a.IsSame(b)
  {
  }

  // ---------------------------------------------------------------------------------------

  const SIMPLE := "simple"
  const LIST := "list"
  const MAP := "map"

  /**
   * The layout of a bundle. Only setAsSimpleStructure and setAsListStructure write it and
   * it starts simple, so the MAP value the class declares is never held.
   */
  datatype Structure = Simple | ListOf

  function StructureName(s: Structure): string
  {
    match s
    case Simple => SIMPLE
    case ListOf => LIST
  }

  /**
   * The concrete subclass of a bundle with the state it adds. Message, Returned and Context
   * bundles are created by DataBundleHelper but their classes are not part of this model;
   * they are taken to add nothing to DataBundle.
   */
  datatype BundleKind =
    | EventBundle
    | FetchBundle(source: string, query: Option<string>)
    | InternalBundle(dataClient: string)
    | ExternalBundle(apiClient: string)
    | MessageBundle
    | ReturnedBundle
    | ContextBundle

  const DataNamespace := "CodePrimer\\Model\\Data\\"

  /** `get_class($bundle)`. */
  function ClassName(k: BundleKind): string
  {
    DataNamespace + match k
      case EventBundle => "EventDataBundle"
      case FetchBundle(_, _) => "FetchDataBundle"
      case InternalBundle(_) => "InternalDataBundle"
      case ExternalBundle(_) => "ExternalDataBundle"
      case MessageBundle => "MessageDataBundle"
      case ReturnedBundle => "ReturnedDataBundle"
      case ContextBundle => "ContextDataBundle"
  }

  /** The bundle contents, `$data[$modelName][$fieldName]`. */
  type Contents = seq<(ArrayKey, seq<(ArrayKey, Data)>)>

  /** A fetch bundle's addData before it hands over: either rejected, or passed on. */
  datatype Admission = Delegated | Rejected(error: Error)

  const FetchOnlyExisting := "FetchDataBundle only supports ExistingData arguments"

  function WrongSourceMessage(mine: string, theirs: string): string
  {
    "This DataBundle only supports data from the following source: " + mine + ". Received: " + theirs
  }

  /** FetchDataBundle::addData's checks: only ExistingData, and only from the bundle's source. */
  function FetchAdmission(source: string, v: Variant): (r: Admission)
    ensures r.Delegated? <==> v.ExistingData? && v.source == source
    ensures !v.ExistingData? ==> r == Rejected(Error(InvalidArgument, FetchOnlyExisting))
    ensures v.ExistingData? && v.source != source ==> r == Rejected(Error(InvalidArgument, WrongSourceMessage(source, v.source)))
  {
    if !v.ExistingData? then Rejected(Error(InvalidArgument, FetchOnlyExisting))
    else if v.source == source then Delegated
    else Rejected(Error(InvalidArgument, WrongSourceMessage(source, v.source)))
  }

  class DataBundle {
    var name: string
    var description: string
    var structure: Structure
    var data: Contents
    var kind: BundleKind

    /** Every concrete constructor: `parent::__construct($name, $description)` plus the subclass's own state. */
    constructor (kind: BundleKind, name: string := "", description: string := "")
      ensures this.kind == kind && this.name == name && this.description == description
      ensures structure == Simple && data == []
    {
      this.kind := kind;
      this.name := name;
      this.description := description;
      structure := Simple;
      data := [];
    }

    /** `new FetchDataBundle($source = 'default', $name, $description)`; the query starts unset. */
    static method NewFetch(source: string := DEFAULT_SOURCE, name: string := "", description: string := "") returns (b: DataBundle)
      ensures fresh(b) && b.kind == FetchBundle(source, None)
      ensures b.name == name && b.description == description && b.structure == Simple && b.data == []
    {
      b := new DataBundle(FetchBundle(source, None), name, description);
    }

    /** `new InternalDataBundle($name, $description, $dataClient = 'default')`. */
    static method NewInternal(name: string := "", description: string := "", dataClient: string := DEFAULT_CLIENT) returns (b: DataBundle)
      ensures fresh(b) && b.kind == InternalBundle(dataClient)
      ensures b.name == name && b.description == description && b.structure == Simple && b.data == []
    {
      b := new DataBundle(InternalBundle(dataClient), name, description);
    }

    /** `new ExternalDataBundle($name, $description, $apiClient = 'default')`. */
    static method NewExternal(name: string := "", description: string := "", apiClient: string := DEFAULT_CLIENT) returns (b: DataBundle)
      ensures fresh(b) && b.kind == ExternalBundle(apiClient)
      ensures b.name == name && b.description == description && b.structure == Simple && b.data == []
    {
      b := new DataBundle(ExternalBundle(apiClient), name, description);
    }

    method SetName(name: string) returns (r: DataBundle)
      modifies this
      ensures r == this && this.name == name
      ensures description == old(description) && structure == old(structure) && data == old(data) && kind == old(kind)
    {
      this.name := name;
      r := this;
    }

    method SetDescription(description: string) returns (r: DataBundle)
      modifies this
      ensures r == this && this.description == description
      ensures name == old(name) && structure == old(structure) && data == old(data) && kind == old(kind)
    {
      this.description := description;
      r := this;
    }

    function GetStructure(): (r: string)
      reads this
      ensures r == SIMPLE || r == LIST
    {
      StructureName(structure)
    }

    method SetAsSimpleStructure() returns (r: DataBundle)
      modifies this`structure
      ensures r == this && structure == Simple
    {
      structure := Simple;
      r := this;
    }

    method SetAsListStructure() returns (r: DataBundle)
      modifies this`structure
      ensures r == this && structure == ListOf
    {
      structure := ListOf;
      r := this;
    }

    function IsSimpleStructure(): (r: bool)
      reads this
      ensures r <==> GetStructure() == SIMPLE
    {
      structure == Simple
    }

    function IsListStructure(): (r: bool)
      reads this
      ensures r <==> GetStructure() == LIST
      ensures r <==> !IsSimpleStructure()
    {
      structure == ListOf
    }

    /** Never true: no operation stores MAP. */
    function IsMapStructure(): (r: bool)
      reads this
      ensures !r
    {
      GetStructure() == MAP
    }

    /** DataBundle::add, inherited by every subclass but the event bundle. */
    method Store(x: Data)
      modifies this`data
      ensures data == PutIn(old(data), KeyOf(x.businessModel.name), KeyOf(x.field.name), x)
    {
      data := PutIn(data, KeyOf(x.businessModel.name), KeyOf(x.field.name), x);
    }

    /**
     * `add($data)`. An event bundle stores an EventData as given; any other Data is first
     * rebuilt as `new EventData($model, $field, $field->isMandatory())`, which drops its
     * details for basic, and which throws when the model no longer has that field.
     */
    method Add(x: Data) returns (r: Outcome, ghost w: Data?)
      modifies this`data
      ensures r.Done? ==> w != null && var d: Data := w;
        data == PutIn(old(data), KeyOf(d.businessModel.name), KeyOf(d.field.name), d)
      ensures r.Fail? ==> data == old(data)
      ensures !kind.EventBundle? || x.variant.EventData? ==> r == Done && w == x
      ensures kind.EventBundle? && !x.variant.EventData? ==>
        (r.Fail? <==> Resolve(x.businessModel, ByField(x.field), BASIC).Failure?)
      ensures kind.EventBundle? && !x.variant.EventData? && r.Fail? ==>
        r.error == Resolve(x.businessModel, ByField(x.field), BASIC).error
      ensures kind.EventBundle? && !x.variant.EventData? && r.Done? ==> fresh(w) && WrappedEvent(w, x)
    {
      if kind.EventBundle? && !x.variant.EventData? {
        r, w := StoreAsEvent(x);
        return;
      }
      Store(x);
      return Done, x;
    }

    /** An event bundle's add of a Data that is not an EventData: rebuild it, then store it. */
    method StoreAsEvent(x: Data) returns (r: Outcome, ghost w: Data?)
      modifies this`data
      ensures r.Fail? <==> Resolve(x.businessModel, ByField(x.field), BASIC).Failure?
      ensures r.Fail? ==> r.error == Resolve(x.businessModel, ByField(x.field), BASIC).error && data == old(data)
      ensures r.Done? ==> w != null && fresh(w) && WrappedEvent(w, x)
      ensures r.Done? ==> var d: Data := w; data == PutIn(old(data), KeyOf(d.businessModel.name), KeyOf(d.field.name), d)
    {
      var made := Data.NewEventData(x.businessModel, ByField(x.field), x.field.mandatory);
      if made.Failure? {
        return Fail(made.error), null;
      }
      var e := made.value;
      Store(e);
      r, w := Done, e;
    }

    /**
     * FetchDataBundle::addData. The checks are modelled; what passes them goes to
     * `parent::addData`, which DataBundle does not declare, so the bundle is left as it is.
     */
    method AddData(x: Data) returns (r: Admission)
      requires kind.FetchBundle?
      ensures r == FetchAdmission(kind.source, x.variant)
    {
      r := FetchAdmission(kind.source, x.variant);
    }

    function GetSource(): string
      reads this
      requires kind.FetchBundle?
    {
      kind.source
    }

    /** Declared `: string` over a property that starts unset: a TypeError until setQuery. */
    function GetQuery(): (r: Result<string>)
      reads this
      requires kind.FetchBundle?
      ensures r.Success? <==> kind.query.Some?
      ensures r.Success? ==> Some(r.value) == kind.query
      ensures r.Failure? ==> r.error == Error(Fatal, StringGotNull)
    {
      if kind.query.Some? then Success(kind.query.value) else Failure(Error(Fatal, StringGotNull))
    }

    method SetQuery(query: string) returns (r: DataBundle)
      requires kind.FetchBundle?
      modifies this
      ensures r == this && kind == old(kind).(query := Some(query)) && GetQuery() == Success(query)
      ensures name == old(name) && description == old(description) && structure == old(structure) && data == old(data)
    {
      kind := kind.(query := Some(query));
      r := this;
    }

    method SetDataClient(dataClient: string) returns (r: DataBundle)
      requires kind.InternalBundle?
      modifies this
      ensures r == this && kind == InternalBundle(dataClient)
      ensures name == old(name) && description == old(description) && structure == old(structure) && data == old(data)
    {
      kind := InternalBundle(dataClient);
      r := this;
    }

    method SetApiClient(apiClient: string) returns (r: DataBundle)
      requires kind.ExternalBundle?
      modifies this
      ensures r == this && kind == ExternalBundle(apiClient)
      ensures name == old(name) && description == old(description) && structure == old(structure) && data == old(data)
    {
      kind := ExternalBundle(apiClient);
      r := this;
    }

    function IsPresent(modelName: string, fieldName: string): (r: bool)
      reads this
      ensures r <==> Entry(data, KeyOf(modelName), KeyOf(fieldName)).Some?
    {
      HasKey(Inner(data, KeyOf(modelName)), KeyOf(fieldName))
    }

    function GetEntry(modelName: string, fieldName: string): (r: Data?)
      reads this
      ensures r != null <==> IsPresent(modelName, fieldName)
      ensures r != null ==> Entry(data, KeyOf(modelName), KeyOf(fieldName)) == Some(r as Data)
    {
      var e := Entry(data, KeyOf(modelName), KeyOf(fieldName));
      if e.Some? then e.value else null
    }

    /** True, with the entry deleted, exactly when it was present; otherwise false and no change. */
    method RemoveEntry(modelName: string, fieldName: string) returns (r: bool)
      modifies this
      ensures r == old(IsPresent(modelName, fieldName))
      ensures data == if r then UnsetIn(old(data), KeyOf(modelName), KeyOf(fieldName)) else old(data)
      ensures name == old(name) && description == old(description) && structure == old(structure) && kind == old(kind)
    {
      if IsPresent(modelName, fieldName) {
        data := UnsetIn(data, KeyOf(modelName), KeyOf(fieldName));
        return true;
      }
      r := false;
    }

    function IsBusinessModelPresent(modelName: string): bool
      reads this
    {
      HasKey(data, KeyOf(modelName))
    }

    /** `array_keys($data)`: model names in the order they were first added. */
    function ListBusinessModelNames(): seq<ArrayKey>
      reads this
    {
      Keys(data)
    }

    /** The entries of one model, `[]` when the model was never added. */
    function ListData(modelName: string): (r: seq<(ArrayKey, Data)>)
      reads this
      ensures !IsBusinessModelPresent(modelName) ==> r == []
      ensures forall f :: Get(r, f) == Entry(data, KeyOf(modelName), f)
    {
      Inner(data, KeyOf(modelName))
    }
  }

  /** The EventData an event bundle builds around a plain Data. */
  predicate WrappedEvent(w: Data, x: Data)
    reads w, x, x.businessModel, x.field
  {
    var res := Resolve(x.businessModel, ByField(x.field), BASIC);
    res.Success? && w.businessModel == x.businessModel && w.field == res.value
    && w.details == BASIC && w.variant == EventData(x.field.mandatory)
  }
}
