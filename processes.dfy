/**
 * A business process (src/Model/BusinessProcess.php): its type, the event that triggers
 * it, who may run it, the data it requires and produces grouped by bundle class, and the
 * messages it emits.
 */
module Processes {
  import opened Wrappers
  import opened PhpValues
  import opened OrderedMap
  import opened DataModel
  import Derived

  const CREATE := "create"
  const RETRIEVE := "retrieve"
  const UPDATE := "update"
  const DELETE := "delete"
  const CUSTOM := "custom"

  predicate IsProcessType(t: string)
  {
    t == CUSTOM || t == CREATE || t == RETRIEVE || t == UPDATE || t == DELETE
  }

  function InvalidTypeMessage(t: string): string
  {
    "Invalid type provided: " + t + ". Must be one of: create, retrieve, update, delete, custom"
  }

  /** Bundles keyed by `get_class`, then by bundle name. */
  type Groups = seq<(string, seq<(ArrayKey, DataBundle)>)>

  /** `$roles[] = $role` unless `array_search` already finds it. */
  function WithRole(roles: seq<string>, role: string): (r: seq<string>)
    ensures role in r
    ensures forall x :: x in r <==> x in roles || x == role
  {
    if role in roles then roles else roles + [role]
  }

  /** Adding a role twice is adding it once. */
  lemma WithRoleIdempotent(roles: seq<string>, role: string)
    ensures WithRole(WithRole(roles, role), role) == WithRole(roles, role)
  {
  }

  /** Every group present holds at least one bundle: groups are created only to receive one. */
  predicate GroupsFilled(g: Groups)
  {
    forall p :: p in g ==> p.1 != []
  }

  /** The group `get_class($bundle)` goes to, after the bundle is stored under its name. */
  function Grouped(g: Groups, b: DataBundle): (r: Groups)
    reads b
    ensures GroupsFilled(g) ==> GroupsFilled(r)
    ensures Entry(r, ClassName(b.kind), KeyOf(b.name)) == Some(b)
    ensures forall c, k :: (c, k) != (ClassName(b.kind), KeyOf(b.name)) ==> Entry(r, c, k) == Entry(g, c, k)
    ensures forall c :: c != ClassName(b.kind) ==> Get(r, c) == Get(g, c)
  {
    var inner := Put(Inner(g, ClassName(b.kind)), KeyOf(b.name), b);
    assert inner != [] by { assert Get(inner, KeyOf(b.name)).Some?; }
    PutEntries(g, ClassName(b.kind), inner);
    PutIn(g, ClassName(b.kind), KeyOf(b.name), b)
  }

  class BusinessProcess {
    var processType: string
    var category: string
    var name: string
    var description: string
    var event: Derived.Event
    var synchronous: bool
    var asynchronous: bool
    var periodicTriggers: seq<string>
    var externalAccess: bool
    var roles: seq<string>
    var requiredData: Groups
    var producedData: Groups
    /** Keyed by message id. */
    var messages: seq<(ArrayKey, Derived.Event)>

    constructor Make(name: string, description: string, event: Derived.Event, processType: string, synchronous: bool, asynchronous: bool)
      ensures this.name == name && this.description == description && this.event == event
      ensures this.processType == processType && this.synchronous == synchronous && this.asynchronous == asynchronous
      ensures category == "" && periodicTriggers == [] && !externalAccess && roles == []
      ensures requiredData == [] && producedData == [] && messages == []
    {
      this.name := name;
      this.description := description;
      this.event := event;
      this.processType := processType;
      this.synchronous := synchronous;
      this.asynchronous := asynchronous;
      category := "";
      periodicTriggers := [];
      externalAccess := false;
      roles := [];
      requiredData := [];
      producedData := [];
      messages := [];
    }

    /** `new BusinessProcess($name, $description, $event, $type = custom, $sync = true, $async = false)`. */
    static method New(name: string, description: string, event: Derived.Event, processType: string := CUSTOM,
                      synchronous: bool := true, asynchronous: bool := false) returns (r: Result<BusinessProcess>)
      ensures r.Success? <==> IsProcessType(processType)
      ensures r.Failure? ==> r.error == Error(InvalidArgument, InvalidTypeMessage(processType))
      ensures r.Success? ==> fresh(r.value) && r.value.processType == processType && r.value.name == name
      ensures r.Success? ==> r.value.description == description && r.value.event == event
      ensures r.Success? ==> r.value.synchronous == synchronous && r.value.asynchronous == asynchronous
      ensures r.Success? ==> r.value.category == "" && r.value.roles == [] && !r.value.externalAccess
      ensures r.Success? ==> r.value.periodicTriggers == [] && r.value.requiredData == [] && r.value.producedData == [] && r.value.messages == []
    {
      if !IsProcessType(processType) {
        return Failure(Error(InvalidArgument, InvalidTypeMessage(processType)));
      }
      var p := new BusinessProcess.Make(name, description, event, processType, synchronous, asynchronous);
      r := Success(p);
    }

    /** Everything but the type, which setType alone changes. */
    function Rest(): (string, string, string, Derived.Event, bool, bool, seq<string>, bool, seq<string>, Groups, Groups, seq<(ArrayKey, Derived.Event)>)
      reads this
    {
      (category, name, description, event, synchronous, asynchronous, periodicTriggers, externalAccess, roles, requiredData, producedData, messages)
    }

    /** An invalid type throws and leaves the process as it was. */
    method SetType(t: string) returns (r: Result<BusinessProcess>)
      modifies this
      ensures r.Success? <==> IsProcessType(t)
      ensures r.Success? ==> r.value == this && processType == t
      ensures r.Failure? ==> r.error == Error(InvalidArgument, InvalidTypeMessage(t)) && processType == old(processType)
      ensures Rest() == old(Rest())
    {
      if !IsProcessType(t) {
        return Failure(Error(InvalidArgument, InvalidTypeMessage(t)));
      }
      processType := t;
      r := Success(this);
    }

    method SetCategory(category: string) returns (r: BusinessProcess)
      modifies this
      ensures r == this && processType == old(processType)
      ensures Rest() == old(Rest()).(0 := category)
    {
      this.category := category;
      r := this;
    }

    method SetName(name: string) returns (r: BusinessProcess)
      modifies this
      ensures r == this && processType == old(processType)
      ensures Rest() == old(Rest()).(1 := name)
    {
      this.name := name;
      r := this;
    }

    method SetDescription(description: string) returns (r: BusinessProcess)
      modifies this
      ensures r == this && processType == old(processType)
      ensures Rest() == old(Rest()).(2 := description)
    {
      this.description := description;
      r := this;
    }

    method SetEvent(event: Derived.Event) returns (r: BusinessProcess)
      modifies this
      ensures r == this && processType == old(processType)
      ensures Rest() == old(Rest()).(3 := event)
    {
      this.event := event;
      r := this;
    }

    method SetSynchronous(synchronous: bool) returns (r: BusinessProcess)
      modifies this
      ensures r == this && processType == old(processType)
      ensures Rest() == old(Rest()).(4 := synchronous)
    {
      this.synchronous := synchronous;
      r := this;
    }

    method SetAsynchronous(asynchronous: bool) returns (r: BusinessProcess)
      modifies this
      ensures r == this && processType == old(processType)
      ensures Rest() == old(Rest()).(5 := asynchronous)
    {
      this.asynchronous := asynchronous;
      r := this;
    }

    method SetPeriodicTriggers(triggers: seq<string>) returns (r: BusinessProcess)
      modifies this
      ensures r == this && processType == old(processType)
      ensures Rest() == old(Rest()).(6 := triggers)
    {
      periodicTriggers := triggers;
      r := this;
    }

    predicate IsPeriodic()
      reads this
    {
      |periodicTriggers| > 0
    }

    method SetExternalAccess(externalAccess: bool) returns (r: BusinessProcess)
      modifies this
      ensures r == this && processType == old(processType)
      ensures Rest() == old(Rest()).(7 := externalAccess)
    {
      this.externalAccess := externalAccess;
      r := this;
    }

    method SetRoles(roles: seq<string>) returns (r: BusinessProcess)
      modifies this
      ensures r == this && processType == old(processType)
      ensures Rest() == old(Rest()).(8 := roles)
    {
      this.roles := roles;
      r := this;
    }

    /** `array_search` over the roles, compared here as exact strings. */
    function ContainsRole(role: string): (r: bool)
      reads this
      ensures r <==> exists i :: 0 <= i < |roles| && roles[i] == role
    {
      role in roles
    }

    /** Appends the role unless it is already there, so adding twice is adding once. */
    method AddRole(role: string) returns (r: BusinessProcess)
      modifies this
      ensures r == this && processType == old(processType)
      ensures Rest() == old(Rest()).(8 := WithRole(old(roles), role))
      ensures ContainsRole(role)
    {
      if !ContainsRole(role) {
        roles := roles + [role];
      }
      r := this;
    }

    predicate IsRestricted()
      reads this
    {
      |roles| > 0
    }

    /** Anyone may run an unrestricted process; otherwise only the listed roles. */
    function IsAllowed(role: string): (r: bool)
      reads this
      ensures r <==> roles == [] || role in roles
    {
      if IsRestricted() then ContainsRole(role) else true
    }

    /** `$requiredData[get_class($b)][$b->getName()] = $b`. */
    method AddRequiredData(b: DataBundle) returns (r: BusinessProcess)
      modifies this
      ensures r == this && processType == old(processType)
      ensures Rest() == old(Rest()).(9 := Grouped(old(requiredData), b))
    {
      requiredData := Grouped(requiredData, b);
      r := this;
    }

    /** `$producedData[get_class($b)][$b->getName()] = $b`. */
    method AddProducedData(b: DataBundle) returns (r: BusinessProcess)
      modifies this
      ensures r == this && processType == old(processType)
      ensures Rest() == old(Rest()).(10 := Grouped(old(producedData), b))
    {
      producedData := Grouped(producedData, b);
      r := this;
    }

    predicate IsDataRequired()
      reads this
    {
      |requiredData| > 0
    }

    predicate IsDataProduced()
      reads this
    {
      |producedData| > 0
    }

    /** `isset($requiredData[$class]) && count(...) > 0` for the context, internal and external classes. */
    predicate IsRequired(k: BundleKind)
      reads this
    {
      Inner(requiredData, ClassName(k)) != []
    }

    predicate IsProduced(k: BundleKind)
      reads this
    {
      Inner(producedData, ClassName(k)) != []
    }

    /** getRequiredContextData / InternalData / ExternalData: the group of that class, or `[]`. */
    function GetRequired(k: BundleKind): (r: seq<(ArrayKey, DataBundle)>)
      reads this
      ensures r != [] <==> IsRequired(k)
      ensures forall key :: Get(r, key) == Entry(requiredData, ClassName(k), key)
    {
      if IsRequired(k) then Inner(requiredData, ClassName(k)) else []
    }

    function GetProduced(k: BundleKind): (r: seq<(ArrayKey, DataBundle)>)
      reads this
      ensures r != [] <==> IsProduced(k)
      ensures forall key :: Get(r, key) == Entry(producedData, ClassName(k), key)
    {
      if IsProduced(k) then Inner(producedData, ClassName(k)) else []
    }

    /** `$messages[$message->getId()] = $message`. */
    method AddMessage(m: Derived.Event) returns (r: BusinessProcess)
      requires m.IsMessage()
      modifies this
      ensures r == this && processType == old(processType)
      ensures Rest() == old(Rest()).(11 := Put(old(messages), KeyOf(m.GetId()), m))
      ensures IsMessageProduced()
    {
      messages := Put(messages, KeyOf(m.GetId()), m);
      r := this;
    }

    predicate IsMessageProduced()
      reads this
    {
      |messages| > 0
    }
  }

  /**
   * After bundles are added, exactly the classes of those bundles count as required, each
   * holding the bundles of that class by name.
   */
  lemma {:induction false} RequiredAfterAdds(g: Groups, b: DataBundle, k: BundleKind)
    requires GroupsFilled(g)
    ensures (Inner(Grouped(g, b), ClassName(k)) != []) <==> (Inner(g, ClassName(k)) != [] || ClassName(k) == ClassName(b.kind))
  {
    var r := Grouped(g, b);
    var c := ClassName(k);
    if c == ClassName(b.kind) {
      assert Entry(r, c, KeyOf(b.name)) == Some(b);
    } else {
      assert Get(r, c) == Get(g, c);
    }
  }

  predicate SameClass(a: BundleKind, b: BundleKind)
  {
    && a.EventBundle? == b.EventBundle? && a.FetchBundle? == b.FetchBundle?
    && a.InternalBundle? == b.InternalBundle? && a.ExternalBundle? == b.ExternalBundle?
    && a.MessageBundle? == b.MessageBundle? && a.ReturnedBundle? == b.ReturnedBundle? && a.ContextBundle? == b.ContextBundle?
  }

  /** Bundle classes are told apart by name: a bundle is grouped under its own class only. */
  lemma ClassNamesDistinct(a: BundleKind, b: BundleKind)
    ensures ClassName(a) == ClassName(b) <==> SameClass(a, b)
  {
    var p := DataNamespace;
    if ClassName(a) == ClassName(b) {
      assert ClassName(a)[|p|..] == ClassName(b)[|p|..];
    }
  }
}
