/**
 * The containers the generator walks: a business bundle (src/Model/BusinessBundle.php)
 * holds models, processes, their events and data sets; the older package
 * (src/Model/Package.php) holds entities, events and sets. All are keyed by name, except
 * the package's events, which are keyed by code.
 */
module Bundles {
  import opened Wrappers
  import opened PhpStrings
  import opened OrderedMap
  import opened Model
  import opened Processes
  import Derived
  import Datasets
  import Events
  import Sets

  /** `rtrim($namespace, '\\/')`. */
  const NamespaceTrim: set<char> := {'\\', '/'}

  /** The models paired with their names, for the keyed assignments of setBusinessModels. */
  function ModelsByName(ms: seq<BusinessModel>): (r: seq<(string, BusinessModel)>)
    reads ms
    ensures |r| == |ms| && forall i :: 0 <= i < |ms| ==> r[i] == (ms[i].name, ms[i])
  {
    if ms == [] then [] else ModelsByName(ms[..|ms| - 1]) + [(ms[|ms| - 1].name, ms[|ms| - 1])]
  }

  function ProcessesByName(ps: seq<BusinessProcess>): (r: seq<(string, BusinessProcess)>)
    reads ps
    ensures |r| == |ps| && forall i :: 0 <= i < |ps| ==> r[i] == (ps[i].name, ps[i])
  {
    if ps == [] then [] else ProcessesByName(ps[..|ps| - 1]) + [(ps[|ps| - 1].name, ps[|ps| - 1])]
  }

  /** The triggering events of the processes, each with its name. */
  function EventsOf(ps: seq<BusinessProcess>): (r: seq<(string, Derived.Event)>)
    reads ps, set p | p in ps :: p.event
    ensures |r| == |ps| && forall i :: 0 <= i < |ps| ==> r[i] == (ps[i].event.name, ps[i].event)
  {
    if ps == [] then [] else EventsOf(ps[..|ps| - 1]) + [(ps[|ps| - 1].event.name, ps[|ps| - 1].event)]
  }

  function DataSetsByName(ds: seq<Datasets.DataSet>): (r: seq<(string, Datasets.DataSet)>)
    reads ds
    ensures |r| == |ds| && forall i :: 0 <= i < |ds| ==> r[i] == (ds[i].name, ds[i])
  {
    if ds == [] then [] else DataSetsByName(ds[..|ds| - 1]) + [(ds[|ds| - 1].name, ds[|ds| - 1])]
  }

  function EntitiesByName(es: seq<Entity>): (r: seq<(string, Entity)>)
    reads es
    ensures |r| == |es| && forall i :: 0 <= i < |es| ==> r[i] == (es[i].name, es[i])
  {
    if es == [] then [] else EntitiesByName(es[..|es| - 1]) + [(es[|es| - 1].name, es[|es| - 1])]
  }

  function EventsByCode(es: seq<Events.Event>): (r: seq<(string, Events.Event)>)
    reads es
    ensures |r| == |es| && forall i :: 0 <= i < |es| ==> r[i] == (es[i].code, es[i])
  {
    if es == [] then [] else EventsByCode(es[..|es| - 1]) + [(es[|es| - 1].code, es[|es| - 1])]
  }

  function SetsByName(ss: seq<Sets.Set>): (r: seq<(string, Sets.Set)>)
    reads ss
    ensures |r| == |ss| && forall i :: 0 <= i < |ss| ==> r[i] == (ss[i].name, ss[i])
  {
    if ss == [] then [] else SetsByName(ss[..|ss| - 1]) + [(ss[|ss| - 1].name, ss[|ss| - 1])]
  }

  /** The categories of the processes, in order. */
  function CategoriesOf(ps: seq<BusinessProcess>): (r: seq<string>)
    reads ps
    ensures |r| == |ps| && forall i :: 0 <= i < |ps| ==> r[i] == ps[i].category
  {
    if ps == [] then [] else CategoriesOf(ps[..|ps| - 1]) + [ps[|ps| - 1].category]
  }

  /** The processes of one category, in order. */
  function OfCategory(ps: seq<BusinessProcess>, category: string): (r: seq<BusinessProcess>)
    reads ps
    ensures |r| <= |ps|
  {
    if ps == [] then []
    else OfCategory(ps[..|ps| - 1], category) + (if ps[|ps| - 1].category == category then [ps[|ps| - 1]] else [])
  }

  /** OfCategory keeps exactly the processes of that category. */
  lemma {:induction false} OfCategoryExactly(ps: seq<BusinessProcess>, category: string)
    ensures forall p :: p in OfCategory(ps, category) <==> p in ps && p.category == category
    decreases |ps|
  {
    if ps != [] {
      var init := ps[..|ps| - 1];
      OfCategoryExactly(init, category);
      assert ps == init + [ps[|ps| - 1]];
    }
  }

  class BusinessBundle {
    var namespace: string
    var name: string
    /** Never initialised by the constructor. */
    var description: Option<string>
    var businessModels: seq<(string, BusinessModel)>
    var businessProcesses: seq<(string, BusinessProcess)>
    var events: seq<(string, Derived.Event)>
    var dataSets: seq<(string, Datasets.DataSet)>

    constructor (namespace: string, name: string)
      ensures this.namespace == RTrim(namespace, NamespaceTrim) && this.name == name && description == None
      ensures businessModels == [] && businessProcesses == [] && events == [] && dataSets == []
    {
      this.namespace := RTrim(namespace, NamespaceTrim);
      this.name := name;
      description := None;
      businessModels := [];
      businessProcesses := [];
      events := [];
      dataSets := [];
    }

    /** The trailing separators are dropped, so setting the result again changes nothing. */
    method SetNamespace(namespace: string) returns (r: BusinessBundle)
      modifies this
      ensures r == this && this.namespace == RTrim(namespace, NamespaceTrim)
      ensures name == old(name) && description == old(description) && businessModels == old(businessModels)
      ensures businessProcesses == old(businessProcesses) && events == old(events) && dataSets == old(dataSets)
    {
      this.namespace := RTrim(namespace, NamespaceTrim);
      r := this;
    }

    method SetName(name: string) returns (r: BusinessBundle)
      modifies this
      ensures r == this && this.name == name
      ensures namespace == old(namespace) && description == old(description) && businessModels == old(businessModels)
      ensures businessProcesses == old(businessProcesses) && events == old(events) && dataSets == old(dataSets)
    {
      this.name := name;
      r := this;
    }

    /** Declared `: string`: a TypeError while no description was set. */
    function GetDescription(): (r: Result<string>)
      reads this
      ensures r.Success? <==> description.Some?
      ensures r.Success? ==> description == Some(r.value)
      ensures r.Failure? ==> r.error == Error(Fatal, StringGotNull)
    {
      if description.Some? then Success(description.value) else Failure(Error(Fatal, StringGotNull))
    }

    method SetDescription(description: string) returns (r: BusinessBundle)
      modifies this
      ensures r == this && this.description == Some(description) && GetDescription() == Success(description)
      ensures namespace == old(namespace) && name == old(name) && businessModels == old(businessModels)
      ensures businessProcesses == old(businessProcesses) && events == old(events) && dataSets == old(dataSets)
    {
      this.description := Some(description);
      r := this;
    }

    method AddBusinessModel(model: BusinessModel) returns (r: BusinessBundle)
      modifies this
      ensures r == this && businessModels == Put(old(businessModels), model.name, model)
      ensures namespace == old(namespace) && name == old(name) && description == old(description)
      ensures businessProcesses == old(businessProcesses) && events == old(events) && dataSets == old(dataSets)
    {
      businessModels := Put(businessModels, model.name, model);
      r := this;
    }

    function GetBusinessModel(name: string): (r: BusinessModel?)
      reads this
      ensures r != null <==> HasKey(businessModels, name)
      ensures r != null ==> (name, r) in businessModels
    {
      var o := Get(businessModels, name);
      if o.Some? then o.value else null
    }

    /** Clears the models, then adds each in order. */
    method SetBusinessModels(ms: seq<BusinessModel>) returns (r: BusinessBundle)
      modifies this
      ensures r == this && businessModels == PutAll([], ModelsByName(ms))
      ensures namespace == old(namespace) && name == old(name) && description == old(description)
      ensures businessProcesses == old(businessProcesses) && events == old(events) && dataSets == old(dataSets)
    {
      businessModels := PutEach([], ModelsByName(ms));
      r := this;
    }

    /** Stores the process under its name and, with it, the event that triggers it. */
    method AddBusinessProcess(p: BusinessProcess) returns (r: BusinessBundle)
      modifies this
      ensures r == this && businessProcesses == Put(old(businessProcesses), p.name, p)
      ensures events == Put(old(events), p.event.name, p.event)
      ensures namespace == old(namespace) && name == old(name) && description == old(description)
      ensures businessModels == old(businessModels) && dataSets == old(dataSets)
    {
      businessProcesses := Put(businessProcesses, p.name, p);
      var _ := AddEvent(p.event);
      r := this;
    }

    function GetBusinessProcess(name: string): (r: BusinessProcess?)
      reads this
      ensures r != null <==> HasKey(businessProcesses, name)
      ensures r != null ==> (name, r) in businessProcesses
    {
      var o := Get(businessProcesses, name);
      if o.Some? then o.value else null
    }

    /** Clears the processes but not the events; each process adds its event again. */
    method SetBusinessProcesses(ps: seq<BusinessProcess>) returns (r: BusinessBundle)
      modifies this
      ensures r == this && businessProcesses == PutAll([], old(ProcessesByName(ps)))
      ensures events == PutAll(old(events), old(EventsOf(ps)))
      ensures namespace == old(namespace) && name == old(name) && description == old(description)
      ensures businessModels == old(businessModels) && dataSets == old(dataSets)
    {
      var named, triggers := ProcessesByName(ps), EventsOf(ps);
      businessProcesses := PutEach([], named);
      events := PutEach(events, triggers);
      r := this;
    }

    /** The categories of the processes, each once, in first-seen order. */
    method GetBusinessProcessCategories() returns (r: seq<string>)
      ensures r == Dedup(CategoriesOf(Values(businessProcesses)))
    {
      r := DedupEach(CategoriesOf(Values(businessProcesses)));
    }

    /** The processes of one category, in process order. */
    method GetBusinessProcessesForCategory(category: string) returns (r: seq<BusinessProcess>)
      ensures r == OfCategory(Values(businessProcesses), category)
    {
      var ps := Values(businessProcesses);
      r := [];
      var i := 0;
      while i < |ps|
        invariant 0 <= i <= |ps|
        invariant r == OfCategory(ps[..i], category)
      {
        assert ps[..i + 1][..i] == ps[..i];
        if category == ps[i].category {
          r := r + [ps[i]];
        }
        i := i + 1;
      }
      assert ps[..|ps|] == ps;
    }

    method AddEvent(event: Derived.Event) returns (r: BusinessBundle)
      modifies this
      ensures r == this && events == Put(old(events), event.name, event)
      ensures namespace == old(namespace) && name == old(name) && description == old(description)
      ensures businessModels == old(businessModels) && businessProcesses == old(businessProcesses) && dataSets == old(dataSets)
    {
      events := Put(events, event.name, event);
      r := this;
    }

    function GetEvent(name: string): (r: Derived.Event?)
      reads this
      ensures r != null <==> HasKey(events, name)
      ensures r != null ==> (name, r) in events
    {
      var o := Get(events, name);
      if o.Some? then o.value else null
    }

    function GetDataSet(name: string): (r: Datasets.DataSet?)
      reads this
      ensures r != null <==> HasKey(dataSets, name)
      ensures r != null ==> (name, r) in dataSets
    {
      var o := Get(dataSets, name);
      if o.Some? then o.value else null
    }

    method AddDataSet(ds: Datasets.DataSet) returns (r: BusinessBundle)
      modifies this
      ensures r == this && dataSets == Put(old(dataSets), ds.name, ds)
      ensures namespace == old(namespace) && name == old(name) && description == old(description)
      ensures businessModels == old(businessModels) && businessProcesses == old(businessProcesses) && events == old(events)
    {
      dataSets := Put(dataSets, ds.name, ds);
      r := this;
    }

    method SetDataSets(ds: seq<Datasets.DataSet>) returns (r: BusinessBundle)
      modifies this
      ensures r == this && dataSets == PutAll([], DataSetsByName(ds))
      ensures namespace == old(namespace) && name == old(name) && description == old(description)
      ensures businessModels == old(businessModels) && businessProcesses == old(businessProcesses) && events == old(events)
    {
      dataSets := PutEach([], DataSetsByName(ds));
      r := this;
    }
  }

  class Package {
    var namespace: string
    var name: string
    /** Never initialised by the constructor. */
    var description: Option<string>
    var entities: seq<(string, Entity)>
    /** Keyed by event code. */
    var events: seq<(string, Events.Event)>
    var sets: seq<(string, Sets.Set)>

    constructor (namespace: string, name: string)
      ensures this.namespace == RTrim(namespace, NamespaceTrim) && this.name == name && description == None
      ensures entities == [] && events == [] && sets == []
    {
      this.namespace := RTrim(namespace, NamespaceTrim);
      this.name := name;
      description := None;
      entities := [];
      events := [];
      sets := [];
    }

    method SetNamespace(namespace: string) returns (r: Package)
      modifies this
      ensures r == this && this.namespace == RTrim(namespace, NamespaceTrim)
      ensures name == old(name) && description == old(description) && entities == old(entities) && events == old(events) && sets == old(sets)
    {
      this.namespace := RTrim(namespace, NamespaceTrim);
      r := this;
    }

    method SetName(name: string) returns (r: Package)
      modifies this
      ensures r == this && this.name == name
      ensures namespace == old(namespace) && description == old(description) && entities == old(entities) && events == old(events) && sets == old(sets)
    {
      this.name := name;
      r := this;
    }

    /** Declared `: string`: a TypeError while no description was set. */
    function GetDescription(): (r: Result<string>)
      reads this
      ensures r.Success? <==> description.Some?
      ensures r.Success? ==> description == Some(r.value)
      ensures r.Failure? ==> r.error == Error(Fatal, StringGotNull)
    {
      if description.Some? then Success(description.value) else Failure(Error(Fatal, StringGotNull))
    }

    method SetDescription(description: string) returns (r: Package)
      modifies this
      ensures r == this && this.description == Some(description)
      ensures namespace == old(namespace) && name == old(name) && entities == old(entities) && events == old(events) && sets == old(sets)
    {
      this.description := Some(description);
      r := this;
    }

    method AddEntity(entity: Entity) returns (r: Package)
      modifies this
      ensures r == this && entities == Put(old(entities), entity.name, entity)
      ensures namespace == old(namespace) && name == old(name) && description == old(description) && events == old(events) && sets == old(sets)
    {
      entities := Put(entities, entity.name, entity);
      r := this;
    }

    function GetEntity(name: string): (r: Entity?)
      reads this
      ensures r != null <==> HasKey(entities, name)
      ensures r != null ==> (name, r) in entities
    {
      var o := Get(entities, name);
      if o.Some? then o.value else null
    }

    method SetEntities(es: seq<Entity>) returns (r: Package)
      modifies this
      ensures r == this && entities == PutAll([], EntitiesByName(es))
      ensures namespace == old(namespace) && name == old(name) && description == old(description) && events == old(events) && sets == old(sets)
    {
      entities := PutEach([], EntitiesByName(es));
      r := this;
    }

    /** Keyed by the event's code, not its name. */
    method AddEvent(event: Events.Event) returns (r: Package)
      modifies this
      ensures r == this && events == Put(old(events), event.code, event)
      ensures namespace == old(namespace) && name == old(name) && description == old(description) && entities == old(entities) && sets == old(sets)
    {
      events := Put(events, event.code, event);
      r := this;
    }

    /** Looks the argument up among the codes. */
    function GetEvent(code: string): (r: Events.Event?)
      reads this
      ensures r != null <==> HasKey(events, code)
      ensures r != null ==> (code, r) in events
    {
      var o := Get(events, code);
      if o.Some? then o.value else null
    }

    method SetEvents(es: seq<Events.Event>) returns (r: Package)
      modifies this
      ensures r == this && events == PutAll([], EventsByCode(es))
      ensures namespace == old(namespace) && name == old(name) && description == old(description) && entities == old(entities) && sets == old(sets)
    {
      events := PutEach([], EventsByCode(es));
      r := this;
    }

    function GetSet(name: string): (r: Sets.Set?)
      reads this
      ensures r != null <==> HasKey(sets, name)
      ensures r != null ==> (name, r) in sets
    {
      var o := Get(sets, name);
      if o.Some? then o.value else null
    }

    method AddSet(s: Sets.Set) returns (r: Package)
      modifies this
      ensures r == this && sets == Put(old(sets), s.name, s)
      ensures namespace == old(namespace) && name == old(name) && description == old(description) && entities == old(entities) && events == old(events)
    {
      sets := Put(sets, s.name, s);
      r := this;
    }

    method SetSets(ss: seq<Sets.Set>) returns (r: Package)
      modifies this
      ensures r == this && sets == PutAll([], SetsByName(ss))
      ensures namespace == old(namespace) && name == old(name) && description == old(description) && entities == old(entities) && events == old(events)
    {
      sets := PutEach([], SetsByName(ss));
      r := this;
    }
  }
}
