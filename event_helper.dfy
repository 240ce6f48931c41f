/**
 * EventHelper (src/Helper/EventHelper.php): names every data of an event uniquely through
 * a DataNameHelper, renaming earlier holders of a contested name until no conflict is
 * left, then keys the data by those names.
 */
module EventHelpers {
  import opened Wrappers
  import opened OrderedMap
  import opened PhpValues
  import opened Inflection
  import opened DataModel
  import opened DataBundleHelpers
  import opened DataNames
  import opened EventNaming

  function BundleSet(bundles: seq<(string, DataBundle)>): set<DataBundle>
  {
    set p | p in bundles :: p.1
  }

  function Tagged(name: string, ds: seq<Data>): (r: seq<Entry>)
    ensures |r| == |ds| && forall i :: 0 <= i < |ds| ==> r[i] == (name, ds[i])
  {
    if ds == [] then [] else Tagged(name, ds[..|ds| - 1]) + [(name, ds[|ds| - 1])]
  }

  /**
   * What the three nested foreach loops visit: the data of every bundle, model by model,
   * with the bundle's name. The bundles are what the event's `getDataBundles` returns,
   * keyed by bundle name; that member is not part of the Event class and is a parameter here.
   */
  function Entries(bundles: seq<(string, DataBundle)>): seq<Entry>
    reads BundleSet(bundles)`data
  {
    if bundles == [] then []
    else
      var b := bundles[|bundles| - 1];
      Entries(bundles[..|bundles| - 1]) + Tagged(b.0, Flat(b.1.data))
  }

  function DataSet(entries: seq<Entry>): set<Data>
  {
    set e | e in entries :: e.1
  }

  /** The model and field name of each entry. */
  function Labels(entries: seq<Entry>): (r: seq<(string, string)>)
    reads ModelObjects(entries), FieldObjects(entries)
    ensures |r| == |entries|
    ensures forall k :: 0 <= k < |entries| ==> r[k] == (entries[k].1.businessModel.name, entries[k].1.field.name)
  {
    if entries == [] then []
    else
      var e := entries[|entries| - 1];
      Labels(entries[..|entries| - 1]) + [(e.1.businessModel.name, e.1.field.name)]
  }

  // ---- The steps of setDataNames ----

  /** assignDataName, together with what it does to the ghost map of the names data answer to. */
  method Reserve(h: DataNameHelper, bundleName: string, data: Data, ghost current: map<Data, string>,
                 ghost entries: seq<Entry>, ghost labels: seq<(string, string)>) returns (r: Result<seq<string>>)
    requires Synced(current) && Labelled(entries, labels)
    modifies h`names, h`bundleNames, data`name
    ensures Labelled(entries, labels)
    ensures var p := Pick(old(h.names).Keys, h.inflector.camelize, bundleName, data.businessModel.name, data.field.name);
            && (p.Success? ==>
                 && r == Success(p.value.conflicts) && data.name == Some(p.value.name)
                 && h.names == old(h.names)[p.value.name := data] && h.bundleNames == old(h.bundleNames)[p.value.name := bundleName]
                 && Synced(current[data := p.value.name]))
            && (p.Failure? ==> r.Failure? && r.error.kind == Runtime)
  {
    r := h.AssignDataName(bundleName, data);
  }

  /** Names entry i through assignDataName; its conflicts are pending now. */
  method Enter(h: DataNameHelper, entry: Entry, ghost i: nat, ghost entries: seq<Entry>, ghost labels: seq<(string, string)>,
               ghost origin: map<string, nat>, ghost current: map<Data, string>, ghost contested: set<string>)
    returns (r: Result<seq<string>>, ghost origin': map<string, nat>, ghost current': map<Data, string>)
    requires Labelled(entries, labels) && i < |entries| && entry == entries[i] && Synced(current)
    requires Naming(h.inflector.camelize, h.names, h.bundleNames, origin, current, entries, labels, i, contested, []) == true
    requires Collided(labels, i, contested)
    modifies h`names, h`bundleNames, entry.1`name
    ensures Labelled(entries, labels)
    ensures r.Success? ==>
              var more := contested + Elements(r.value);
              && Synced(current') && Collided(labels, i + 1, more)
              && Naming(h.inflector.camelize, h.names, h.bundleNames, origin', current', entries, labels, i + 1, more, r.value) == true
    ensures r.Failure? ==> r.error.kind == Runtime
  {
    ghost var names, bundleNames := h.names, h.bundleNames;
    ghost var pick := Pick(names.Keys, h.inflector.camelize, entry.0, labels[i].0, labels[i].1);
    origin', current' := origin, current;
    r := Reserve(h, entry.0, entry.1, current, entries, labels);
    if r.Failure? {
      return;
    }
    assert pick == Pick(old(h.names).Keys, h.inflector.camelize, entry.0, entry.1.businessModel.name, entry.1.field.name);
    ghost var n := pick.value.name;
    assert r.value == pick.value.conflicts && entry.1.name == Some(n);
    assert h.names == names[n := entry.1] && h.bundleNames == bundleNames[n := entry.0];
    NamingEnter(h.inflector.camelize, names, bundleNames, origin, current, entries, labels, i, contested, pick.value);
    origin', current' := origin[n := i], current[entry.1 := n];
  }

  /**
   * One conflict of the worklist, the first pending one: its holder is renamed through
   * assignDataName when it still answers to that name, and is left alone otherwise.
   */
  method Settle(h: DataNameHelper, c: string, ghost entries: seq<Entry>, ghost labels: seq<(string, string)>, ghost done: nat,
                ghost origin: map<string, nat>, ghost current: map<Data, string>, ghost contested: set<string>, ghost pending: seq<string>)
    returns (r: Result<seq<string>>, ghost origin': map<string, nat>, ghost current': map<Data, string>)
    requires Labelled(entries, labels) && pending != [] && c == pending[0] && Synced(current)
    requires Naming(h.inflector.camelize, h.names, h.bundleNames, origin, current, entries, labels, done, contested, pending) == true
    modifies h`names, h`bundleNames, DataSet(entries)`name
    ensures Labelled(entries, labels)
    ensures r.Success? ==>
              && Synced(current')
              && Naming(h.inflector.camelize, h.names, h.bundleNames, origin', current', entries, labels, done,
                        contested + Elements(r.value), pending[1..] + r.value) == true
              && |old(h.names)| <= |h.names| && (|r.value| > 0 ==> |old(h.names)| < |h.names|)
    ensures r.Failure? ==> r.error.kind == Runtime
  {
    hide *;
    PendingHeld(h.inflector.camelize, h.names, h.bundleNames, origin, current, entries, labels, done, contested, pending);
    var other := h.GetData(c);
    if other.name != Some(c) {
      Skip(h, other, entries, labels, done, origin, current, contested, pending);
      return Success([]), origin, current;
    }
    r, origin', current' := Rename(h, c, other, entries, labels, done, origin, current, contested, pending);
  }

  /** Settling a pending name whose holder already answers to another one changes nothing. */
  lemma Skip(h: DataNameHelper, other: Data, entries: seq<Entry>, labels: seq<(string, string)>, done: nat,
             origin: map<string, nat>, current: map<Data, string>, contested: set<string>, pending: seq<string>)
    requires pending != [] && pending[0] in h.names && other == h.names[pending[0]] && other.name != Some(pending[0])
    requires Synced(current)
    requires Naming(h.inflector.camelize, h.names, h.bundleNames, origin, current, entries, labels, done, contested, pending) == true
    ensures Naming(h.inflector.camelize, h.names, h.bundleNames, origin, current, entries, labels, done,
                   contested + Elements([]), pending[1..] + []) == true
  {
    assert pending[1..] + [] == pending[1..];
    NoElements(contested);
    hide Naming;
    NamingSkip(h.inflector.camelize, h.names, h.bundleNames, origin, current, entries, labels, done, contested, pending);
  }

  /** The holder of the first pending name still answers to it: assignDataName picks it another name. */
  method Rename(h: DataNameHelper, c: string, other: Data, ghost entries: seq<Entry>, ghost labels: seq<(string, string)>, ghost done: nat,
                ghost origin: map<string, nat>, ghost current: map<Data, string>, ghost contested: set<string>, ghost pending: seq<string>)
    returns (r: Result<seq<string>>, ghost origin': map<string, nat>, ghost current': map<Data, string>)
    requires Labelled(entries, labels) && pending != [] && c == pending[0] && Synced(current)
    requires Naming(h.inflector.camelize, h.names, h.bundleNames, origin, current, entries, labels, done, contested, pending) == true
    requires c in h.names && other == h.names[c] && other.name == Some(c)
    modifies h`names, h`bundleNames, DataSet(entries)`name
    ensures Labelled(entries, labels)
    ensures r.Success? ==>
              && Synced(current')
              && Naming(h.inflector.camelize, h.names, h.bundleNames, origin', current', entries, labels, done,
                        contested + Elements(r.value), pending[1..] + r.value) == true
              && |h.names| == |old(h.names)| + 1
    ensures r.Failure? ==> r.error.kind == Runtime
  {
    origin', current' := origin, current;
    var otherBundleName := h.GetBundleName(c);
    ghost var names, bundleNames := h.names, h.bundleNames;
    ghost var k := origin[c];
    ghost var pick := Pick(names.Keys, h.inflector.camelize, entries[k].0, labels[k].0, labels[k].1);
    r := Reserve(h, otherBundleName.value, other, current, entries, labels);
    if r.Failure? {
      return;
    }
    assert pick == Pick(old(h.names).Keys, h.inflector.camelize, otherBundleName.value, other.businessModel.name, other.field.name);
    ghost var n := pick.value.name;
    assert r.value == pick.value.conflicts && other.name == Some(n);
    assert h.names == names[n := other] && h.bundleNames == bundleNames[n := bundleNames[c]];
    NamingRename(h.inflector.camelize, names, bundleNames, origin, current, entries, labels, done, contested, pending, pick.value);
    origin', current' := origin[n := k], current[other := n];
  }

  /** One pass of `foreach ($conflicts as $conflict)`: settles each conflict, gathering the new ones. */
  method Round(h: DataNameHelper, conflicts: seq<string>, ghost entries: seq<Entry>, ghost labels: seq<(string, string)>,
               ghost done: nat, ghost origin0: map<string, nat>, ghost current0: map<Data, string>, ghost contested0: set<string>)
    returns (r: Result<seq<string>>, ghost origin: map<string, nat>, ghost current: map<Data, string>, ghost contested: set<string>)
    requires Labelled(entries, labels) && Synced(current0)
    requires Naming(h.inflector.camelize, h.names, h.bundleNames, origin0, current0, entries, labels, done, contested0, conflicts) == true
    modifies h`names, h`bundleNames, DataSet(entries)`name
    ensures Labelled(entries, labels)
    ensures r.Success? ==>
              && Synced(current) && contested0 <= contested
              && Naming(h.inflector.camelize, h.names, h.bundleNames, origin, current, entries, labels, done, contested, r.value) == true
              && |old(h.names)| <= |h.names| && (|r.value| > 0 ==> |old(h.names)| < |h.names|)
    ensures r.Failure? ==> r.error.kind == Runtime
  {
    hide *;
    origin, current, contested := origin0, current0, contested0;
    var newConflicts := [];
    var todo := conflicts;
    ghost var rest := conflicts;
    AppendEmpty(conflicts);
    while todo != []
      invariant rest == todo + newConflicts
      invariant Labelled(entries, labels) && Synced(current)
      invariant Naming(h.inflector.camelize, h.names, h.bundleNames, origin, current, entries, labels, done, contested, rest) == true
      invariant contested0 <= contested && |old(h.names)| <= |h.names| && (|newConflicts| > 0 ==> |old(h.names)| < |h.names|)
      decreases |todo|
    {
      var more;
      ghost var before := |h.names|;
      more, origin, current := Settle(h, todo[0], entries, labels, done, origin, current, contested, rest);
      if more.Failure? {
        return Failure(more.error), origin, current, contested;
      }
      DropFirst(todo, newConflicts, more.value);
      rest := rest[1..] + more.value;
      contested := contested + Elements(more.value);
      newConflicts := newConflicts + more.value;
      todo := todo[1..];
    }
    assert rest == newConflicts;
    r := Success(newConflicts);
  }

  /**
   * The `while (!empty($conflicts))` loop: renames holders of conflicting names until a
   * round reports no new conflicts. A round that reports some has reserved a new name, and
   * all names come from finitely many candidates, so the loop ends.
   */
  method Resolve(h: DataNameHelper, conflicts0: seq<string>, ghost entries: seq<Entry>, ghost labels: seq<(string, string)>,
                 ghost done: nat, ghost origin0: map<string, nat>, ghost current0: map<Data, string>, ghost contested0: set<string>)
    returns (r: Outcome, ghost origin: map<string, nat>, ghost current: map<Data, string>, ghost contested: set<string>)
    requires Labelled(entries, labels) && Synced(current0)
    requires Naming(h.inflector.camelize, h.names, h.bundleNames, origin0, current0, entries, labels, done, contested0, conflicts0) == true
    modifies h`names, h`bundleNames, DataSet(entries)`name
    ensures Labelled(entries, labels)
    ensures r.Done? ==>
              && Synced(current) && contested0 <= contested
              && Naming(h.inflector.camelize, h.names, h.bundleNames, origin, current, entries, labels, done, contested, []) == true
    ensures r.Fail? ==> r.error.kind == Runtime
  {
    hide *;
    origin, current, contested := origin0, current0, contested0;
    NamingBound(h.inflector.camelize, h.names, h.bundleNames, origin, current, entries, labels, done, contested, conflicts0);
    ghost var universe := Universe(h.inflector.camelize, entries, labels);
    var conflicts := conflicts0;
    while conflicts != []
      invariant Labelled(entries, labels) && Synced(current)
      invariant Naming(h.inflector.camelize, h.names, h.bundleNames, origin, current, entries, labels, done, contested, conflicts) == true
      invariant contested0 <= contested && |h.names| <= |universe|
      decreases |universe| - |h.names|, |conflicts|
    {
      var next;
      next, origin, current, contested := Round(h, conflicts, entries, labels, done, origin, current, contested);
      if next.Failure? {
        return Fail(next.error), origin, current, contested;
      }
      NamingBound(h.inflector.camelize, h.names, h.bundleNames, origin, current, entries, labels, done, contested, next.value);
      conflicts := next.value;
    }
    r := Done;
  }

  // ---- setDataNames and getNamedData ----

  /** Some data of the event answers to `n`. */
  predicate Answers(entries: seq<Entry>, n: string)
    reads DataSet(entries)`name
  {
    exists m :: 0 <= m < |entries| && entries[m].1.name == Some(n)
  }

  /** Every data has a name, and two different data never share one. */
  predicate UniquelyNamed(entries: seq<Entry>)
    reads DataSet(entries)`name
  {
    && (forall k :: 0 <= k < |entries| ==> entries[k].1.name.Some?)
    && forall k, l :: 0 <= k < |entries| && 0 <= l < |entries| && entries[k].1 != entries[l].1 ==>
         entries[k].1.name != entries[l].1.name
  }

  /** A data is named after its field unless that name is contested, in which case no data holds it. */
  predicate FieldNamesWhereFree(entries: seq<Entry>)
    reads DataSet(entries)`name, FieldObjects(entries)
  {
    forall k :: 0 <= k < |entries| ==>
      entries[k].1.name == Some(entries[k].1.field.name) || !Answers(entries, entries[k].1.field.name)
  }

  /** When two entries share a field name, no data is named after that field. */
  predicate CollisionsRenamed(entries: seq<Entry>)
    reads DataSet(entries)`name, FieldObjects(entries)
  {
    forall k, l :: 0 <= k < l < |entries| && entries[k].1.field.name == entries[l].1.field.name ==>
      !Answers(entries, entries[k].1.field.name)
  }

  /** Data named through the helper answer to distinct names. */
  lemma DistinctNames(names: map<string, Data>, current: map<Data, string>, entries: seq<Entry>)
    requires Synced(current) && Holders(names, current)
    requires forall k :: 0 <= k < |entries| ==> entries[k].1 in current
    ensures UniquelyNamed(entries)
  {
    forall k, l | 0 <= k < |entries| && 0 <= l < |entries| && entries[k].1 != entries[l].1
      ensures entries[k].1.name != entries[l].1.name
    {
      var d, e := entries[k].1, entries[l].1;
      assert names[current[d]] == d && names[current[e]] == e;
    }
  }

  /** Once nothing is pending, no data answers to a contested name. */
  lemma ContestedUnheld(names: map<string, Data>, current: map<Data, string>, entries: seq<Entry>, contested: set<string>, c: string)
    requires Synced(current) && Holders(names, current) && Settled(names, current, contested, [])
    requires forall k :: 0 <= k < |entries| ==> entries[k].1 in current
    requires c in contested
    ensures !Answers(entries, c)
  {
    forall m | 0 <= m < |entries| ensures entries[m].1.name != Some(c) {
      var d := entries[m].1;
      assert names[current[d]] == d;
      assert c in names && names[c] in current && current[names[c]] != c;
    }
  }

  /** What the invariant gives once every entry is entered and the worklist is empty. */
  lemma Finished(names: map<string, Data>, current: map<Data, string>, entries: seq<Entry>, labels: seq<(string, string)>,
                 contested: set<string>)
    requires Labelled(entries, labels) && Synced(current) && Collided(labels, |entries|, contested)
    requires Holders(names, current) && Settled(names, current, contested, [])
    requires FieldNamesKept(names, current, entries, labels, |entries|, contested)
    ensures UniquelyNamed(entries) && FieldNamesWhereFree(entries) && CollisionsRenamed(entries)
  {
    DistinctNames(names, current, entries);
    forall k | 0 <= k < |entries|
      ensures entries[k].1.name == Some(entries[k].1.field.name) || !Answers(entries, entries[k].1.field.name)
    {
      if labels[k].1 in contested {
        ContestedUnheld(names, current, entries, contested, labels[k].1);
      }
    }
    forall k, l | 0 <= k < l < |entries| && entries[k].1.field.name == entries[l].1.field.name
      ensures !Answers(entries, entries[k].1.field.name)
    {
      assert labels[k].1 == entries[k].1.field.name && labels[l].1 == entries[l].1.field.name;
      ContestedUnheld(names, current, entries, contested, labels[k].1);
    }
  }

  lemma Outcome(camelize: string -> string, names: map<string, Data>, bundleNames: map<string, string>,
                origin: map<string, nat>, current: map<Data, string>, entries: seq<Entry>, labels: seq<(string, string)>,
                contested: set<string>)
    requires Labelled(entries, labels) && Synced(current) && Collided(labels, |entries|, contested)
    requires Naming(camelize, names, bundleNames, origin, current, entries, labels, |entries|, contested, []) == true
    ensures UniquelyNamed(entries) && FieldNamesWhereFree(entries) && CollisionsRenamed(entries)
  {
    hide *;
    NamingParts(camelize, names, bundleNames, origin, current, entries, labels, |entries|, contested, []);
    Finished(names, current, entries, labels, contested);
  }

  /** How the loop of setDataNames starts: the labels fit, nobody is named, nothing collided. */
  lemma Start(entries: seq<Entry>)
    ensures Labelled(entries, Labels(entries)) && Synced(map[]) && Collided(Labels(entries), 0, {})
  {
  }

  lemma InDataSet(entries: seq<Entry>, i: nat)
    requires i < |entries|
    ensures entries[i].1 in DataSet(entries)
  {
  }

  /** One pass of the outer loops: entry i reserves a name, then the conflicts it raised are resolved. */
  method NameEntry(h: DataNameHelper, i: nat, entries: seq<Entry>, ghost labels: seq<(string, string)>,
                   ghost origin: map<string, nat>, ghost current: map<Data, string>, ghost contested: set<string>)
    returns (r: Outcome, ghost origin': map<string, nat>, ghost current': map<Data, string>, ghost contested': set<string>)
    requires i < |entries| && Labelled(entries, labels) && Synced(current) && Collided(labels, i, contested)
    requires Naming(h.inflector.camelize, h.names, h.bundleNames, origin, current, entries, labels, i, contested, []) == true
    modifies h`names, h`bundleNames, DataSet(entries)`name
    ensures Labelled(entries, labels)
    ensures r.Done? ==>
              && Synced(current') && Collided(labels, i + 1, contested')
              && Naming(h.inflector.camelize, h.names, h.bundleNames, origin', current', entries, labels, i + 1, contested', []) == true
    ensures r.Fail? ==> r.error.kind == Runtime
  {
    hide *;
    origin', current', contested' := origin, current, contested;
    InDataSet(entries, i);
    var conflicts;
    conflicts, origin', current' := Enter(h, entries[i], i, entries, labels, origin, current, contested);
    if conflicts.Failure? {
      r := Fail(conflicts.error);
      return;
    }
    ghost var entered := contested + Elements(conflicts.value);
    r, origin', current', contested' := Resolve(h, conflicts.value, entries, labels, i + 1, origin', current', entered);
    if r.Done? {
      CollidedGrows(labels, i + 1, entered, contested');
    }
  }

  /**
   * setDataNames: each data of the event, in the order the bundles, models and lists give
   * them, reserves a name; each round of conflicts renames the earlier holders. When it
   * succeeds, every data has a name no other data of the event holds, a data keeps its field's
   * name unless that name was contested (and then nobody holds it), and a field name two
   * entries share is held by nobody. A RuntimeException from assignDataName ends it.
   */
  method SetDataNames(inflector: Inflector, bundles: seq<(string, DataBundle)>) returns (r: Outcome)
    modifies DataSet(Entries(bundles))`name
    ensures r.Done? ==>
              var entries := Entries(bundles);
              UniquelyNamed(entries) && FieldNamesWhereFree(entries) && CollisionsRenamed(entries)
    ensures r.Fail? ==> r.error.kind == Runtime
  {
    var entries := Entries(bundles);
    Start(entries);
    var h := new DataNameHelper(inflector);
    r := NameAll(h, entries, Labels(entries));
    assert forall b :: b in BundleSet(bundles) ==> b.data == old(b.data);
    assert entries == Entries(bundles);
  }

  /** The loop of setDataNames over the entries, with a helper that has reserved nothing yet. */
  method NameAll(h: DataNameHelper, entries: seq<Entry>, ghost labels: seq<(string, string)>) returns (r: Outcome)
    requires Labelled(entries, labels) && Synced(map[]) && Collided(labels, 0, {})
    requires h.names == map[] && h.bundleNames == map[]
    modifies h`names, h`bundleNames, DataSet(entries)`name
    ensures r.Done? ==> UniquelyNamed(entries) && FieldNamesWhereFree(entries) && CollisionsRenamed(entries)
    ensures r.Fail? ==> r.error.kind == Runtime
  {
    hide Naming, Collided, UniquelyNamed, FieldNamesWhereFree, CollisionsRenamed;
    ghost var origin: map<string, nat>, current: map<Data, string>, contested: set<string> := map[], map[], {};
    LabelledConsistent(entries, labels);
    NamingStart(h.inflector.camelize, entries, labels);
    var i := 0;
    while i < |entries|
      invariant i <= |entries|
      invariant Labelled(entries, labels) && Synced(current) && Collided(labels, i, contested)
      invariant Naming(h.inflector.camelize, h.names, h.bundleNames, origin, current, entries, labels, i, contested, []) == true
    {
      var step;
      step, origin, current, contested := NameEntry(h, i, entries, labels, origin, current, contested);
      if step.Fail? {
        return step;
      }
      i := i + 1;
    }
    Outcome(h.inflector.camelize, h.names, h.bundleNames, origin, current, entries, labels, contested);
    r := Done;
  }

  /** The assignments `$data[$item->getName()] = $item` the loops make, in order. */
  function Keyed(entries: seq<Entry>): (r: seq<(string, Data)>)
    reads DataSet(entries)`name
    ensures |r| == |entries| && forall k :: 0 <= k < |entries| ==> r[k] == (entries[k].1.name.GetOr(""), entries[k].1)
  {
    if entries == [] then []
    else
      var d := entries[|entries| - 1].1;
      Keyed(entries[..|entries| - 1]) + [(d.name.GetOr(""), d)]
  }

  /** Once names are unique, keying the data by name keeps every one of them. */
  lemma KeyedKeepsAll(entries: seq<Entry>, k: nat)
    requires k < |entries| && UniquelyNamed(entries)
    ensures Get(PutAll([], Keyed(entries)), entries[k].1.name.value) == Some(entries[k].1)
  {
    var ps := Keyed(entries);
    forall j | 0 <= j < |ps| && ps[j].0 == ps[k].0 ensures ps[j].1 == ps[k].1 {
      assert entries[j].1.name.Some? && entries[k].1.name.Some?;
      assert entries[j].1.name == entries[k].1.name;
    }
    PutAllAgreeing([], ps, k);
  }

  /** The accumulation loop of getNamedData: every data keyed by its name. */
  method KeyByName(entries: seq<Entry>) returns (data: seq<(string, Data)>)
    requires UniquelyNamed(entries)
    ensures UniquelyNamed(entries)
    ensures forall k :: 0 <= k < |entries| ==> Get(data, entries[k].1.name.value) == Some(entries[k].1)
  {
    var named := Keyed(entries);
    forall k | 0 <= k < |entries| ensures Get(PutAll([], named), entries[k].1.name.value) == Some(entries[k].1) {
      KeyedKeepsAll(entries, k);
    }
    data := [];
    var i := 0;
    while i < |named|
      invariant i <= |named| && data == PutAll([], named[..i])
    {
      PutAllStep([], named, i);
      data := Put(data, named[i].0, named[i].1);
      i := i + 1;
    }
    assert named[..i] == named;
  }

  /**
   * getNamedData: names the data, then keys every data of every bundle by its final name.
   * Since the names are unique, each data of the event is found under its own name.
   */
  method GetNamedData(inflector: Inflector, bundles: seq<(string, DataBundle)>) returns (r: Result<seq<(string, Data)>>)
    modifies DataSet(Entries(bundles))`name
    ensures r.Success? ==>
              var entries := Entries(bundles);
              && UniquelyNamed(entries)
              && forall k :: 0 <= k < |entries| ==> Get(r.value, entries[k].1.name.value) == Some(entries[k].1)
    ensures r.Failure? ==> r.error.kind == Runtime
  {
    hide FieldNamesWhereFree, CollisionsRenamed, Answers;
    var outcome := SetDataNames(inflector, bundles);
    if outcome.Fail? {
      return Failure(outcome.error);
    }
    var entries := Entries(bundles);
    var data := KeyByName(entries);
    assert forall b :: b in BundleSet(bundles) ==> b.data == old(b.data);
    assert entries == Entries(bundles);
    r := Success(data);
  }
}
