/**
 * The invariant DataNameHelper's reservations keep while EventHelper::setDataNames names
 * the data of an event, stated on values: the names reserved, the data holding them, and
 * the names found contested so far. The lemmas show what one reservation preserves.
 */
module EventNaming {
  import opened Wrappers
  import opened DataModel
  import opened DataNames

  /** A data as the loops meet it, with the name of its bundle. */
  type Entry = (string, Data)

  function ModelObjects(entries: seq<Entry>): set<object>
  {
    set e | e in entries :: e.1.businessModel
  }

  function FieldObjects(entries: seq<Entry>): set<object>
  {
    set e | e in entries :: e.1.field
  }

  function CandidatesAt(camelize: string -> string, entries: seq<Entry>, labels: seq<(string, string)>, k: nat): seq<string>
    requires k < |entries| && |labels| == |entries|
  {
    Candidates(camelize, entries[k].0, labels[k].0, labels[k].1)
  }

  /** Every name the helper can reserve for these entries. */
  function Universe(camelize: string -> string, entries: seq<Entry>, labels: seq<(string, string)>): set<string>
    requires |labels| == |entries|
  {
    set k, c | 0 <= k < |entries| && c in CandidatesAt(camelize, entries, labels, k) :: c
  }

  // ---- The invariant of the renaming ----
  //
  // Ghost maps describe the state: `current` maps each data the helper has named to the
  // name it answers to (`Synced` ties it to the data objects), and `origin` maps each
  // reserved name to the entry it was reserved for. Everything else is stated on maps.

  predicate Synced(current: map<Data, string>)
    reads current.Keys`name
  {
    forall d :: d in current ==> d.name == Some(current[d])
  }

  predicate Labelled(entries: seq<Entry>, labels: seq<(string, string)>)
    reads ModelObjects(entries), FieldObjects(entries)
  {
    |labels| == |entries| && forall k :: 0 <= k < |entries| ==> labels[k] == (entries[k].1.businessModel.name, entries[k].1.field.name)
  }

  /** The same data has the same model and field names wherever it occurs. */
  predicate Consistent(entries: seq<Entry>, labels: seq<(string, string)>)
  {
    |labels| == |entries| && forall k, l :: 0 <= k < |entries| && 0 <= l < |entries| && entries[k].1 == entries[l].1 ==> labels[k] == labels[l]
  }

  /** Each reservation names a candidate of its entry, held by that entry's data for that entry's bundle. */
  predicate Reservations(camelize: string -> string, names: map<string, Data>, bundleNames: map<string, string>,
                         origin: map<string, nat>, entries: seq<Entry>, labels: seq<(string, string)>)
    requires |labels| == |entries|
  {
    && names.Keys == bundleNames.Keys && names.Keys == origin.Keys
    && forall n :: n in origin ==>
         && origin[n] < |entries|
         && entries[origin[n]] == (bundleNames[n], names[n])
         && n in CandidatesAt(camelize, entries, labels, origin[n])
  }

  /** Each holder answers to one name, and that name is reserved for it. */
  predicate Holders(names: map<string, Data>, current: map<Data, string>)
  {
    && (forall n :: n in names ==> names[n] in current)
    && (forall d :: d in current ==> current[d] in names && names[current[d]] == d)
  }

  /** Each contested name is reserved, and its holder still answers to it only while it is pending. */
  predicate Settled(names: map<string, Data>, current: map<Data, string>, contested: set<string>, pending: seq<string>)
  {
    forall c :: c in contested ==> c in names && names[c] in current && (current[names[c]] == c ==> c in pending)
  }

  /** The first `done` entries are named, their field names reserved, and each keeps its field's name unless it is contested. */
  predicate FieldNamesKept(names: map<string, Data>, current: map<Data, string>, entries: seq<Entry>, labels: seq<(string, string)>,
                 done: nat, contested: set<string>)
    requires done <= |entries| == |labels|
  {
    forall k :: 0 <= k < done ==>
      && entries[k].1 in current
      && labels[k].1 in names
      && (labels[k].1 in contested || current[entries[k].1] == labels[k].1)
  }

  /** Two of the first `done` entries with the same field name have had it contested. */
  predicate Collided(labels: seq<(string, string)>, done: nat, contested: set<string>)
    requires done <= |labels|
  {
    forall k, l :: 0 <= k < l < done && labels[k].1 == labels[l].1 ==> labels[k].1 in contested
  }

  function Elements(s: seq<string>): set<string>
  {
    set x | x in s
  }

  lemma NoElements(contested: set<string>)
    ensures contested + Elements([]) == contested
  {
    assert Elements([]) == {};
  }

  lemma LabelledConsistent(entries: seq<Entry>, labels: seq<(string, string)>)
    requires Labelled(entries, labels)
    ensures Consistent(entries, labels)
  {
  }

  lemma KeysInUniverse(camelize: string -> string, names: map<string, Data>, bundleNames: map<string, string>,
                       origin: map<string, nat>, entries: seq<Entry>, labels: seq<(string, string)>)
    requires |labels| == |entries| && Reservations(camelize, names, bundleNames, origin, entries, labels)
    ensures names.Keys <= Universe(camelize, entries, labels)
  {
    forall n | n in names ensures n in Universe(camelize, entries, labels) {
      var k := origin[n];
      assert n in CandidatesAt(camelize, entries, labels, k);
    }
  }

  /** A map whose keys lie in u has at most |u| entries. */
  lemma MapWithin<V>(m: map<string, V>, u: set<string>)
    requires m.Keys <= u
    ensures |m| <= |u|
  {
    assert u == m.Keys + (u - m.Keys);
    assert m.Keys * (u - m.Keys) == {};
  }

  /** What the worklist holds after its head is settled is still contested. */
  lemma StillContested(rest: seq<string>, more: seq<string>, contested: set<string>)
    requires rest != [] && forall c :: c in rest ==> c in contested
    ensures forall c :: c in rest[1..] + more ==> c in contested + Elements(more)
  {
    forall c | c in rest[1..] + more
      ensures c in contested + Elements(more)
    {
      if c !in more {
        assert c in rest[1..];
      }
    }
  }

  lemma AppendEmpty<T>(a: seq<T>)
    ensures a == a + []
  {
  }

  lemma DropFirst<T>(a: seq<T>, b: seq<T>, c: seq<T>)
    requires a != []
    ensures (a + b)[1..] + c == a[1..] + (b + c)
  {
    assert (a + b)[1..] == a[1..] + b;
  }

  // ---- One reservation: what it preserves ----

  lemma ReserveKeepsReservations(camelize: string -> string, names: map<string, Data>, bundleNames: map<string, string>,
                                 origin: map<string, nat>, entries: seq<Entry>, labels: seq<(string, string)>, k: nat, n: string)
    requires |labels| == |entries| && Reservations(camelize, names, bundleNames, origin, entries, labels)
    requires k < |entries| && n !in names && n in CandidatesAt(camelize, entries, labels, k)
    ensures Reservations(camelize, names[n := entries[k].1], bundleNames[n := entries[k].0], origin[n := k], entries, labels)
  {
  }

  lemma ReserveKeepsHolders(names: map<string, Data>, current: map<Data, string>, x: Data, n: string)
    requires Holders(names, current) && n !in names
    ensures Holders(names[n := x], current[x := n])
  {
    var names', current' := names[n := x], current[x := n];
    forall m | m in names' ensures names'[m] in current' {
      if m != n {
        assert names[m] in current;
      }
    }
    forall d | d in current' ensures current'[d] in names' && names'[current'[d]] == d {
      if d != x {
        assert current[d] in names && names[current[d]] == d;
      }
    }
  }

  /** Renaming the holder of pending[0] retires that name from the pending ones and adds the new conflicts. */
  lemma RenameSettles(names: map<string, Data>, current: map<Data, string>, contested: set<string>, pending: seq<string>,
                      n: string, conflicts: seq<string>)
    requires pending != [] && Settled(names, current, contested, pending)
    requires pending[0] in names && names[pending[0]] in current && current[names[pending[0]]] == pending[0]
    requires n !in names && forall y :: y in conflicts ==> y in names
    requires forall m :: m in names ==> names[m] in current
    ensures var x := names[pending[0]];
            Settled(names[n := x], current[x := n], contested + Elements(conflicts), pending[1..] + conflicts)
  {
    var x := names[pending[0]];
    var names', current' := names[n := x], current[x := n];
    assert pending == [pending[0]] + pending[1..];
    forall y | y in contested + Elements(conflicts)
      ensures y in names' && names'[y] in current' && (current'[names'[y]] == y ==> y in pending[1..] + conflicts)
    {
      if y !in conflicts {
        assert y in contested;
      }
    }
  }

  /** Renaming the holder x of a contested name keeps every entry's field name or contests it. */
  lemma RenameKeeps(names: map<string, Data>, current: map<Data, string>, entries: seq<Entry>, labels: seq<(string, string)>,
                    done: nat, contested: set<string>, c: string, n: string, conflicts: seq<string>)
    requires done <= |entries| == |labels| && FieldNamesKept(names, current, entries, labels, done, contested)
    requires c in contested && c in names && names[c] in current && current[names[c]] == c
    ensures var x := names[c];
            FieldNamesKept(names[n := x], current[x := n], entries, labels, done, contested + Elements(conflicts))
  {
    var x := names[c];
    var names', current' := names[n := x], current[x := n];
    forall k | 0 <= k < done
      ensures entries[k].1 in current' && labels[k].1 in names'
      ensures labels[k].1 in contested + Elements(conflicts) || current'[entries[k].1] == labels[k].1
    {
    }
  }

  /** Naming a new entry while nothing is pending leaves only its conflicts pending. */
  lemma EnterSettles(names: map<string, Data>, current: map<Data, string>, contested: set<string>, x: Data, n: string,
                     conflicts: seq<string>)
    requires Settled(names, current, contested, []) && Holders(names, current)
    requires n !in names && forall y :: y in conflicts ==> y in names
    ensures Settled(names[n := x], current[x := n], contested + Elements(conflicts), conflicts)
  {
    var names', current' := names[n := x], current[x := n];
    forall y | y in contested + Elements(conflicts)
      ensures y in names' && names'[y] in current' && (current'[names'[y]] == y ==> y in conflicts)
    {
      if y !in conflicts {
        assert y in contested;
      }
    }
  }

  /** Naming entry i keeps its field name when free and contests it when already reserved. */
  lemma EnterKeeps(names: map<string, Data>, current: map<Data, string>, entries: seq<Entry>, labels: seq<(string, string)>,
                   i: nat, contested: set<string>, n: string, conflicts: seq<string>)
    requires i < |entries| && Consistent(entries, labels) && FieldNamesKept(names, current, entries, labels, i, contested)
    requires labels[i].1 in names ==> conflicts != [] && conflicts[0] == labels[i].1
    requires labels[i].1 !in names ==> n == labels[i].1
    ensures var x := entries[i].1;
            FieldNamesKept(names[n := x], current[x := n], entries, labels, i + 1, contested + Elements(conflicts))
  {
    var x := entries[i].1;
    var names', current' := names[n := x], current[x := n];
    var more := contested + Elements(conflicts);
    forall k | 0 <= k < i + 1
      ensures entries[k].1 in current' && labels[k].1 in names'
      ensures labels[k].1 in more || current'[entries[k].1] == labels[k].1
    {
      if k < i && entries[k].1 == x && labels[k].1 !in contested {
        assert labels[k] == labels[i];
        assert conflicts[0] in more;
      }
      if k == i && labels[i].1 in names {
        assert conflicts[0] in more;
      }
    }
  }

  lemma EnterCollides(names: map<string, Data>, labels: seq<(string, string)>, i: nat, contested: set<string>, conflicts: seq<string>)
    requires i < |labels| && Collided(labels, i, contested)
    requires forall k :: 0 <= k < i ==> labels[k].1 in names
    requires labels[i].1 in names ==> conflicts != [] && conflicts[0] == labels[i].1
    ensures Collided(labels, i + 1, contested + Elements(conflicts))
  {
    forall k, l | 0 <= k < l < i + 1 && labels[k].1 == labels[l].1 ensures labels[k].1 in contested + Elements(conflicts) {
      if l == i {
        assert labels[k].1 in names;
        assert conflicts[0] in Elements(conflicts);
      }
    }
  }

  /** Everything one reservation by entry i's data preserves, given what assignDataName picked. */
  lemma EnterStep(camelize: string -> string, names: map<string, Data>, bundleNames: map<string, string>,
                  origin: map<string, nat>, current: map<Data, string>, entries: seq<Entry>, labels: seq<(string, string)>,
                  i: nat, contested: set<string>, choice: Choice)
    requires i < |entries| && Consistent(entries, labels)
    requires Reservations(camelize, names, bundleNames, origin, entries, labels) && Holders(names, current)
    requires Settled(names, current, contested, [])
    requires FieldNamesKept(names, current, entries, labels, i, contested) && Collided(labels, i, contested)
    requires Pick(names.Keys, camelize, entries[i].0, labels[i].0, labels[i].1) == Success(choice)
    ensures var x, n, more := entries[i].1, choice.name, contested + Elements(choice.conflicts);
            && Reservations(camelize, names[n := x], bundleNames[n := entries[i].0], origin[n := i], entries, labels)
            && Holders(names[n := x], current[x := n])
            && Settled(names[n := x], current[x := n], more, choice.conflicts)
            && FieldNamesKept(names[n := x], current[x := n], entries, labels, i + 1, more)
            && Collided(labels, i + 1, more)
  {
    var x, n := entries[i].1, choice.name;
    ReserveKeepsReservations(camelize, names, bundleNames, origin, entries, labels, i, n);
    ReserveKeepsHolders(names, current, x, n);
    EnterSettles(names, current, contested, x, n, choice.conflicts);
    EnterKeeps(names, current, entries, labels, i, contested, n, choice.conflicts);
    EnterCollides(names, labels, i, contested, choice.conflicts);
  }

  /** Everything renaming the holder of the first pending name preserves, given what assignDataName picked. */
  lemma RenameStep(camelize: string -> string, names: map<string, Data>, bundleNames: map<string, string>,
                   origin: map<string, nat>, current: map<Data, string>, entries: seq<Entry>, labels: seq<(string, string)>,
                   done: nat, contested: set<string>, pending: seq<string>, choice: Choice)
    requires done <= |entries| && Consistent(entries, labels)
    requires Reservations(camelize, names, bundleNames, origin, entries, labels) && Holders(names, current)
    requires pending != [] && pending[0] in contested && Settled(names, current, contested, pending)
    requires FieldNamesKept(names, current, entries, labels, done, contested)
    requires pending[0] in names && current[names[pending[0]]] == pending[0]
    requires var k := origin[pending[0]];
             Pick(names.Keys, camelize, entries[k].0, labels[k].0, labels[k].1) == Success(choice)
    ensures var c, n, more := pending[0], choice.name, contested + Elements(choice.conflicts);
            && Reservations(camelize, names[n := names[c]], bundleNames[n := bundleNames[c]], origin[n := origin[c]], entries, labels)
            && Holders(names[n := names[c]], current[names[c] := n])
            && Settled(names[n := names[c]], current[names[c] := n], more, pending[1..] + choice.conflicts)
            && FieldNamesKept(names[n := names[c]], current[names[c] := n], entries, labels, done, more)
            && n !in names
  {
    var c, n := pending[0], choice.name;
    var k := origin[c];
    ReserveKeepsReservations(camelize, names, bundleNames, origin, entries, labels, k, n);
    ReserveKeepsHolders(names, current, names[c], n);
    RenameSettles(names, current, contested, pending, n, choice.conflicts);
    RenameKeeps(names, current, entries, labels, done, contested, c, n, choice.conflicts);
  }


  // ---- The invariant packaged ----

  /**
   * The whole state of the renaming after the first `done` entries were entered, while the
   * names in `pending` wait to be settled.
   */
  predicate Naming(camelize: string -> string, names: map<string, Data>, bundleNames: map<string, string>,
                   origin: map<string, nat>, current: map<Data, string>, entries: seq<Entry>, labels: seq<(string, string)>,
                   done: nat, contested: set<string>, pending: seq<string>)
  {
    && done <= |entries| == |labels|
    && Consistent(entries, labels)
    && Reservations(camelize, names, bundleNames, origin, entries, labels)
    && Holders(names, current)
    && Settled(names, current, contested, pending)
    && FieldNamesKept(names, current, entries, labels, done, contested)
    && (forall c :: c in pending ==> c in contested)
  }

  /** Nothing reserved, nothing named, nothing contested. */
  lemma NamingStart(camelize: string -> string, entries: seq<Entry>, labels: seq<(string, string)>)
    requires Consistent(entries, labels)
    ensures Naming(camelize, map[], map[], map[], map[], entries, labels, 0, {}, [])
  {
  }

  /** Entering entry `done` moves to `done + 1` with the conflicts it reported pending. */
  lemma NamingEnter(camelize: string -> string, names: map<string, Data>, bundleNames: map<string, string>,
                    origin: map<string, nat>, current: map<Data, string>, entries: seq<Entry>, labels: seq<(string, string)>,
                    done: nat, contested: set<string>, choice: Choice)
    requires done < |entries| && Naming(camelize, names, bundleNames, origin, current, entries, labels, done, contested, []) == true
    requires Collided(labels, done, contested)
    requires Pick(names.Keys, camelize, entries[done].0, labels[done].0, labels[done].1) == Success(choice)
    ensures var x, n, more := entries[done].1, choice.name, contested + Elements(choice.conflicts);
            && Naming(camelize, names[n := x], bundleNames[n := entries[done].0], origin[n := done], current[x := n],
                      entries, labels, done + 1, more, choice.conflicts)
            && Collided(labels, done + 1, more)
            && n !in names
  {
    EnterStep(camelize, names, bundleNames, origin, current, entries, labels, done, contested, choice);
  }

  /** Renaming the holder of the first pending name, which still answers to it. */
  lemma NamingRename(camelize: string -> string, names: map<string, Data>, bundleNames: map<string, string>,
                     origin: map<string, nat>, current: map<Data, string>, entries: seq<Entry>, labels: seq<(string, string)>,
                     done: nat, contested: set<string>, pending: seq<string>, choice: Choice)
    requires pending != [] && Naming(camelize, names, bundleNames, origin, current, entries, labels, done, contested, pending) == true
    requires pending[0] in names && current[names[pending[0]]] == pending[0]
    requires var k := origin[pending[0]];
             Pick(names.Keys, camelize, entries[k].0, labels[k].0, labels[k].1) == Success(choice)
    ensures var c, n, more := pending[0], choice.name, contested + Elements(choice.conflicts);
            && Naming(camelize, names[n := names[c]], bundleNames[n := bundleNames[c]], origin[n := origin[c]],
                      current[names[c] := n], entries, labels, done, more, pending[1..] + choice.conflicts)
            && n !in names
  {
    RenameStep(camelize, names, bundleNames, origin, current, entries, labels, done, contested, pending, choice);
    StillContested(pending, choice.conflicts, contested);
  }

  /** A pending name whose holder already answers to another one is settled by doing nothing. */
  lemma NamingSkip(camelize: string -> string, names: map<string, Data>, bundleNames: map<string, string>,
                   origin: map<string, nat>, current: map<Data, string>, entries: seq<Entry>, labels: seq<(string, string)>,
                   done: nat, contested: set<string>, pending: seq<string>)
    requires pending != [] && Naming(camelize, names, bundleNames, origin, current, entries, labels, done, contested, pending) == true
    requires pending[0] in names && current[names[pending[0]]] != pending[0]
    ensures Naming(camelize, names, bundleNames, origin, current, entries, labels, done, contested, pending[1..])
  {
    forall c | c in contested && c in names && names[c] in current && current[names[c]] == c
      ensures c in pending[1..]
    {
      assert c in pending && c != pending[0];
    }
    forall c | c in pending[1..] ensures c in contested {
      assert c in pending;
    }
  }

  /** The first pending name is reserved, and its holder answers to some name. */
  lemma PendingHeld(camelize: string -> string, names: map<string, Data>, bundleNames: map<string, string>,
                    origin: map<string, nat>, current: map<Data, string>, entries: seq<Entry>, labels: seq<(string, string)>,
                    done: nat, contested: set<string>, pending: seq<string>)
    requires pending != [] && Naming(camelize, names, bundleNames, origin, current, entries, labels, done, contested, pending) == true
    ensures pending[0] in names && names[pending[0]] in current && pending[0] in origin
  {
    assert pending[0] in contested;
  }

  /** Reserved names are candidates of the entries, so there are at most as many as there are candidates. */
  lemma NamingBound(camelize: string -> string, names: map<string, Data>, bundleNames: map<string, string>,
                    origin: map<string, nat>, current: map<Data, string>, entries: seq<Entry>, labels: seq<(string, string)>,
                    done: nat, contested: set<string>, pending: seq<string>)
    requires Naming(camelize, names, bundleNames, origin, current, entries, labels, done, contested, pending) == true
    ensures |labels| == |entries| && |names| <= |Universe(camelize, entries, labels)|
  {
    KeysInUniverse(camelize, names, bundleNames, origin, entries, labels);
    MapWithin(names, Universe(camelize, entries, labels));
  }

  /** Finding more names contested keeps every collision recorded. */
  lemma CollidedGrows(labels: seq<(string, string)>, done: nat, contested: set<string>, more: set<string>)
    requires done <= |labels| && Collided(labels, done, contested) && contested <= more
    ensures Collided(labels, done, more)
  {
  }

  /** The parts of the invariant a finished run is judged by. */
  lemma NamingParts(camelize: string -> string, names: map<string, Data>, bundleNames: map<string, string>,
                    origin: map<string, nat>, current: map<Data, string>, entries: seq<Entry>, labels: seq<(string, string)>,
                    done: nat, contested: set<string>, pending: seq<string>)
    requires Naming(camelize, names, bundleNames, origin, current, entries, labels, done, contested, pending) == true
    ensures done <= |entries| == |labels|
    ensures Holders(names, current) && Settled(names, current, contested, pending)
    ensures FieldNamesKept(names, current, entries, labels, done, contested)
  {
  }
}
