/** Applying an upstream snapshot of users and doors to the local tables (database.py). */
module Topology {
  import opened Common

  type Id = string

  /** A table row: the columns that come from upstream, and everything kept locally. */
  datatype Row<V> = Row(values: V, local: nat)

  /** One snapshot entry; an entry without its identifiers is skipped. */
  datatype Entry<V> = Entry(id: Option<Id>, values: V)

  datatype Counts = Counts(seen: nat, inserted: nat, updated: nat, kept: nat, marked: nat, skipped: nat,
                           duplicates: nat)

  // ---------------------------------------------------------------------------
  // Normalising a snapshot
  // ---------------------------------------------------------------------------

  predicate Mentions<V>(entries: seq<Entry<V>>, id: Id) {
    exists i :: 0 <= i < |entries| && entries[i].id == Some(id)
  }

  /** `values` is what the last entry for `id` says. */
  predicate LastSays<V(==)>(entries: seq<Entry<V>>, id: Id, values: V) {
    exists i :: 0 <= i < |entries| && entries[i] == Entry(Some(id), values)
                && forall j :: i < j < |entries| ==> entries[j].id != Some(id)
  }

  /** The normalised form of a snapshot. */
  ghost predicate IsSnapshot<V>(entries: seq<Entry<V>>, snap: map<Id, V>) {
    && (forall id :: id in snap <==> Mentions(entries, id))
    && (forall id :: id in snap ==> LastSays(entries, id, snap[id]))
  }

  function Skipped<V>(entries: seq<Entry<V>>): (n: nat)
    ensures n <= |entries|
  {
    if entries == [] then 0
    else Skipped(entries[..|entries| - 1]) + if entries[|entries| - 1].id.None? then 1 else 0
  }

  function Noted<V>(snap: map<Id, V>, e: Entry<V>): map<Id, V> {
    if e.id.None? then snap else snap[e.id.value := e.values]
  }

  /** The last duplicate wins, and every entry is seen, skipped or a duplicate. */
  method Normalize<V(==)>(entries: seq<Entry<V>>) returns (snap: map<Id, V>, skipped: nat, duplicates: nat)
    ensures IsSnapshot(entries, snap)
    ensures skipped == Skipped(entries) && |snap| + skipped + duplicates == |entries|
  {
    snap, skipped, duplicates := map[], 0, 0;
    for n := 0 to |entries|
      invariant IsSnapshot(entries[..n], snap)
      invariant skipped == Skipped(entries[..n]) && |snap| + skipped + duplicates == n
    {
      NotedIsSnapshot(entries, n, snap);
      SizeOfNoted(snap, entries[n]);
      assert entries[..n + 1][..n] == entries[..n];
      match entries[n].id {
        case None =>
          skipped := skipped + 1;
        case Some(id) =>
          if id in snap {
            duplicates := duplicates + 1;
          }
          snap := Noted(snap, entries[n]);
      }
    }
    assert entries[..|entries|] == entries;
  }

  lemma SizeOfNoted<V>(snap: map<Id, V>, e: Entry<V>)
    ensures |Noted(snap, e)| == |snap| + if e.id.None? || e.id.value in snap then 0 else 1
  {
    if e.id.Some? {
      assert Noted(snap, e).Keys == snap.Keys + {e.id.value};
      assert |Noted(snap, e).Keys| == |Noted(snap, e)| && |snap.Keys| == |snap|;
    }
  }

  lemma NotedIsSnapshot<V>(entries: seq<Entry<V>>, n: nat, snap: map<Id, V>)
    requires n < |entries| && IsSnapshot(entries[..n], snap)
    ensures IsSnapshot(entries[..n + 1], Noted(snap, entries[n]))
  {
    var now, next := entries[..n + 1], Noted(snap, entries[n]);
    forall id ensures id in next <==> Mentions(now, id) {
      MentionsOneMore(entries, n, id);
    }
    forall id | id in next ensures LastSays(now, id, next[id]) {
      if entries[n].id == Some(id) {
        assert now[n] == Entry(Some(id), next[id]);
      } else {
        assert LastSays(entries[..n], id, snap[id]);
        var i :| 0 <= i < n && entries[..n][i] == Entry(Some(id), snap[id])
                 && forall j :: i < j < n ==> entries[..n][j].id != Some(id);
        assert now[i] == Entry(Some(id), snap[id]);
        forall j | i < j <= n ensures now[j].id != Some(id) {
          assert j < n ==> now[j] == entries[..n][j];
        }
      }
    }
  }

  lemma MentionsOneMore<V>(entries: seq<Entry<V>>, n: nat, id: Id)
    requires n < |entries|
    ensures Mentions(entries[..n + 1], id) <==> Mentions(entries[..n], id) || entries[n].id == Some(id)
  {
    var now := entries[..n + 1];
    assert now == entries[..n] + [entries[n]];
    if Mentions(entries[..n], id) {
      var i :| 0 <= i < n && entries[..n][i].id == Some(id);
      assert now[i].id == Some(id);
    }
    if entries[n].id == Some(id) {
      assert now[n].id == Some(id);
    }
  }

  // ---------------------------------------------------------------------------
  // Merging it into a table
  // ---------------------------------------------------------------------------

  /** The table after a snapshot: seen rows take its values and keep what is local, rows it
      does not mention are marked, unless the snapshot is empty. */
  ghost function Merged<V(!new)>(table: map<Id, Row<V>>, snap: map<Id, V>, mark: V -> V): (t: map<Id, Row<V>>) {
    map id | id in table.Keys + snap.Keys ::
      if id in snap then Row(snap[id], if id in table then table[id].local else 0)
      else if snap == map[] then table[id]
      else Row(mark(table[id].values), table[id].local)
  }

  function Fresh<V>(table: map<Id, Row<V>>, snap: map<Id, V>): set<Id> {
    snap.Keys - table.Keys
  }

  function Changed<V(==)>(table: map<Id, Row<V>>, snap: map<Id, V>): set<Id> {
    set id | id in snap && id in table && table[id].values != snap[id]
  }

  function Missing<V(==)>(table: map<Id, Row<V>>, snap: map<Id, V>, mark: V -> V): set<Id> {
    if snap == map[] then {} else set id | id in table && id !in snap && mark(table[id].values) != table[id].values
  }

  /** Everything outside `todo` is in its list. */
  ghost predicate Placed<V>(table: map<Id, Row<V>>, snap: map<Id, V>, todo: set<Id>,
                            inserts: set<Id>, updates: set<Id>)
  {
    && (forall id :: id in inserts <==> id in Fresh(table, snap) && id !in todo)
    && (forall id :: id in updates <==> id in Changed(table, snap) && id !in todo)
  }

  lemma PlaceOne<V>(table: map<Id, Row<V>>, snap: map<Id, V>, todo: set<Id>, inserts: set<Id>, updates: set<Id>, id: Id)
    requires Placed(table, snap, todo, inserts, updates) && id in todo && todo <= snap.Keys
    ensures id !in table ==> Placed(table, snap, todo - {id}, inserts + {id}, updates)
    ensures id in table && table[id].values != snap[id] ==> Placed(table, snap, todo - {id}, inserts, updates + {id})
    ensures id in table && table[id].values == snap[id] ==> Placed(table, snap, todo - {id}, inserts, updates)
    ensures id !in inserts && id !in updates
  {
  }

  lemma CountOne(todo: set<Id>, inserts: set<Id>, updates: set<Id>, id: Id)
    requires id !in todo && id !in inserts && id !in updates
    ensures |todo + {id}| == |todo| + 1 && |inserts + {id}| == |inserts| + 1 && |updates + {id}| == |updates| + 1
  {
  }

  /** The insert and update lists of one side of `sync_topology`. */
  method Classify<V(==)>(table: map<Id, Row<V>>, snap: map<Id, V>)
    returns (inserts: set<Id>, updates: set<Id>, kept: nat)
    ensures inserts == Fresh(table, snap) && updates == Changed(table, snap)
    ensures |inserts| + |updates| + kept == |snap|
  {
    var todo := snap.Keys;
    inserts, updates, kept := {}, {}, 0;
    while todo != {}
      invariant todo <= snap.Keys
      invariant Placed(table, snap, todo, inserts, updates)
      invariant |inserts| + |updates| + kept + |todo| == |snap.Keys|
    {
      var id :| id in todo;
      PlaceOne(table, snap, todo, inserts, updates, id);
      CountOne(todo - {id}, inserts, updates, id);
      todo := todo - {id};
      if id !in table {
        inserts := inserts + {id};
      } else if table[id].values != snap[id] {
        updates := updates + {id};
      } else {
        kept := kept + 1;
      }
    }
  }

  /** The rows after the inserts, updates and marks have been written. */
  function Written<V>(table: map<Id, Row<V>>, snap: map<Id, V>, inserts: set<Id>, updates: set<Id>, gone: set<Id>,
                      mark: V -> V): map<Id, Row<V>>
    requires inserts <= snap.Keys && updates <= snap.Keys && updates <= table.Keys
  {
    map id | id in table.Keys + inserts ::
      if id in inserts then Row(snap[id], 0)
      else if id in updates then Row(snap[id], table[id].local)
      else if id in gone then Row(mark(table[id].values), table[id].local)
      else table[id]
  }

  lemma WrittenIsMerged<V(!new)>(table: map<Id, Row<V>>, snap: map<Id, V>, mark: V -> V)
    ensures Written(table, snap, Fresh(table, snap), Changed(table, snap), Missing(table, snap, mark), mark)
            == Merged(table, snap, mark)
  {
  }

  method Merge<V(==, !new)>(table: map<Id, Row<V>>, snap: map<Id, V>, mark: V -> V)
    returns (t: map<Id, Row<V>>, inserted: nat, updated: nat, kept: nat, marked: nat)
    ensures t == Merged(table, snap, mark)
    ensures inserted == |Fresh(table, snap)| && updated == |Changed(table, snap)|
    ensures inserted + updated + kept == |snap|
    ensures marked == |Missing(table, snap, mark)|
  {
    var inserts, updates;
    inserts, updates, kept := Classify(table, snap);
    var gone := Missing(table, snap, mark);
    inserted, updated, marked := |inserts|, |updates|, |gone|;
    t := Written(table, snap, inserts, updates, gone, mark);
    WrittenIsMerged(table, snap, mark);
  }

  /** Merging the same snapshot again finds nothing to insert, update or mark. */
  lemma MergeTwiceWritesNothing<V(!new)>(table: map<Id, Row<V>>, snap: map<Id, V>, mark: V -> V)
    requires forall v :: mark(mark(v)) == mark(v)
    ensures var t := Merged(table, snap, mark);
            && Merged(t, snap, mark) == t
            && Fresh(t, snap) == {} && Changed(t, snap) == {} && Missing(t, snap, mark) == {}
  {
  }

  /** No row is ever removed and nothing local is touched. */
  lemma MergeKeepsRows<V(!new)>(table: map<Id, Row<V>>, snap: map<Id, V>, mark: V -> V, id: Id)
    requires id in table
    ensures id in Merged(table, snap, mark) && Merged(table, snap, mark)[id].local == table[id].local
    ensures snap == map[] ==> Merged(table, snap, mark) == table
  {
    if snap == map[] {
      assert Merged(table, snap, mark) == table;
    }
  }

  // ---------------------------------------------------------------------------
  // The two sides
  // ---------------------------------------------------------------------------

  datatype User = User(name: string, email: Option<string>, status: string)

  /** Upstream values are compared and written with `present` set. */
  datatype Door = Door(device: Option<string>, name: string, doorName: Option<string>, present: bool)

  function Deleted(u: User): User {
    u.(status := "deleted_upstream")
  }

  function Absent(d: Door): Door {
    d.(present := false)
  }

  datatype Outcome = Applied(users: Counts, locks: Counts) | RolledBack

  /** What the counters of one side say. */
  ghost predicate Reports<V(!new)>(c: Counts, table: map<Id, Row<V>>, snap: map<Id, V>, mark: V -> V,
                                   entries: seq<Entry<V>>)
  {
    && c.seen == |snap| == c.inserted + c.updated + c.kept
    && c.inserted == |Fresh(table, snap)| && c.updated == |Changed(table, snap)|
    && c.marked == |Missing(table, snap, mark)|
    && c.skipped == Skipped(entries) && c.seen + c.skipped + c.duplicates == |entries|
  }

  /** Everything one side computes before the transaction commits. */
  method Side<V(==, !new)>(table: map<Id, Row<V>>, entries: seq<Entry<V>>, mark: V -> V)
    returns (snap: map<Id, V>, t: map<Id, Row<V>>, counts: Counts)
    ensures IsSnapshot(entries, snap) && t == Merged(table, snap, mark) && Reports(counts, table, snap, mark, entries)
  {
    var skipped, duplicates, inserted, updated, kept, marked;
    snap, skipped, duplicates := Normalize(entries);
    t, inserted, updated, kept, marked := Merge(table, snap, mark);
    counts := Counts(|snap|, inserted, updated, kept, marked, skipped, duplicates);
  }

  class Store {
    var users: map<Id, Row<User>>
    var doors: map<Id, Row<Door>>     // native locks by location
    var foreign: set<Id>              // locations that other lock rows occupy

    /** `sync_topology`: one transaction, which the unique index on locations or any write may
        fail; then neither side changes. */
    method SyncTopology(userEntries: seq<Entry<User>>, doorEntries: seq<Entry<Door>>, committed: bool)
      returns (outcome: Outcome, ghost userSnap: map<Id, User>, ghost doorSnap: map<Id, Door>)
      modifies `users, `doors
      ensures IsSnapshot(userEntries, userSnap) && IsSnapshot(doorEntries, doorSnap)
      ensures outcome.Applied? <==> committed && Fresh(old(doors), doorSnap) !! foreign
      ensures outcome.RolledBack? ==> users == old(users) && doors == old(doors)
      ensures outcome.Applied? ==>
                && users == Merged(old(users), userSnap, Deleted) && doors == Merged(old(doors), doorSnap, Absent)
                && Reports(outcome.users, old(users), userSnap, Deleted, userEntries)
                && Reports(outcome.locks, old(doors), doorSnap, Absent, doorEntries)
    {
      var us, newUsers, userCounts := Side(users, userEntries, Deleted);
      var ds, newDoors, doorCounts := Side(doors, doorEntries, Absent);
      userSnap, doorSnap := us, ds;
      if !committed || !(Fresh(doors, ds) !! foreign) {
        return RolledBack, userSnap, doorSnap;
      }
      users, doors := newUsers, newDoors;
      outcome := Applied(userCounts, doorCounts);
    }
  }

  /** Applying the same snapshot twice: the second time succeeds wherever the first did and
      counts no insert, update or mark on either side. */
  method SyncTwice(store: Store, userEntries: seq<Entry<User>>, doorEntries: seq<Entry<Door>>)
    returns (first: Outcome, second: Outcome)
    modifies store
    ensures first.Applied? ==>
              && second.Applied?
              && second.users.inserted == second.users.updated == second.users.marked == 0
              && second.locks.inserted == second.locks.updated == second.locks.marked == 0
              && second.users.kept == second.users.seen && second.locks.kept == second.locks.seen
  {
    ghost var us, ds, us2, ds2;
    ghost var users0, doors0 := store.users, store.doors;
    first, us, ds := store.SyncTopology(userEntries, doorEntries, true);
    ghost var users1, doors1 := store.users, store.doors;
    second, us2, ds2 := store.SyncTopology(userEntries, doorEntries, true);
    SameSnapshot(userEntries, us, us2);
    SameSnapshot(doorEntries, ds, ds2);
    if first.Applied? {
      NothingLeftToInsert(doors0, ds, Absent);
      SecondReport(second.users, users0, us, Deleted, userEntries);
      SecondReport(second.locks, doors0, ds, Absent, doorEntries);
    }
  }

  lemma NothingLeftToInsert<V(!new)>(table: map<Id, Row<V>>, snap: map<Id, V>, mark: V -> V)
    ensures Fresh(Merged(table, snap, mark), snap) == {}
  {
  }

  /** The counters of a side whose table already holds the snapshot. */
  lemma SecondReport<V(!new)>(c: Counts, table: map<Id, Row<V>>, snap: map<Id, V>, mark: V -> V,
                              entries: seq<Entry<V>>)
    requires forall v :: mark(mark(v)) == mark(v)
    requires Reports(c, Merged(table, snap, mark), snap, mark, entries)
    ensures c.inserted == c.updated == c.marked == 0 && c.kept == c.seen
  {
    MergeTwiceWritesNothing(table, snap, mark);
  }

  lemma SameSnapshot<V(!new)>(entries: seq<Entry<V>>, a: map<Id, V>, b: map<Id, V>)
    requires IsSnapshot(entries, a) && IsSnapshot(entries, b)
    ensures a == b
  {
    forall id | id in a ensures id in b && a[id] == b[id] {
      assert LastSays(entries, id, a[id]) && LastSays(entries, id, b[id]);
    }
    forall id | id in b ensures id in a {
      assert Mentions(entries, id);
    }
  }
}
