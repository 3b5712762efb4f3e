/**
 * What the scheduled library sync of either plugin generation does to its
 * host, gathered in a `SyncState`: the library records, the delete requests,
 * the `UpdateToRepository` calls, the progress values reported and the number
 * of library scans queued. The remote metadata search, the progress
 * arithmetic, item deletion and the facts about how a state can evolve are
 * the same for both generations and are defined here once.
 */
module TaskEffects {
  import opened Wrappers
  import opened Platform
  import opened ItemStore
  import opened M3UParser

  /** The first remote search result's fields that `RefreshMetaData` copies. */
  datatype MetadataResult = MetadataResult(
    name: string,
    overview: Option<string>,
    premiereDate: Option<int>,
    productionYear: Option<int>,
    providerIds: map<string, string>,
    imageUrl: Option<string>)

  /** What the remote search by name gives: a first result, no result, or an exception. */
  datatype Search = Found(result: MetadataResult) | NotFound | Throws

  /** Two search answers that `RefreshMetaData`'s caller cannot tell apart: a caught exception looks like no result. */
  predicate SameFindings(a: Search, b: Search) {
    && (a.Found? <==> b.Found?)
    && (a.Found? ==> a.result == b.result)
  }

  /** The exceptions that leave `Execute`: a failed playlist download or a duplicate attribute key. */
  datatype SyncError = FetchFailed(url: string) | ParseFailed(error: ParseError)

  datatype SyncState = SyncState(
    library: seq<Item>,
    deletions: seq<Deletion>,
    updates: seq<Guid>,
    progress: seq<int>,
    scans: nat)

  /** Where a run ends: the state it leaves and whether an exception escaped. */
  datatype Run = Run(state: SyncState, outcome: Outcome<SyncError>)

  /** The state of the entry loop: the scheduled task's effects, and the `existingMediaItems` objects as they now are. */
  datatype ItemsRun = ItemsRun(state: SyncState, existing: seq<Item>)

  /** The playlist the config loop hands to `SyncMedia`, and the state before that call. */
  datatype Target = Target(state: SyncState, playlist: Item)

  // ---------------------------------------------------------------------------
  // Progress

  /** `(i / n) * 100` in integer arithmetic: 0 before the last step and 100 at it. */
  function Percent(i: nat, n: nat): (r: int)
    requires 0 < i <= n
    ensures r == (if i == n then 100 else 0)
  {
    (i / n) * 100
  }

  /** The values a loop over n elements reports, one per element. */
  function Ticks(n: nat): (r: seq<int>)
    ensures |r| == n
    ensures forall i :: 0 <= i < n ==> r[i] == Percent(i + 1, n)
  {
    seq(n, i requires 0 <= i < n => Percent(i + 1, n))
  }

  // ---------------------------------------------------------------------------
  // Deleting items

  /**
   * Deleting an item, with or without its files (`DeleteFileLocation`): the
   * records that go with it leave the library and the request is logged.
   */
  function Delete(st: SyncState, it: Item, deleteFiles: bool): SyncState {
    st.(library := RemoveItem(st.library, it), deletions := st.deletions + [Deletion(it.id, deleteFiles)])
  }

  /** Deletes the items one after the other. */
  function DeleteAll(st: SyncState, items: seq<Item>, deleteFiles: bool): SyncState
    decreases |items|
  {
    if items == [] then st else DeleteAll(Delete(st, items[0], deleteFiles), items[1..], deleteFiles)
  }

  /** The Ids of some items. */
  function IdsOf(items: seq<Item>): set<Guid> {
    set it | it in items :: it.id
  }

  /** The delete requests for some items, in order. */
  function DeletionsOf(items: seq<Item>, deleteFiles: bool): (r: seq<Deletion>)
    ensures |r| == |items|
    ensures forall i :: 0 <= i < |items| ==> r[i] == Deletion(items[i].id, deleteFiles)
  {
    seq(|items|, i requires 0 <= i < |items| => Deletion(items[i].id, deleteFiles))
  }

  /** Deleting items asks the host to delete each of them, in order, and touches nothing but the library. */
  lemma {:induction false} DeleteAllRequests(st: SyncState, items: seq<Item>, deleteFiles: bool)
    ensures DeleteAll(st, items, deleteFiles).deletions == st.deletions + DeletionsOf(items, deleteFiles)
    ensures DeleteAll(st, items, deleteFiles).updates == st.updates && DeleteAll(st, items, deleteFiles).progress == st.progress
    ensures DeleteAll(st, items, deleteFiles).scans == st.scans
    decreases |items|
  {
    if items != [] {
      DeleteAllRequests(Delete(st, items[0], deleteFiles), items[1..], deleteFiles);
      assert DeletionsOf(items, deleteFiles) == [Deletion(items[0].id, deleteFiles)] + DeletionsOf(items[1..], deleteFiles);
    }
  }

  /** Deleting `items` takes the record x: one of them takes it along. */
  predicate GoneWith(items: seq<Item>, x: Item) {
    exists i :: 0 <= i < |items| && GoesWith(items[i], x)
  }

  /** One of the items takes x along, so deleting them all does. */
  lemma GoneWithMember(items: seq<Item>, t: Item, x: Item)
    requires t in items && GoesWith(t, x)
    ensures GoneWith(items, x)
  {
    var i :| 0 <= i < |items| && items[i] == t;
  }

  /**
   * Deleting items removes exactly the records one of them takes along (its
   * own record, and the records filed under a deleted playlist folder), and
   * keeps Ids unique.
   */
  lemma {:induction false} DeleteAllLibrary(st: SyncState, items: seq<Item>, deleteFiles: bool)
    ensures forall x :: x in DeleteAll(st, items, deleteFiles).library <==> x in st.library && !GoneWith(items, x)
    ensures UniqueIds(st.library) ==> UniqueIds(DeleteAll(st, items, deleteFiles).library)
    decreases |items|
  {
    if items != [] {
      hide DeleteAll, GoneWith, RemoveItem, UniqueIds;
      var st1 := Delete(st, items[0], deleteFiles);
      RemoveItemSpec(st.library, items[0]);
      GoneWithCons(items);
      DeleteAllAt(st, items, deleteFiles);
      DeleteAllLibrary(st1, items[1..], deleteFiles);
    }
  }

  /** Deleting a first item, then the rest. */
  lemma DeleteAllAt(st: SyncState, items: seq<Item>, deleteFiles: bool)
    requires items != []
    ensures DeleteAll(st, items, deleteFiles) == DeleteAll(Delete(st, items[0], deleteFiles), items[1..], deleteFiles)
  {
  }

  /** A non-empty sequence takes a record along when its first item or one of the rest does. */
  lemma GoneWithCons(items: seq<Item>)
    requires items != []
    ensures forall x :: GoneWith(items, x) <==> GoesWith(items[0], x) || GoneWith(items[1..], x)
  {
    forall x ensures GoneWith(items, x) <==> GoesWith(items[0], x) || GoneWith(items[1..], x) {
      if GoneWith(items, x) {
        var i :| 0 <= i < |items| && GoesWith(items[i], x);
        if i > 0 {
          assert items[1..][i - 1] == items[i];
        }
      }
      if GoneWith(items[1..], x) {
        var i :| 0 <= i < |items[1..]| && GoesWith(items[1..][i], x);
        assert items[i + 1] == items[1..][i];
      }
    }
  }

  /** In a library with unique Ids, a record whose Id some selected record has is that record. */
  lemma SameIdSameRecord(lib: seq<Item>, a: Item, b: Item)
    requires UniqueIds(lib) && a in lib && b in lib && a.id == b.id
    ensures a == b
  {
    var i :| 0 <= i < |lib| && lib[i] == a;
    var j :| 0 <= j < |lib| && lib[j] == b;
    assert i == j;
  }

  // ---------------------------------------------------------------------------
  // How a state evolves

  /**
   * From a to b the scheduled task only adds to its logs: Ids stay unique, delete
   * requests, repository writes and progress values are only appended, every
   * progress value appended is 0 or 100, and no library scan is queued.
   */
  predicate Evolves(a: SyncState, b: SyncState) {
    && (UniqueIds(a.library) ==> UniqueIds(b.library))
    && a.deletions <= b.deletions && a.updates <= b.updates && a.progress <= b.progress
    && (forall i :: |a.progress| <= i < |b.progress| ==> b.progress[i] == 0 || b.progress[i] == 100)
    && b.scans == a.scans
  }

  /** A state evolves into itself. */
  lemma EvolvesRefl(a: SyncState)
    ensures Evolves(a, a)
  {
  }

  lemma EvolvesTrans(a: SyncState, b: SyncState, c: SyncState)
    requires Evolves(a, b) && Evolves(b, c)
    ensures Evolves(a, c)
  {
    forall i | |a.progress| <= i < |c.progress|
      ensures c.progress[i] == 0 || c.progress[i] == 100
    {
      if i < |b.progress| {
        assert c.progress[i] == b.progress[i];
      }
    }
  }

  lemma DeleteAllEvolves(st: SyncState, items: seq<Item>, deleteFiles: bool)
    ensures Evolves(st, DeleteAll(st, items, deleteFiles))
  {
    DeleteAllRequests(st, items, deleteFiles);
    DeleteAllLibrary(st, items, deleteFiles);
  }

  /** A save keeps the records it does not replace and adds the saved one. */
  lemma SaveMembers(lib: seq<Item>, it: Item)
    ensures forall x :: x in Save(lib, it) ==> x in lib || x == it
    ensures UniqueIds(lib) ==> UniqueIds(Save(lib, it))
  {
    if UniqueIds(lib) {
      SaveStores(lib, it, it.id);
    }
    match IndexOfId(lib, it.id)
    case Some(k) =>
      forall x | x in Save(lib, it) ensures x in lib || x == it {
        var i :| 0 <= i < |lib| && Save(lib, it)[i] == x;
        if i != k {
          assert x == lib[i];
        }
      }
    case None =>
  }

  /** A save keeps every Id the library had and adds the saved record's. */
  lemma SaveIds(lib: seq<Item>, it: Item)
    ensures IdsOf(Save(lib, it)) == IdsOf(lib) + {it.id}
  {
    var r := Save(lib, it);
    match IndexOfId(lib, it.id)
    case Some(k) =>
      assert r[k] == it;
      forall x | x in IdsOf(lib) ensures x in IdsOf(r) {
        var y :| y in lib && y.id == x;
        var i :| 0 <= i < |lib| && lib[i] == y;
        if i == k {
          assert r[k].id == x;
        } else {
          assert r[i] == y;
        }
      }
      forall x | x in IdsOf(r) ensures x in IdsOf(lib) + {it.id} {
        var y :| y in r && y.id == x;
        var i :| 0 <= i < |r| && r[i] == y;
        if i != k {
          assert lib[i] == y;
        }
      }
    case None =>
      assert r == lib + [it];
  }
}
