/**
 * The media server's item library as the plugin sees it: records of the
 * items under the user root folder, in the order `RecursiveChildren`
 * enumerates them, and the few library calls the plugin makes on them
 * (`AddChild`, `DeleteItem`, `UpdateToRepository`), and what the host does
 * behind them: deleting a folder deletes the items filed under it.
 *
 * The library is a sequence rather than a map from Id to item because the
 * plugin picks items with `FirstOrDefault`, whose answer depends on that order.
 * Ids are unique in a well-kept library (`UniqueIds`); adding an item whose
 * Id is already present replaces the stored record, as the host's
 * insert-or-replace save does.
 */
module ItemStore {
  import opened Wrappers
  import opened Platform

  /** Which plugin class an item is an instance of (`OfType<...>`). */
  datatype ItemKind = VodPlaylistItem | VodMovieItem | OtherItem

  /** `MediaBrowser.Model.Entities.SourceType`. */
  datatype SourceType = Library | Channel | Device

  /** `MediaBrowser.Model.Entities.VideoType` (the members the plugin can meet). */
  datatype VideoType = VideoFile | Iso | Dvd | BluRay

  /** `MediaBrowser.Model.Entities.ImageType` (the members the plugin can meet). */
  datatype ImageType = Primary | Backdrop | Logo | Thumb

  /** `ItemImageInfo`: where an image lives and what kind it is. */
  datatype ImageInfo = ImageInfo(path: string, imageType: ImageType)

  /** A media source of a channel item; only its location matters here. */
  datatype MediaSource = MediaSource(path: string)

  /**
   * One library item with the properties the plugin reads or writes. Strings
   * the host may leave null are `Option`s where the plugin tells null and
   * empty apart.
   */
  datatype Item = Item(
    kind: ItemKind,
    id: Guid,
    identifierId: Guid,
    parentId: Guid,
    name: string,
    originalTitle: string,
    overview: Option<string>,
    premiereDate: Option<int>,
    productionYear: Option<int>,
    providerIds: map<string, string>,
    path: string,
    images: Option<seq<ImageInfo>>,
    playlistUrl: string,
    userId: string,
    isHidden: bool,
    sourceType: SourceType,
    videoType: VideoType,
    defaultVideoStreamIndex: Option<int>,
    isVirtualItem: bool,
    channelId: string,
    channelMediaSources: seq<MediaSource>)

  /** What a freshly constructed host item of the given kind holds before the plugin's own constructor runs. */
  function BlankItem(kind: ItemKind): (it: Item)
    ensures it.kind == kind && it.id == EmptyGuid && it.parentId == EmptyGuid
    ensures it.images == None && it.defaultVideoStreamIndex == None
  {
    Item(kind, EmptyGuid, EmptyGuid, EmptyGuid, "", "", None, None, None, map[], "", None,
      "", "", false, Library, VideoFile, None, false, "", [])
  }

  /** A request to the host to delete one item. */
  datatype Deletion = Deletion(id: Guid, deleteFileLocation: bool)

  /** No two records share an Id. */
  predicate UniqueIds(lib: seq<Item>) {
    forall i, j :: 0 <= i < j < |lib| ==> lib[i].id != lib[j].id
  }

  /** The position of the record with the given Id, if any. */
  function IndexOfId(lib: seq<Item>, id: Guid): (r: Option<nat>)
    ensures r.Some? ==> r.value < |lib| && lib[r.value].id == id
    ensures r.Some? ==> forall j :: 0 <= j < r.value ==> lib[j].id != id
    ensures r.None? ==> forall j :: 0 <= j < |lib| ==> lib[j].id != id
  {
    if lib == [] then None
    else if lib[0].id == id then Some(0)
    else match IndexOfId(lib[1..], id)
      case Some(k) => Some(k + 1)
      case None => None
  }

  /** `FirstOrDefault(x => x.IdentifierId == id)`: the position of the first record with that IdentifierId. */
  function IndexOfIdentifier(items: seq<Item>, id: Guid): (r: Option<nat>)
    ensures r.Some? ==> r.value < |items| && items[r.value].identifierId == id
    ensures r.Some? ==> forall j :: 0 <= j < r.value ==> items[j].identifierId != id
    ensures r.None? ==> forall j :: 0 <= j < |items| ==> items[j].identifierId != id
  {
    if items == [] then None
    else if items[0].identifierId == id then Some(0)
    else match IndexOfIdentifier(items[1..], id)
      case Some(k) => Some(k + 1)
      case None => None
  }

  /** `Where(keep)`: the records that satisfy `keep`, in library order. */
  function Where(lib: seq<Item>, keep: Item -> bool): (r: seq<Item>)
    ensures |r| <= |lib|
    ensures forall it :: it in r <==> it in lib && keep(it)
  {
    if lib == [] then []
    else (if keep(lib[0]) then [lib[0]] else []) + Where(lib[1..], keep)
  }

  /**
   * Saves a record: it replaces the record with the same Id, or is appended
   * when there is none. This is what `AddChild` and `UpdateToRepository` do to
   * the store.
   */
  function Save(lib: seq<Item>, it: Item): (r: seq<Item>)
  {
    match IndexOfId(lib, it.id)
    case Some(k) => lib[k := it]
    case None => lib + [it]
  }

  /** `folder.AddChild(item)`: the item becomes a child of the folder and is saved. */
  function AddChild(lib: seq<Item>, folderId: Guid, it: Item): (r: seq<Item>)
  {
    Save(lib, it.(parentId := folderId))
  }

  /** A filter that keeps no record of the library keeps nothing. */
  lemma {:induction false} WhereNone(lib: seq<Item>, keep: Item -> bool)
    requires forall it :: it in lib ==> !keep(it)
    ensures Where(lib, keep) == []
  {
    if lib != [] {
      assert lib[0] in lib;
      WhereNone(lib[1..], keep);
    }
  }

  /**
   * Whether `x` is one of the host's children of the folder with Id
   * `folderId`: a record filed under that Id. A folder with the empty Id was
   * never stored, and the host finds no children for it.
   */
  predicate FiledUnder(x: Item, folderId: Guid) {
    folderId != EmptyGuid && x.parentId == folderId
  }

  /**
   * Whether deleting `it` takes the record `x` along: a record with its Id,
   * and, when `it` is a playlist folder (`VodPlaylist : Folder`), every
   * record filed under it, since the host deletes a folder's children
   * together with the folder.
   */
  predicate GoesWith(it: Item, x: Item) {
    x.id == it.id || (it.kind == VodPlaylistItem && FiledUnder(x, it.id))
  }

  /** `DeleteItem(it)`: the records that go with `it` leave the library. */
  function RemoveItem(lib: seq<Item>, it: Item): (r: seq<Item>)
    ensures |r| <= |lib|
  {
    if lib == [] then []
    else if GoesWith(it, lib[0]) then RemoveItem(lib[1..], it)
    else [lib[0]] + RemoveItem(lib[1..], it)
  }

  /** The record stored under an Id, if any. */
  function Lookup(lib: seq<Item>, id: Guid): (r: Option<Item>)
    ensures r.Some? ==> r.value in lib && r.value.id == id
    ensures r.None? ==> forall it :: it in lib ==> it.id != id
  {
    match IndexOfId(lib, id)
    case Some(k) => Some(lib[k])
    case None => None
  }

  /** After a save the record is stored under its Id, and every other Id keeps its record. */
  lemma SaveStores(lib: seq<Item>, it: Item, other: Guid)
    requires UniqueIds(lib)
    ensures UniqueIds(Save(lib, it))
    ensures Lookup(Save(lib, it), it.id) == Some(it)
    ensures other != it.id ==> Lookup(Save(lib, it), other) == Lookup(lib, other)
  {
    var r := Save(lib, it);
    match IndexOfId(lib, it.id)
    case Some(k) =>
      assert r == lib[k := it];
      assert forall j :: 0 <= j < |r| && j != k ==> r[j] == lib[j];
      IndexOfIdUnique(r, it.id, k);
      if other != it.id {
        LookupUnchanged(lib, r, other, k);
      }
    case None =>
      assert r == lib + [it];
      IndexOfIdUnique(r, it.id, |lib|);
      if other != it.id {
        LookupAppend(lib, it, other);
      }
  }

  /** Saving the same record a second time changes nothing. */
  lemma SaveTwice(lib: seq<Item>, it: Item)
    ensures Save(Save(lib, it), it) == Save(lib, it)
  {
    match IndexOfId(lib, it.id)
    case Some(k) =>
      IndexOfIdFirst(lib[k := it], it.id, k);
      assert lib[k := it][k := it] == lib[k := it];
    case None =>
      IndexOfIdFirst(lib + [it], it.id, |lib|);
      assert (lib + [it])[|lib| := it] == lib + [it];
  }

  /** In a library with unique Ids, the record at position k is the one found under its Id. */
  lemma IndexOfIdUnique(lib: seq<Item>, id: Guid, k: nat)
    requires k < |lib| && lib[k].id == id
    requires forall j :: 0 <= j < |lib| && j != k ==> lib[j].id != id
    ensures IndexOfId(lib, id) == Some(k)
  {
  }

  lemma LookupUnchanged(lib: seq<Item>, r: seq<Item>, other: Guid, k: nat)
    requires k < |lib| == |r| && lib[k].id != other && r[k].id != other
    requires forall j :: 0 <= j < |r| && j != k ==> r[j] == lib[j]
    ensures Lookup(r, other) == Lookup(lib, other)
  {
    match IndexOfId(lib, other)
    case Some(m) =>
      assert r[m] == lib[m];
      IndexOfIdFirst(r, other, m);
    case None =>
      assert forall j :: 0 <= j < |r| ==> r[j].id != other;
  }

  lemma IndexOfIdFirst(lib: seq<Item>, id: Guid, k: nat)
    requires k < |lib| && lib[k].id == id
    requires forall j :: 0 <= j < k ==> lib[j].id != id
    ensures IndexOfId(lib, id) == Some(k)
  {
  }

  lemma LookupAppend(lib: seq<Item>, it: Item, other: Guid)
    requires it.id != other
    ensures Lookup(lib + [it], other) == Lookup(lib, other)
  {
    var r := lib + [it];
    match IndexOfId(lib, other)
    case Some(m) =>
      assert r[m] == lib[m];
      IndexOfIdFirst(r, other, m);
    case None =>
      assert forall j :: 0 <= j < |r| ==> r[j].id != other;
  }

  /**
   * `DeleteItem(it)` removes exactly the record with its Id and, for a stored
   * playlist folder, the records filed under it; the others stay, and Ids
   * stay unique.
   */
  lemma {:induction false} RemoveItemSpec(lib: seq<Item>, it: Item)
    ensures forall x :: x in RemoveItem(lib, it) <==> x in lib && !GoesWith(it, x)
    ensures UniqueIds(lib) ==> UniqueIds(RemoveItem(lib, it))
  {
    if lib != [] {
      RemoveItemSpec(lib[1..], it);
      assert lib == [lib[0]] + lib[1..];
      if UniqueIds(lib) {
        assert UniqueIds(lib[1..]);
        var r := RemoveItem(lib, it);
        if !GoesWith(it, lib[0]) {
          assert r == [lib[0]] + RemoveItem(lib[1..], it);
          forall i, j | 0 <= i < j < |r| ensures r[i].id != r[j].id {
            if i == 0 {
              assert r[j] in RemoveItem(lib[1..], it);
              assert r[j] in lib[1..];
            }
          }
        }
      }
    }
  }
}
