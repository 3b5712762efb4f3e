/**
 * The library item classes of the current plugin, `VodPlaylist` and
 * `VodMovie`, and the `PlaylistConfig` entity that turns into a `VodPlaylist`.
 * They share a module because a playlist keeps a reference to its config and
 * a config builds playlists.
 *
 * An instance of a host item class holds the item's properties as one
 * `Item` record (`item`) plus the number of `UpdateToRepository` calls it has
 * made (`repositoryWrites`). The merge rules are pure functions on records,
 * so the library synchronisation applies the same rules to stored records.
 */
module ProjectModels {
  import opened Wrappers
  import opened Platform
  import opened ItemStore
  import opened PluginConfiguration

  // ---------------------------------------------------------------------------
  // VodMovie

  /** The record a `new VodMovie()` holds. */
  function NewVodMovie(): (it: Item)
    ensures it.kind == VodMovieItem && it.id == EmptyGuid && it.images == None
    ensures it.videoType == VideoFile && it.defaultVideoStreamIndex == Some(-1) && !it.isVirtualItem
  {
    BlankItem(VodMovieItem).(videoType := VideoFile, defaultVideoStreamIndex := Some(-1), isVirtualItem := false)
  }

  /** `VodMovie.Merge(other)` reports an update exactly when the paths differ. */
  predicate MovieMergeUpdates(self: Item, other: Item) {
    other.path != self.path
  }

  /** The movie `VodMovie.Merge(other)` leaves behind: it takes the other's path. */
  function MergeMovie(self: Item, other: Item): (r: Item)
    ensures r.path == other.path
    ensures r.(path := self.path) == self
  {
    if MovieMergeUpdates(self, other) then self.(path := other.path) else self
  }

  /** With equal paths a merge changes nothing; a second merge with the same movie reports no update. */
  lemma MergeMovieIdempotent(self: Item, other: Item)
    ensures !MovieMergeUpdates(self, other) ==> MergeMovie(self, other) == self
    ensures !MovieMergeUpdates(MergeMovie(self, other), other)
    ensures MergeMovie(MergeMovie(self, other), other) == MergeMovie(self, other)
  {
  }

  /** `Project/Models/VodMovie.cs`: a movie item of the plugin. */
  class VodMovie {
    var item: Item
    var repositoryWrites: nat

    /** `new VodMovie()`. */
    constructor ()
      ensures item.kind == VodMovieItem && item.videoType == VideoFile
      ensures item.defaultVideoStreamIndex == Some(-1) && !item.isVirtualItem
      ensures item == NewVodMovie() && repositoryWrites == 0
    {
      item := NewVodMovie();
      repositoryWrites := 0;
    }

    /**
     * `Merge(vodMovie)`: copies a differing path, writes the item to the
     * repository when something changed and says whether it did.
     */
    method Merge(other: VodMovie) returns (hasUpdate: bool)
      modifies this
      ensures hasUpdate <==> old(item.path) != old(other.item.path)
      ensures item == MergeMovie(old(item), old(other.item))
      ensures item.path == old(other.item.path)
      ensures repositoryWrites == old(repositoryWrites) + (if hasUpdate then 1 else 0)
    {
      hasUpdate := false;
      if other.item.path != item.path {
        hasUpdate := true;
        item := item.(path := other.item.path);
      }
      if hasUpdate {
        repositoryWrites := repositoryWrites + 1;
      }
    }
  }

  // ---------------------------------------------------------------------------
  // VodPlaylist

  /** What `VodPlaylist.CollectionType` always answers. */
  const PlaylistCollectionType: string := "VodMovie"

  /** The record a `new VodPlaylist()` holds; `freshId` is what `Guid.NewGuid()` returned. */
  function NewVodPlaylist(freshId: Guid): (it: Item)
    ensures it.kind == VodPlaylistItem && it.id == EmptyGuid && it.identifierId == freshId
    ensures it.sourceType == Library && !it.isVirtualItem && it.isHidden
  {
    BlankItem(VodPlaylistItem).(identifierId := freshId, sourceType := Library, isVirtualItem := false, isHidden := true)
  }

  /** `VodPlaylist.Merge(remote)` reports an update when IsHidden, PlaylistUrl or SourceType differ. */
  predicate PlaylistMergeUpdates(self: Item, remote: Item) {
    remote.isHidden != self.isHidden || remote.playlistUrl != self.playlistUrl || remote.sourceType != self.sourceType
  }

  /**
   * The playlist `VodPlaylist.Merge(remote)` leaves behind: it takes the
   * remote's IsHidden and PlaylistUrl. The SourceType is compared but never
   * copied.
   */
  function MergePlaylist(self: Item, remote: Item): (r: Item)
    ensures r.isHidden == remote.isHidden && r.playlistUrl == remote.playlistUrl
    ensures r.sourceType == self.sourceType
    ensures r.(isHidden := self.isHidden, playlistUrl := self.playlistUrl) == self
  {
    var r := if remote.isHidden != self.isHidden then self.(isHidden := remote.isHidden) else self;
    if remote.playlistUrl != r.playlistUrl then r.(playlistUrl := remote.playlistUrl) else r
  }

  /** Merging a playlist with itself reports no update and changes nothing. */
  lemma MergePlaylistSelf(p: Item)
    ensures !PlaylistMergeUpdates(p, p) && MergePlaylist(p, p) == p
  {
  }

  /**
   * A playlist merge is not idempotent: when the SourceTypes differ a second
   * merge with the same remote reports an update again, because the field is
   * never copied. When they agree, the second merge reports none.
   */
  lemma MergePlaylistRepeat(self: Item, remote: Item)
    ensures PlaylistMergeUpdates(MergePlaylist(self, remote), remote) <==> remote.sourceType != self.sourceType
  {
  }

  /** `Project/Entities/PlaylistConfig.cs` as plain values, the form the sync reads them in. */
  datatype ConfigSnapshot = ConfigSnapshot(
    name: string,
    url: string,
    userId: string,
    collectionType: Option<string>,
    identifierId: Guid,
    createLocalCollection: bool,
    strictSync: bool)

  /**
   * `config.ToPlaylist()`: a new playlist carrying the config's UserId, Name,
   * Url (as PlaylistUrl) and IdentifierId, hidden when no local collection is
   * wanted. The config's CollectionType is not carried over.
   */
  function PlaylistOf(c: ConfigSnapshot): (p: Item)
    ensures p.kind == VodPlaylistItem && p.id == EmptyGuid
    ensures p.userId == c.userId && p.name == c.name && p.playlistUrl == c.url
    ensures p.identifierId == c.identifierId
    ensures p.isHidden == !c.createLocalCollection
    ensures p.sourceType == Library && !p.isVirtualItem
  {
    NewVodPlaylist(c.identifierId).(userId := c.userId, name := c.name, playlistUrl := c.url,
      identifierId := c.identifierId, isHidden := !c.createLocalCollection)
  }

  /** `Project/Models/VodPlaylist.cs`: a playlist folder of the plugin. */
  class VodPlaylist {
    var item: Item
    var config: PlaylistConfig?
    var repositoryWrites: nat

    /** `new VodPlaylist()`; `freshId` is what `Guid.NewGuid()` returned. */
    constructor (freshId: Guid)
      ensures item.identifierId == freshId && item.sourceType == Library
      ensures !item.isVirtualItem && item.isHidden
      ensures item == NewVodPlaylist(freshId) && config == null && repositoryWrites == 0
    {
      item := NewVodPlaylist(freshId);
      config := null;
      repositoryWrites := 0;
    }

    /** `CollectionType` always reads "VodMovie", whatever the config said. */
    function CollectionType(): (t: string)
      ensures t == PlaylistCollectionType
    {
      PlaylistCollectionType
    }

    /**
     * `Merge(remote)`: copies a differing IsHidden and PlaylistUrl, notes a
     * differing SourceType without copying it, writes the item to the
     * repository when anything differed and says whether it did.
     */
    method Merge(remote: VodPlaylist) returns (hasUpdate: bool)
      modifies this
      ensures hasUpdate <==> PlaylistMergeUpdates(old(item), old(remote.item))
      ensures item == MergePlaylist(old(item), old(remote.item))
      ensures repositoryWrites == old(repositoryWrites) + (if hasUpdate then 1 else 0)
      ensures config == old(config)
    {
      hasUpdate := false;
      var r := remote.item;
      if r.isHidden != item.isHidden {
        hasUpdate := true;
        item := item.(isHidden := r.isHidden);
      }
      if r.playlistUrl != item.playlistUrl {
        hasUpdate := true;
        item := item.(playlistUrl := r.playlistUrl);
      }
      if r.sourceType != item.sourceType {
        hasUpdate := true;
      }
      if hasUpdate {
        repositoryWrites := repositoryWrites + 1;
      }
    }
  }

  /**
   * `VodPlaylist.GetInternalMetadataPath(basePath, id)` (and the identical
   * `VodMovie` one): base, "channels", the id as 32 hex digits, "metadata".
   */
  function GetInternalMetadataPath(style: PathStyle, basePath: string, id: Guid): string {
    Combine(style, Combine(style, Combine(style, basePath, "channels"), FormatN(id)), "metadata")
  }

  /**
   * For a non-empty base path the metadata path is the base, a separator
   * unless the base already ends in one, then `channels/<id>/metadata`.
   */
  lemma MetadataPathLayout(style: PathStyle, basePath: string, id: Guid)
    requires basePath != []
    ensures var sep := [style.DirectorySeparator()];
      var head := if style.IsSeparator(basePath[|basePath| - 1]) then basePath else basePath + sep;
      GetInternalMetadataPath(style, basePath, id) == head + "channels" + sep + FormatN(id) + sep + "metadata"
  {
    FormatNShape(id);
    var sep := [style.DirectorySeparator()];
    var c1 := Combine(style, basePath, "channels");
    assert c1[|c1| - 1] == 's';
    var c2 := Combine(style, c1, FormatN(id));
    assert FormatN(id)[0] != '/' && FormatN(id)[0] != '\\' by {
      assert IsHexDigit(FormatN(id)[0]);
    }
    assert c2 == c1 + sep + FormatN(id);
    assert IsHexDigit(c2[|c2| - 1]);
  }

  /** Distinct ids get distinct metadata directories. */
  lemma MetadataPathDistinct(style: PathStyle, basePath: string, id1: Guid, id2: Guid)
    requires basePath != [] && id1 != id2
    ensures GetInternalMetadataPath(style, basePath, id1) != GetInternalMetadataPath(style, basePath, id2)
  {
    MetadataPathLayout(style, basePath, id1);
    MetadataPathLayout(style, basePath, id2);
    FormatNInjective(id1, id2);
    FormatNShape(id1);
    FormatNShape(id2);
    var sep := [style.DirectorySeparator()];
    var head := if style.IsSeparator(basePath[|basePath| - 1]) then basePath else basePath + sep;
    var p1 := GetInternalMetadataPath(style, basePath, id1);
    var p2 := GetInternalMetadataPath(style, basePath, id2);
    var off := |head| + |"channels"| + 1;
    assert p1[off..off + 32] == FormatN(id1);
    assert p2[off..off + 32] == FormatN(id2);
  }

  // ---------------------------------------------------------------------------
  // PlaylistConfig

  /** `Project/Entities/PlaylistConfig.cs`: one configured remote playlist. */
  class PlaylistConfig {
    var collectionType: Option<string>
    var createLocalCollection: bool
    var strictSync: bool
    var name: string
    var url: string
    var userId: string
    var identifierId: Guid

    /** `new PlaylistConfig()`; `freshId` is what `Guid.NewGuid()` returned. */
    constructor (freshId: Guid)
      ensures identifierId == freshId && createLocalCollection && !strictSync
      ensures collectionType == None && name == "" && url == "" && userId == ""
    {
      identifierId := freshId;
      createLocalCollection := true;
      strictSync := false;
      collectionType := None;
      name := "";
      url := "";
      userId := "";
    }

    /** The config's properties as values. */
    function Snapshot(): ConfigSnapshot
      reads this
    {
      ConfigSnapshot(name, url, userId, collectionType, identifierId, createLocalCollection, strictSync)
    }

    /**
     * The `CollectionType` setter: an allow-listed value is stored; any other
     * value (null included) throws `ArgumentException` and the old value stays.
     */
    method SetCollectionType(value: Option<string>) returns (r: Outcome<string>)
      modifies this
      ensures r.Pass? <==> IsAllowedCollectionType(value)
      ensures r.Pass? ==> collectionType == value
      ensures r.Fail? ==> collectionType == old(collectionType) && r.error == InvalidCollectionType
      ensures name == old(name) && url == old(url) && userId == old(userId) && identifierId == old(identifierId)
      ensures createLocalCollection == old(createLocalCollection) && strictSync == old(strictSync)
    {
      if !IsAllowedCollectionType(value) {
        return Fail(InvalidCollectionType);
      }
      collectionType := value;
      return Pass;
    }

    /**
     * `ToPlaylist()`: a new playlist object (built by `new VodPlaylist()`,
     * whose fresh identifier is then overwritten) that links back to this
     * config.
     */
    method ToPlaylist(freshId: Guid) returns (p: VodPlaylist)
      ensures fresh(p) && p.config == this && p.repositoryWrites == 0
      ensures p.item == PlaylistOf(Snapshot())
      ensures p.item.isHidden == !createLocalCollection && p.CollectionType() == "VodMovie"
    {
      p := new VodPlaylist(freshId);
      p.item := p.item.(userId := userId, name := name, playlistUrl := url,
        identifierId := identifierId, isHidden := !createLocalCollection);
      p.config := this;
    }
  }
}
