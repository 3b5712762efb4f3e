/**
 * The library item classes of the older plugin generation
 * (`MediaBrowser.Plugin.RemoteVideos/Models`): `VodPlaylist`, whose
 * `CollectionType` setter is guarded by the allow-list and whose `Merge`
 * copies the playlist URL and the source type, and `VodMovie`, whose `Merge`
 * copies the path together with the channel media sources.
 *
 * As in the current generation, an instance holds the item's properties as
 * one `Item` record plus its number of `UpdateToRepository` calls, and the
 * merge rules are pure functions on records that the legacy sync applies to
 * stored records.
 */
module LegacyModels {
  import opened Wrappers
  import opened Platform
  import opened ItemStore
  import opened PluginConfiguration

  // ---------------------------------------------------------------------------
  // VodPlaylist

  /** The record a `new VodPlaylist()` holds; `freshId` is what `Guid.NewGuid()` returned. */
  function NewLegacyPlaylist(freshId: Guid): (it: Item)
    ensures it.kind == VodPlaylistItem && it.id == EmptyGuid && it.identifierId == freshId
    ensures it.sourceType == Library && it.channelId == PluginId
  {
    BlankItem(VodPlaylistItem).(identifierId := freshId, sourceType := Library, channelId := PluginId)
  }

  /** `Merge(remote)` reports an update when the PlaylistUrl or the SourceType differs. */
  predicate LegacyPlaylistMergeUpdates(self: Item, remote: Item) {
    remote.playlistUrl != self.playlistUrl || remote.sourceType != self.sourceType
  }

  /** The playlist `Merge(remote)` leaves behind: it takes the remote's PlaylistUrl and SourceType and nothing else. */
  function MergeLegacyPlaylist(self: Item, remote: Item): (r: Item)
    ensures r.playlistUrl == remote.playlistUrl && r.sourceType == remote.sourceType
    ensures r.(playlistUrl := self.playlistUrl, sourceType := self.sourceType) == self
    ensures !LegacyPlaylistMergeUpdates(self, remote) ==> r == self
  {
    var r := if remote.playlistUrl != self.playlistUrl then self.(playlistUrl := remote.playlistUrl) else self;
    if remote.sourceType != r.sourceType then r.(sourceType := remote.sourceType) else r
  }

  /**
   * Unlike the current generation's, this merge settles: a second merge with
   * the same remote reports no update, and merging a playlist with itself
   * reports none and changes nothing.
   */
  lemma MergeLegacyPlaylistSettles(self: Item, remote: Item)
    ensures !LegacyPlaylistMergeUpdates(MergeLegacyPlaylist(self, remote), remote)
    ensures MergeLegacyPlaylist(MergeLegacyPlaylist(self, remote), remote) == MergeLegacyPlaylist(self, remote)
    ensures !LegacyPlaylistMergeUpdates(self, self) && MergeLegacyPlaylist(self, self) == self
  {
  }

  /** `MediaBrowser.Plugin.RemoteVideos/Models/VodPlaylist.cs`: a playlist folder of the older plugin. */
  class VodPlaylist {
    var item: Item
    var collectionType: Option<string>
    var repositoryWrites: nat

    /** `new VodPlaylist()`: a fresh IdentifierId, SourceType Library and the plugin's channel id. */
    constructor (freshId: Guid)
      ensures item.identifierId == freshId && item.sourceType == Library && item.channelId == PluginId
      ensures item == NewLegacyPlaylist(freshId) && collectionType == None && repositoryWrites == 0
    {
      item := NewLegacyPlaylist(freshId);
      collectionType := None;
      repositoryWrites := 0;
    }

    /**
     * The `CollectionType` setter: an allow-listed value is stored; any other
     * value throws `ArgumentException` and the old value stays.
     */
    method SetCollectionType(value: Option<string>) returns (r: Outcome<string>)
      modifies this
      ensures r.Pass? <==> IsAllowedCollectionType(value)
      ensures r.Pass? ==> collectionType == value
      ensures r.Fail? ==> collectionType == old(collectionType) && r.error == InvalidCollectionType
      ensures item == old(item) && repositoryWrites == old(repositoryWrites)
    {
      if !IsAllowedCollectionType(value) {
        return Fail(InvalidCollectionType);
      }
      collectionType := value;
      return Pass;
    }

    /**
     * `Merge(remote)`: copies a differing PlaylistUrl and a differing
     * SourceType, writes the item to the repository when either differed and
     * says whether it did.
     */
    method Merge(remote: VodPlaylist) returns (hasUpdate: bool)
      modifies this
      ensures hasUpdate <==> LegacyPlaylistMergeUpdates(old(item), old(remote.item))
      ensures item == MergeLegacyPlaylist(old(item), old(remote.item))
      ensures repositoryWrites == old(repositoryWrites) + (if hasUpdate then 1 else 0)
      ensures collectionType == old(collectionType)
    {
      hasUpdate := false;
      var r := remote.item;
      if r.playlistUrl != item.playlistUrl {
        hasUpdate := true;
        item := item.(playlistUrl := r.playlistUrl);
      }
      if r.sourceType != item.sourceType {
        hasUpdate := true;
        item := item.(sourceType := r.sourceType);
      }
      if hasUpdate {
        repositoryWrites := repositoryWrites + 1;
      }
    }
  }

  // ---------------------------------------------------------------------------
  // VodMovie

  /** `Merge(vodMovie)` reports an update exactly when the paths differ. */
  predicate LegacyMovieMergeUpdates(self: Item, other: Item) {
    other.path != self.path
  }

  /**
   * The movie `Merge(vodMovie)` leaves behind: with a differing path it takes
   * the other's path and its channel media sources; otherwise it is unchanged.
   */
  function MergeLegacyMovie(self: Item, other: Item): (r: Item)
    ensures r.path == other.path
    ensures LegacyMovieMergeUpdates(self, other) ==> r.channelMediaSources == other.channelMediaSources
    ensures !LegacyMovieMergeUpdates(self, other) ==> r == self
    ensures r.(path := self.path, channelMediaSources := self.channelMediaSources) == self
  {
    if LegacyMovieMergeUpdates(self, other) then
      self.(path := other.path, channelMediaSources := other.channelMediaSources)
    else self
  }

  /** A second merge with the same movie reports no update and changes nothing. */
  lemma MergeLegacyMovieSettles(self: Item, other: Item)
    ensures !LegacyMovieMergeUpdates(MergeLegacyMovie(self, other), other)
    ensures MergeLegacyMovie(MergeLegacyMovie(self, other), other) == MergeLegacyMovie(self, other)
  {
  }

  /** `MediaBrowser.Plugin.RemoteVideos/Models/VodMovie.cs`: a movie item of the older plugin. */
  class VodMovie {
    var item: Item
    var repositoryWrites: nat

    /** `new VodMovie()`: a video file, no default stream (-1), not virtual. */
    constructor ()
      ensures item.kind == VodMovieItem && item.id == EmptyGuid && item.videoType == VideoFile
      ensures item.defaultVideoStreamIndex == Some(-1) && !item.isVirtualItem
      ensures repositoryWrites == 0
    {
      item := BlankItem(VodMovieItem).(videoType := VideoFile, defaultVideoStreamIndex := Some(-1), isVirtualItem := false);
      repositoryWrites := 0;
    }

    /**
     * `Merge(vodMovie)`: with a differing path copies the path and the
     * channel media sources and writes the item to the repository; says
     * whether it did.
     */
    method Merge(other: VodMovie) returns (hasUpdate: bool)
      modifies this
      ensures hasUpdate <==> old(item.path) != old(other.item.path)
      ensures item == MergeLegacyMovie(old(item), old(other.item))
      ensures repositoryWrites == old(repositoryWrites) + (if hasUpdate then 1 else 0)
    {
      hasUpdate := false;
      if other.item.path != item.path {
        hasUpdate := true;
        item := item.(path := other.item.path, channelMediaSources := other.item.channelMediaSources);
      }
      if hasUpdate {
        repositoryWrites := repositoryWrites + 1;
      }
    }
  }
}
