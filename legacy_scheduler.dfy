/**
 * The scheduled task of `MediaBrowser.Plugin.RemoteVideos/Scheduler/PlaylistLibrarySync.cs`
 * as a class whose fields are the effects it has on its host, as for the
 * current generation. Each method runs the loops of the source and is
 * proved to end in the state the functions of `LegacySync` describe, so the
 * lemmas proved there hold of these methods.
 */
module LegacyScheduler {
  import opened Wrappers
  import opened Platform
  import opened ItemStore
  import opened LegacyModels
  import opened TaskEffects
  import opened LegacySync

  class PlaylistLibrarySync {
    var library: seq<Item>
    var deletions: seq<Deletion>
    var updates: seq<Guid>
    var progress: seq<int>
    var scans: nat
    const env: Env

    /** A task over a host whose library holds `library`, before it has done anything. */
    constructor (env: Env, library: seq<Item>)
      ensures State() == SyncState(library, [], [], [], 0) && this.env == env
    {
      this.env := env;
      this.library := library;
      deletions := [];
      updates := [];
      progress := [];
      scans := 0;
    }

    /** The scheduled task's effects so far. */
    function State(): SyncState
      reads this
    {
      SyncState(library, deletions, updates, progress, scans)
    }

    /** `item.Delete(DeleteFileLocation = false)`. */
    method DeleteItem(it: Item)
      modifies this
      ensures State() == Delete(old(State()), it, false)
    {
      library := RemoveItem(library, it);
      deletions := deletions + [Deletion(it.id, false)];
    }

    /** The `foreach` over the delete list of `Cleanup`. */
    method DeleteItems(items: seq<Item>)
      modifies this
      ensures State() == DeleteAll(old(State()), items, false)
    {
      var i := 0;
      while i < |items|
        invariant i <= |items|
        invariant DeleteAll(State(), items[i..], false) == DeleteAll(old(State()), items, false)
      {
        assert items[i..][1..] == items[i + 1..];
        DeleteItem(items[i]);
        i := i + 1;
      }
    }

    /** `Cleanup()`: deletes the selected playlists, then the selected movies, keeping their files. */
    method Cleanup(playlists: seq<Item>)
      modifies this
      ensures State() == CleanupSpec(old(State()), playlists)
    {
      var deleteItems := CleanupTargets(playlists, library);
      DeleteItems(deleteItems);
    }

    /**
     * `RefreshMetaData(item)`: searches by name; `None` when the search
     * throws, otherwise the item with the first result's metadata and the
     * primary image added last, or as it was when there is no result.
     */
    method RefreshMetaData(it: Item) returns (r: Option<Item>)
      ensures r.None? <==> env.search(it.name).Throws?
      ensures r.Some? ==> r.value == Refreshed(it, env.search(it.name))
    {
      var meta := env.search(it.name);
      if meta.Throws? {
        return None;
      }
      if meta.NotFound? {
        return Some(it);
      }
      var metaResult := meta.result;
      var item := it.(name := metaResult.name, overview := metaResult.overview,
        premiereDate := metaResult.premiereDate, productionYear := metaResult.productionYear,
        providerIds := metaResult.providerIds);
      if metaResult.imageUrl.Some? {
        var imageInfos := if item.images.Some? then item.images.value else [];
        imageInfos := imageInfos + [ImageInfo(metaResult.imageUrl.value, Primary)];
        item := item.(images := Some(imageInfos));
      }
      return Some(item);
    }

    /** One turn of the entry loop of `SyncMedia`, inside its try block. */
    method SyncItem(playlist: Item, mediaItems: seq<Item>, existing: seq<Item>, j: nat) returns (existing': seq<Item>)
      requires j < |mediaItems|
      modifies this
      ensures ItemsRun(State(), existing') == ItemStep(old(State()), env, playlist, mediaItems, existing, j)
    {
      var media := mediaItems[j];
      var found := IndexOfIdentifier(existing, media.identifierId);
      existing' := existing;
      if found.Some? {
        // UPDATE: the known object merges the parsed one and writes itself back when its path changed.
        var existingMediaItem := new VodMovie();
        existingMediaItem.item := existing[found.value];
        var incoming := new VodMovie();
        incoming.item := media;
        var hasUpdate := existingMediaItem.Merge(incoming);
        if hasUpdate {
          library := Save(library, existingMediaItem.item);
          updates := updates + [existingMediaItem.item.id];
        }
        existing' := existing[found.value := existingMediaItem.item];
        // The metadata lands on the parsed object, which nothing stores.
        var discarded := RefreshMetaData(media);
      } else {
        // CREATE: the added object is the one the refresh then changes.
        media := media.(id := env.host.newItemId(FormatD(media.identifierId), "VodMovie"));
        library := AddChild(library, playlist.id, media);
        media := media.(parentId := playlist.id);
        var refreshed := RefreshMetaData(media);
        if refreshed.Some? {
          library := Save(library, refreshed.value);
        }
      }
    }

    /**
     * `SyncMedia(playlist)`: gets the parsed movies, then runs the entry
     * loop. A failed download or parse leaves as an exception before
     * anything changed; nothing is deleted and no progress is reported.
     */
    method SyncMedia(playlist: Item) returns (outcome: Outcome<SyncError>)
      modifies this
      ensures Run(State(), outcome) == SyncMediaSpec(old(State()), env, playlist)
    {
      var parsed := env.mediaItems(playlist);
      if parsed.Err? {
        return Fail(parsed.error);
      }
      var mediaItems := parsed.value;
      var existingMediaItems := ExistingMovies(library, mediaItems);
      var j := 0;
      while j < |mediaItems|
        invariant j <= |mediaItems|
        invariant ItemsFrom(State(), env, playlist, mediaItems, existingMediaItems, j) ==
          ItemsFrom(old(State()), env, playlist, mediaItems, ExistingMovies(old(library), mediaItems), 0)
      {
        existingMediaItems := SyncItem(playlist, mediaItems, existingMediaItems, j);
        j := j + 1;
      }
      return Pass;
    }

    /**
     * The first half of one turn of the playlist loop of `Execute`: report
     * progress, then merge a known playlist with itself or add a new one
     * under the root folder; the result is the playlist `SyncMedia` gets.
     */
    method SyncPlaylist(playlists: seq<Item>, existingPlaylists: seq<Item>, k: nat) returns (playlist: Item)
      requires k < |playlists|
      modifies this
      ensures Target(State(), playlist) == PlaylistPhase(old(State()), env, playlists, existingPlaylists, k)
    {
      playlist := playlists[k];
      progress := progress + [((k + 1) / |playlists|) * 100];
      var found := IndexOfIdentifier(existingPlaylists, playlist.identifierId);
      if found.Some? {
        // UPDATE: the playlist is merged with itself, which finds nothing to change or write.
        var existingPlaylist := new VodPlaylist(playlist.identifierId);
        existingPlaylist.item := existingPlaylists[found.value];
        var hasUpdate := existingPlaylist.Merge(existingPlaylist);
        MergeLegacyPlaylistSettles(existingPlaylists[found.value], existingPlaylists[found.value]);
      } else {
        // CREATE
        playlist := playlist.(id := env.host.newItemId(FormatD(playlist.identifierId), "VodPlaylist"));
        library := AddChild(library, env.rootId, playlist);
        playlist := playlist.(parentId := env.rootId);
      }
    }

    /** One turn of the playlist loop of `Execute`: the playlist, then its movies. */
    method SyncConfig(playlists: seq<Item>, existingPlaylists: seq<Item>, k: nat) returns (outcome: Outcome<SyncError>)
      requires k < |playlists|
      modifies this
      ensures Run(State(), outcome) == PlaylistStep(old(State()), env, playlists, existingPlaylists, k)
    {
      var playlist := SyncPlaylist(playlists, existingPlaylists, k);
      outcome := SyncMedia(playlist);
    }

    /** The playlist loop of `Execute`; an exception from `SyncMedia` ends it. */
    method SyncPlaylists(playlists: seq<Item>, existingPlaylists: seq<Item>) returns (outcome: Outcome<SyncError>)
      modifies this
      ensures Run(State(), outcome) == PlaylistsFrom(old(State()), env, playlists, existingPlaylists, 0)
    {
      outcome := Pass;
      var k := 0;
      while k < |playlists|
        invariant k <= |playlists| && outcome == Pass
        invariant PlaylistsFrom(State(), env, playlists, existingPlaylists, k) ==
          PlaylistsFrom(old(State()), env, playlists, existingPlaylists, 0)
      {
        ghost var before := State();
        outcome := SyncConfig(playlists, existingPlaylists, k);
        PlaylistsFromStep(before, env, playlists, existingPlaylists, k, Run(State(), outcome));
        if outcome.Fail? {
          return;
        }
        k := k + 1;
      }
    }

    /**
     * `Execute()`: cleans up, stops when no playlist is configured, and
     * otherwise merges or adds each playlist and syncs its movies, then
     * reports 100 and queues a library scan. An exception from `SyncMedia`
     * ends the run.
     */
    method Execute(playlists: seq<Item>) returns (outcome: Outcome<SyncError>)
      modifies this
      ensures Run(State(), outcome) == ExecuteSpec(old(State()), env, playlists)
    {
      ghost var st0 := State();
      Cleanup(playlists);
      if |playlists| == 0 {
        return Pass;
      }
      var existingPlaylists := ExistingPlaylists(playlists, library);
      outcome := SyncPlaylists(playlists, existingPlaylists);
      ExecuteAfterLoop(st0, env, playlists, Run(State(), outcome));
      if outcome.Fail? {
        return;
      }
      progress := progress + [100];
      scans := scans + 1;
    }
  }
}
