/**
 * The scheduled task of `Project/Scheduler/PlaylistLibrarySync.cs` as a
 * class whose fields are the effects it has on its host: the library
 * records, the delete requests, the repository writes, the progress values
 * reported and the library scans queued. Each method runs the loops of the
 * source and is proved to end in the state the functions of `ProjectSync`
 * describe, so the lemmas proved there hold of these methods.
 */
module ProjectScheduler {
  import opened Wrappers
  import opened Platform
  import opened ItemStore
  import opened ProjectModels
  import opened ProjectMedia
  import opened M3UParser
  import opened TaskEffects
  import opened ProjectSync

  class PlaylistLibrarySync {
    var library: seq<Item>
    var deletions: seq<Deletion>
    var updates: seq<Guid>
    var progress: seq<int>
    var scans: nat
    const env: Env

    /** A task over a host whose library holds `library`, before it has done anything. */
    constructor (env: Env, library: seq<Item>)
      ensures State() == SyncState(library, [], [], [], 0) && this.env == env
    {
      this.env := env;
      this.library := library;
      deletions := [];
      updates := [];
      progress := [];
      scans := 0;
    }

    /** The scheduled task's effects so far. */
    function State(): SyncState
      reads this
    {
      SyncState(library, deletions, updates, progress, scans)
    }

    /** `_libraryManager.DeleteItem(item, DeleteFileLocation = true)`. */
    method DeleteItem(it: Item)
      modifies this
      ensures State() == Delete(old(State()), it, true)
    {
      library := RemoveItem(library, it);
      deletions := deletions + [Deletion(it.id, true)];
    }

    /** Deletes the items one after the other (the `foreach` over a delete list). */
    method DeleteItems(items: seq<Item>)
      modifies this
      ensures State() == DeleteAll(old(State()), items, true)
    {
      var i := 0;
      while i < |items|
        invariant i <= |items|
        invariant DeleteAll(State(), items[i..], true) == DeleteAll(old(State()), items, true)
      {
        assert items[i..][1..] == items[i + 1..];
        DeleteItem(items[i]);
        i := i + 1;
      }
    }

    /** `Cleanup(playlists)`: deletes the selected playlists, then the selected movies. */
    method Cleanup(configs: seq<ConfigSnapshot>)
      modifies this
      ensures State() == CleanupSpec(old(State()), configs)
    {
      var deleteItems := CleanupTargets(configs, library);
      DeleteItems(deleteItems);
    }

    /**
     * `RefreshMetaData(item)`: searches by name; `None` when the search
     * throws, otherwise the item with the first result's metadata, or as it
     * was when there is no result.
     */
    method RefreshMetaData(it: Item) returns (r: Option<Item>)
      ensures r.None? <==> env.search(it.name).Throws?
      ensures r.Some? ==> r.value == Refreshed(it, env.search(it.name))
    {
      var meta := env.search(it.name);
      if meta.Throws? {
        return None;
      }
      if meta.NotFound? {
        return Some(it);
      }
      var metaResult := meta.result;
      var item := it.(name := metaResult.name, overview := metaResult.overview,
        premiereDate := metaResult.premiereDate, productionYear := metaResult.productionYear,
        providerIds := metaResult.providerIds);
      if metaResult.imageUrl.Some? {
        var newImages := [ImageInfo(metaResult.imageUrl.value, Primary)];
        if item.images.Some? {
          newImages := newImages + item.images.value;
        } else {
          assert newImages == newImages + [];
        }
        item := item.(images := Some(newImages));
      }
      assert item == Enrich(it, metaResult);
      return Some(item);
    }

    /** One turn of the entry loop of `SyncMedia`. */
    method SyncItem(playlist: Item, mediaItems: seq<Media>, existing: seq<Item>, j: nat) returns (existing': seq<Item>)
      requires j < |mediaItems|
      modifies this
      ensures ItemsRun(State(), existing') == ItemStep(old(State()), env, playlist, mediaItems, existing, j)
    {
      progress := progress + [((j + 1) / |mediaItems|) * 100];
      var vodItem := ToVodItem(env.host, mediaItems[j]);
      var found := IndexOfIdentifier(existing, vodItem.identifierId);
      existing' := existing;
      if found.Some? {
        // UPDATE: merge into the known object, which writes itself back when its path changed.
        var existingMediaItem := new VodMovie();
        existingMediaItem.item := existing[found.value];
        var incoming := new VodMovie();
        incoming.item := vodItem;
        var hasUpdate := existingMediaItem.Merge(incoming);
        if hasUpdate {
          library := Save(library, existingMediaItem.item);
          updates := updates + [existingMediaItem.item.id];
        }
        existing' := existing[found.value := existingMediaItem.item];
        var discarded := RefreshMetaData(vodItem);
      } else {
        // CREATE: add under the playlist, then refresh and save.
        vodItem := vodItem.(id := env.host.newItemId(FormatD(vodItem.identifierId), "VodMovie"));
        vodItem := vodItem.(parentId := playlist.id);
        library := Save(library, vodItem);
        var refreshed := RefreshMetaData(vodItem);
        if refreshed.Some? {
          library := Save(library, refreshed.value);
        }
      }
    }

    /**
     * `SyncMedia(playlist)`: downloads and parses the playlist, deletes the
     * playlist's movies the remote no longer lists under StrictSync, runs
     * the entry loop and reports 100. A failed download or a parse error
     * leaves as an exception before anything changed.
     */
    method SyncMedia(c: ConfigSnapshot, playlist: Item) returns (outcome: Outcome<SyncError>)
      modifies this
      ensures Run(State(), outcome) == SyncMediaSpec(old(State()), env, c, playlist)
    {
      var lines := env.fetch(playlist.playlistUrl);
      if lines.None? {
        return Fail(FetchFailed(playlist.playlistUrl));
      }
      var parsed := GetMediaItems(lines.value, playlist.id, env.host);
      if parsed.Err? {
        return Fail(ParseFailed(parsed.error));
      }
      var mediaItems := parsed.value;
      assert FetchMedia(env, playlist) == Ok(mediaItems);
      var ids := IdentifierIds(env.host, mediaItems);
      var existingMediaItems := ExistingMovies(library, ids);
      if c.strictSync {
        var deleteLocally := StaleChildren(library, playlist.id, ids);
        DeleteItems(deleteLocally);
      }
      ghost var start := State();
      var j := 0;
      while j < |mediaItems|
        invariant j <= |mediaItems|
        invariant ItemsFrom(State(), env, playlist, mediaItems, existingMediaItems, j) ==
          ItemsFrom(start, env, playlist, mediaItems, ExistingMovies(old(library), ids), 0)
      {
        existingMediaItems := SyncItem(playlist, mediaItems, existingMediaItems, j);
        j := j + 1;
      }
      progress := progress + [100];
      return Pass;
    }

    /**
     * The first half of one turn of the config loop of `Execute`: report
     * progress, then merge a known playlist with itself or create a new one
     * under the root folder; the result is the playlist `SyncMedia` gets.
     */
    method SyncPlaylist(configs: seq<ConfigSnapshot>, existingPlaylists: seq<Item>, k: nat) returns (playlist: Item)
      requires k < |configs|
      modifies this
      ensures Target(State(), playlist) == PlaylistPhase(old(State()), env, configs, existingPlaylists, k)
    {
      playlist := PlaylistOf(configs[k]);
      progress := progress + [((k + 1) / |configs|) * 100];
      var found := IndexOfIdentifier(existingPlaylists, playlist.identifierId);
      if found.Some? {
        // UPDATE: the playlist is merged with itself, which finds nothing to change or write.
        var existingPlaylist := new VodPlaylist(playlist.identifierId);
        existingPlaylist.item := existingPlaylists[found.value];
        var hasUpdate := existingPlaylist.Merge(existingPlaylist);
        MergePlaylistSelf(existingPlaylists[found.value]);
      } else {
        // CREATE
        playlist := playlist.(id := env.host.newItemId(FormatD(playlist.identifierId), "VodPlaylist"));
        playlist := playlist.(parentId := env.rootId);
        library := Save(library, playlist);
      }
    }

    /** One turn of the config loop of `Execute`: the playlist, then its entries. */
    method SyncConfig(configs: seq<ConfigSnapshot>, existingPlaylists: seq<Item>, k: nat) returns (outcome: Outcome<SyncError>)
      requires k < |configs|
      modifies this
      ensures Run(State(), outcome) == ConfigStep(old(State()), env, configs, existingPlaylists, k)
    {
      var playlist := SyncPlaylist(configs, existingPlaylists, k);
      outcome := SyncMedia(configs[k], playlist);
    }

    /** The config loop of `Execute`; an exception from `SyncMedia` ends it. */
    method SyncPlaylists(configs: seq<ConfigSnapshot>, existingPlaylists: seq<Item>) returns (outcome: Outcome<SyncError>)
      modifies this
      ensures Run(State(), outcome) == ConfigsFrom(old(State()), env, configs, existingPlaylists, 0)
    {
      hide ConfigsFrom, ConfigStep;
      outcome := Pass;
      var k := 0;
      while k < |configs|
        invariant k <= |configs| && outcome == Pass
        invariant ConfigsFrom(State(), env, configs, existingPlaylists, k) ==
          ConfigsFrom(old(State()), env, configs, existingPlaylists, 0)
      {
        ghost var before := State();
        outcome := SyncConfig(configs, existingPlaylists, k);
        ConfigsFromStep(before, env, configs, existingPlaylists, k, Run(State(), outcome));
        if outcome.Fail? {
          return;
        }
        k := k + 1;
      }
      ConfigsFromEnd(State(), env, configs, existingPlaylists);
    }

    /**
     * `Execute()`: cleans up, stops when nothing is configured, and otherwise
     * merges or creates each configured playlist and syncs its entries, then
     * reports 100 and queues a library scan. An exception from `SyncMedia`
     * ends the run.
     */
    method Execute(configs: seq<ConfigSnapshot>) returns (outcome: Outcome<SyncError>)
      modifies this
      ensures Run(State(), outcome) == ExecuteSpec(old(State()), env, configs)
    {
      ghost var st0 := State();
      Cleanup(configs);
      if |configs| == 0 {
        return Pass;
      }
      var existingPlaylists := ExistingPlaylists(configs, library);
      outcome := SyncPlaylists(configs, existingPlaylists);
      ExecuteAfterLoop(st0, env, configs, Run(State(), outcome));
      if outcome.Fail? {
        return;
      }
      progress := progress + [100];
      scans := scans + 1;
    }
  }
}
