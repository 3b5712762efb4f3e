/**
 * `MediaBrowser.Plugin.RemoteVideos/Scheduler/PlaylistLibrarySync.cs`: the
 * older generation of the scheduled library sync.
 *
 * It differs from the current one in these ways. Its cleanup rules have no
 * special case for an empty playlist list. It deletes without removing files.
 * Its `SyncMedia` has no StrictSync deletion and reports no progress of its
 * own. It refreshes metadata for every entry inside the per-entry try block.
 * Its enrichment appends the primary image instead of putting it first.
 *
 * The playlists are the `VodPlaylist` records `Plugin.GetPlaylists()` builds
 * from the configuration. The parser call is an input of the `Env`: this file
 * reads its result as movie records (`List<VodMovie>`), while the parser of
 * this generation declares `List<Media>`; the two do not fit together.
 */
module LegacySync {
  import opened Wrappers
  import opened Platform
  import opened ItemStore
  import opened LegacyModels
  import opened TaskEffects

  /**
   * The host as the older task sees it: the item-id services, the parsed
   * movies of a playlist (or the exception the download or the parse
   * throws), the metadata search by name, and the Id of the user root folder.
   */
  datatype Env = Env(
    host: Host,
    mediaItems: Item -> Result<seq<Item>, SyncError>,
    search: string -> Search,
    rootId: Guid)

  // ---------------------------------------------------------------------------
  // Cleanup

  /** Some configured playlist carries this IdentifierId. */
  predicate HasPlaylistFor(playlists: seq<Item>, id: Guid) {
    exists i :: 0 <= i < |playlists| && playlists[i].identifierId == id
  }

  /** The playlist filter of `Cleanup`. */
  predicate PlaylistToDelete(playlists: seq<Item>, p: Item) {
    p.kind == VodPlaylistItem && (p.id == EmptyGuid || p.identifierId == EmptyGuid || !HasPlaylistFor(playlists, p.identifierId))
  }

  /** The movie filter of `Cleanup`, as written: it compares a playlist's IdentifierId with the movie's ParentId. */
  predicate MovieToDelete(playlists: seq<Item>, m: Item) {
    m.kind == VodMovieItem && (m.id == EmptyGuid || m.identifierId == EmptyGuid || HasPlaylistFor(playlists, m.parentId))
  }

  /** `deleteItems`: the selected playlists, then the selected movies, in library order. */
  function CleanupTargets(playlists: seq<Item>, lib: seq<Item>): (r: seq<Item>)
    ensures forall it :: it in r <==> it in lib && (PlaylistToDelete(playlists, it) || MovieToDelete(playlists, it))
  {
    Where(lib, (p: Item) => PlaylistToDelete(playlists, p)) + Where(lib, (m: Item) => MovieToDelete(playlists, m))
  }

  /** `Cleanup()`: each selected item is deleted without its files. */
  function CleanupSpec(st: SyncState, playlists: seq<Item>): SyncState {
    DeleteAll(st, CleanupTargets(playlists, st.library), false)
  }
  /**
   * A record filed under a stored playlist that `Cleanup` deletes: the host
   * deletes it together with that folder.
   */
  predicate UnderDeletedPlaylist(playlists: seq<Item>, lib: seq<Item>, x: Item) {
    exists p :: p in lib && PlaylistToDelete(playlists, p) && p.id != EmptyGuid && x.parentId == p.id
  }


  /**
   * After `Cleanup` the library holds exactly the records it held that
   * neither filter selects and that no deleted playlist folder held, and one
   * delete request without file removal was made per selected item. With no
   * playlists configured every plugin playlist goes. The movie filter then
   * keeps a movie whose Id and IdentifierId are both set, but such a movie
   * stays only when it is not filed under a stored playlist: it goes with
   * its folder.
   */
  lemma CleanupEffect(st: SyncState, playlists: seq<Item>)
    requires UniqueIds(st.library)
    ensures var r := CleanupSpec(st, playlists);
      && UniqueIds(r.library)
      && (forall it :: it in r.library <==>
            && it in st.library && !PlaylistToDelete(playlists, it) && !MovieToDelete(playlists, it)
            && !UnderDeletedPlaylist(playlists, st.library, it))
      && r.deletions == st.deletions + DeletionsOf(CleanupTargets(playlists, st.library), false)
      && r.updates == st.updates && r.progress == st.progress && r.scans == st.scans
    ensures |playlists| == 0 ==> forall it :: it in CleanupSpec(st, playlists).library ==> it.kind != VodPlaylistItem
    ensures |playlists| == 0 ==> forall it :: it in st.library && it.kind == VodMovieItem && it.id != EmptyGuid && it.identifierId != EmptyGuid ==>
      (it in CleanupSpec(st, playlists).library <==>
         forall p :: p in st.library && p.kind == VodPlaylistItem && p.id != EmptyGuid ==> it.parentId != p.id)
  {
    var targets := CleanupTargets(playlists, st.library);
    DeleteAllRequests(st, targets, false);
    DeleteAllLibrary(st, targets, false);
    forall it | it in st.library
      ensures GoneWith(targets, it) <==>
        PlaylistToDelete(playlists, it) || MovieToDelete(playlists, it) || UnderDeletedPlaylist(playlists, st.library, it)
    {
      if GoneWith(targets, it) {
        var i :| 0 <= i < |targets| && GoesWith(targets[i], it);
        var t := targets[i];
        assert t in targets;
        if it.id == t.id {
          SameIdSameRecord(st.library, t, it);
        } else {
          assert t in st.library && PlaylistToDelete(playlists, t) && t.id != EmptyGuid && it.parentId == t.id;
        }
      }
      if PlaylistToDelete(playlists, it) || MovieToDelete(playlists, it) {
        GoneWithMember(targets, it, it);
      }
      if UnderDeletedPlaylist(playlists, st.library, it) {
        var p :| p in st.library && PlaylistToDelete(playlists, p) && p.id != EmptyGuid && it.parentId == p.id;
        GoneWithMember(targets, p, it);
      }
    }
  }

  // ---------------------------------------------------------------------------
  // RefreshMetaData

  /**
   * `RefreshMetaData(item)` with a first result: the item takes the result's
   * Name, Overview, PremiereDate, ProductionYear and ProviderIds, and when the
   * result has an image URL its primary image is added after the item's
   * images (to a new list when the item had none).
   */
  function Enrich(it: Item, meta: MetadataResult): (r: Item)
    ensures r.id == it.id && r.parentId == it.parentId && r.identifierId == it.identifierId && r.path == it.path
    ensures r.name == meta.name && r.overview == meta.overview && r.providerIds == meta.providerIds
    ensures r.premiereDate == meta.premiereDate && r.productionYear == meta.productionYear
    ensures meta.imageUrl.None? ==> r.images == it.images
    ensures meta.imageUrl.Some? ==>
      && r.images.Some? && |r.images.value| >= 1
      && r.images.value[|r.images.value| - 1] == ImageInfo(meta.imageUrl.value, Primary)
      && r.images.value[..|r.images.value| - 1] == (if it.images.Some? then it.images.value else [])
  {
    var images := if meta.imageUrl.Some? then
        Some((if it.images.Some? then it.images.value else []) + [ImageInfo(meta.imageUrl.value, Primary)])
      else it.images;
    it.(name := meta.name, overview := meta.overview, premiereDate := meta.premiereDate,
      productionYear := meta.productionYear, providerIds := meta.providerIds, images := images)
  }

  /** The item after `RefreshMetaData`: enriched with a first result, unchanged with none. */
  function Refreshed(it: Item, s: Search): Item {
    if s.Found? then Enrich(it, s.result) else it
  }

  // ---------------------------------------------------------------------------
  // SyncMedia

  /** The `IdentifierId` of every parsed movie, in order. */
  function IdentifierIds(media: seq<Item>): (r: seq<Guid>)
    ensures |r| == |media|
    ensures forall i :: 0 <= i < |media| ==> r[i] == media[i].identifierId
  {
    seq(|media|, i requires 0 <= i < |media| => media[i].identifierId)
  }

  /** `existingMediaItems`: the library's movies whose IdentifierId some parsed movie has. */
  function ExistingMovies(lib: seq<Item>, media: seq<Item>): seq<Item> {
    Where(lib, (m: Item) => m.kind == VodMovieItem && m.identifierId in IdentifierIds(media))
  }

  /**
   * One turn of the entry loop for movie j. A known IdentifierId merges the
   * parsed movie into the first known object, which is written only when
   * its path changed; the metadata found for the parsed movie is thrown
   * away. An unknown one is added under the playlist with an Id derived from
   * its IdentifierId, and the metadata found is put on the added object. A
   * failed search is caught and leaves the movie as it was.
   */
  function ItemStep(st: SyncState, env: Env, playlist: Item, media: seq<Item>, existing: seq<Item>, j: nat): (r: ItemsRun)
    requires j < |media|
    ensures |r.existing| == |existing|
  {
    var m := media[j];
    match IndexOfIdentifier(existing, m.identifierId)
    case Some(x) =>
      var e := existing[x];
      var merged := MergeLegacyMovie(e, m);
      var st1 := if LegacyMovieMergeUpdates(e, m)
        then st.(library := Save(st.library, merged), updates := st.updates + [merged.id])
        else st;
      ItemsRun(st1, existing[x := merged])
    case None =>
      var created := m.(id := env.host.newItemId(FormatD(m.identifierId), "VodMovie"));
      var lib := AddChild(st.library, playlist.id, created);
      var search := env.search(created.name);
      var lib' := if search.Throws? then lib else Save(lib, Refreshed(created.(parentId := playlist.id), search));
      ItemsRun(st.(library := lib'), existing)
  }

  /** The entry loop from movie j on. */
  function ItemsFrom(st: SyncState, env: Env, playlist: Item, media: seq<Item>, existing: seq<Item>, j: nat): (r: ItemsRun)
    requires j <= |media|
    decreases |media| - j
  {
    if j == |media| then ItemsRun(st, existing)
    else
      var r := ItemStep(st, env, playlist, media, existing, j);
      ItemsFrom(r.state, env, playlist, media, r.existing, j + 1)
  }

  /** The entry loop at movie j: one step, then the rest. */
  lemma ItemsFromAt(st: SyncState, env: Env, playlist: Item, media: seq<Item>, existing: seq<Item>, j: nat)
    requires j < |media|
    ensures var r := ItemStep(st, env, playlist, media, existing, j);
      ItemsFrom(st, env, playlist, media, existing, j) == ItemsFrom(r.state, env, playlist, media, r.existing, j + 1)
  {
  }

  /** The entry loop after the last movie. */
  lemma ItemsFromEnd(st: SyncState, env: Env, playlist: Item, media: seq<Item>, existing: seq<Item>)
    ensures ItemsFrom(st, env, playlist, media, existing, |media|) == ItemsRun(st, existing)
  {
  }

  /** `SyncMedia(playlist)`: get the parsed movies, then run the entry loop. */
  function SyncMediaSpec(st: SyncState, env: Env, playlist: Item): Run {
    match env.mediaItems(playlist)
    case Err(e) => Run(st, Fail(e))
    case Ok(media) => Run(ItemsFrom(st, env, playlist, media, ExistingMovies(st.library, media), 0).state, Pass)
  }

  // ---------------------------------------------------------------------------
  // Execute

  /** `existingPlaylists`: the library's playlists whose IdentifierId some configured playlist has. */
  function ExistingPlaylists(playlists: seq<Item>, lib: seq<Item>): seq<Item> {
    Where(lib, (p: Item) => p.kind == VodPlaylistItem && HasPlaylistFor(playlists, p.identifierId))
  }

  /**
   * The first half of one turn of the playlist loop: report progress, then
   * merge a known playlist with itself, or give a new one an Id derived from
   * its IdentifierId and add it under the root folder. `SyncMedia` then gets
   * the configured playlist object, which for a known playlist keeps the Id
   * `GetPlaylists` gave it.
   */
  function PlaylistPhase(st: SyncState, env: Env, playlists: seq<Item>, existing: seq<Item>, k: nat): Target
    requires k < |playlists|
  {
    var playlist := playlists[k];
    var st1 := st.(progress := st.progress + [Percent(k + 1, |playlists|)]);
    match IndexOfIdentifier(existing, playlist.identifierId)
    case Some(x) =>
      var e := existing[x];
      var st2 := if LegacyPlaylistMergeUpdates(e, e)
        then st1.(library := Save(st1.library, MergeLegacyPlaylist(e, e)), updates := st1.updates + [e.id])
        else st1;
      Target(st2, playlist)
    case None =>
      var created := playlist.(id := env.host.newItemId(FormatD(playlist.identifierId), "VodPlaylist"));
      Target(st1.(library := AddChild(st1.library, env.rootId, created)), created.(parentId := env.rootId))
  }

  /** One turn of the playlist loop. */
  function PlaylistStep(st: SyncState, env: Env, playlists: seq<Item>, existing: seq<Item>, k: nat): Run
    requires k < |playlists|
  {
    var t := PlaylistPhase(st, env, playlists, existing, k);
    SyncMediaSpec(t.state, env, t.playlist)
  }

  /** The playlist loop from playlist k on; an exception ends it. */
  function PlaylistsFrom(st: SyncState, env: Env, playlists: seq<Item>, existing: seq<Item>, k: nat): Run
    requires k <= |playlists|
    decreases |playlists| - k
  {
    if k == |playlists| then Run(st, Pass)
    else
      var r := PlaylistStep(st, env, playlists, existing, k);
      if r.outcome.Fail? then r else PlaylistsFrom(r.state, env, playlists, existing, k + 1)
  }

  /** One playlist turn unfolded: an exception ends the loop, otherwise it goes on from the next playlist. */
  lemma PlaylistsFromStep(st: SyncState, env: Env, playlists: seq<Item>, existing: seq<Item>, k: nat, r: Run)
    requires k < |playlists|
    requires r == PlaylistStep(st, env, playlists, existing, k)
    ensures r.outcome.Fail? ==> PlaylistsFrom(st, env, playlists, existing, k) == r
    ensures r.outcome.Pass? ==> PlaylistsFrom(st, env, playlists, existing, k) == PlaylistsFrom(r.state, env, playlists, existing, k + 1)
  {
  }

  /** The playlist loop after the last playlist. */
  lemma PlaylistsFromEnd(st: SyncState, env: Env, playlists: seq<Item>, existing: seq<Item>)
    ensures PlaylistsFrom(st, env, playlists, existing, |playlists|) == Run(st, Pass)
  {
  }

  /**
   * `Execute`: clean up; stop there when no playlist is configured;
   * otherwise run the playlist loop, then report 100 and queue a library scan.
   */
  function ExecuteSpec(st: SyncState, env: Env, playlists: seq<Item>): Run {
    var st1 := CleanupSpec(st, playlists);
    if |playlists| == 0 then Run(st1, Pass)
    else
      var r := PlaylistsFrom(st1, env, playlists, ExistingPlaylists(playlists, st1.library), 0);
      if r.outcome.Fail? then r
      else Run(r.state.(progress := r.state.progress + [100], scans := r.state.scans + 1), Pass)
  }

  /** `Execute` after its playlist loop returned r. */
  lemma ExecuteAfterLoop(st: SyncState, env: Env, playlists: seq<Item>, r: Run)
    requires |playlists| > 0
    requires r == PlaylistsFrom(CleanupSpec(st, playlists), env, playlists, ExistingPlaylists(playlists, CleanupSpec(st, playlists).library), 0)
    ensures r.outcome.Fail? ==> ExecuteSpec(st, env, playlists) == r
    ensures r.outcome.Pass? ==> ExecuteSpec(st, env, playlists) == Run(r.state.(progress := r.state.progress + [100], scans := r.state.scans + 1), Pass)
  {
  }

  // ---------------------------------------------------------------------------
  // Properties of a run

  /** One entry only saves records: it deletes nothing, keeps every Id and reports no progress. */
  lemma ItemStepKeeps(st: SyncState, env: Env, playlist: Item, media: seq<Item>, existing: seq<Item>, j: nat)
    requires j < |media|
    ensures var r := ItemStep(st, env, playlist, media, existing, j).state;
      && Evolves(st, r)
      && r.deletions == st.deletions && r.progress == st.progress
      && IdsOf(st.library) <= IdsOf(r.library)
  {
    var m := media[j];
    match IndexOfIdentifier(existing, m.identifierId)
    case Some(x) =>
      var merged := MergeLegacyMovie(existing[x], m);
      SaveMembers(st.library, merged);
      SaveIds(st.library, merged);
    case None =>
      var created := m.(id := env.host.newItemId(FormatD(m.identifierId), "VodMovie"));
      var added := created.(parentId := playlist.id);
      var lib := Save(st.library, added);
      SaveMembers(st.library, added);
      SaveIds(st.library, added);
      var search := env.search(created.name);
      SaveMembers(lib, Refreshed(added, search));
      SaveIds(lib, Refreshed(added, search));
  }

  /**
   * What one entry does to a library with unique Ids. A known movie whose
   * path changed is written back merged and logged as an update; one whose
   * path did not leaves the library and the log alone. An unknown movie is
   * stored under the Id derived from its IdentifierId as a child of the
   * playlist, with the metadata found for it when the search does not throw.
   */
  lemma ItemStepEffect(st: SyncState, env: Env, playlist: Item, media: seq<Item>, existing: seq<Item>, j: nat)
    requires j < |media| && UniqueIds(st.library)
    ensures var m := media[j];
      var r := ItemStep(st, env, playlist, media, existing, j);
      && UniqueIds(r.state.library)
      && (IndexOfIdentifier(existing, m.identifierId).Some? ==>
            var x := IndexOfIdentifier(existing, m.identifierId).value;
            var merged := MergeLegacyMovie(existing[x], m);
            && r.existing == existing[x := merged]
            && (LegacyMovieMergeUpdates(existing[x], m) ==>
                  Lookup(r.state.library, merged.id) == Some(merged) && r.state.updates == st.updates + [merged.id])
            && (!LegacyMovieMergeUpdates(existing[x], m) ==>
                  r.state.library == st.library && r.state.updates == st.updates))
      && (IndexOfIdentifier(existing, m.identifierId).None? ==>
            var added := m.(id := env.host.newItemId(FormatD(m.identifierId), "VodMovie"), parentId := playlist.id);
            var search := env.search(added.name);
            && r.existing == existing && r.state.updates == st.updates
            && (search.Throws? ==> Lookup(r.state.library, added.id) == Some(added))
            && (!search.Throws? ==> Lookup(r.state.library, added.id) == Some(Refreshed(added, search))))
  {
    var m := media[j];
    match IndexOfIdentifier(existing, m.identifierId)
    case Some(x) =>
      SaveStores(st.library, MergeLegacyMovie(existing[x], m), MergeLegacyMovie(existing[x], m).id);
    case None =>
      var added := m.(id := env.host.newItemId(FormatD(m.identifierId), "VodMovie"), parentId := playlist.id);
      SaveStores(st.library, added, added.id);
      var search := env.search(added.name);
      SaveStores(Save(st.library, added), Refreshed(added, search), added.id);
  }

  lemma {:induction false} ItemsFromKeeps(st: SyncState, env: Env, playlist: Item, media: seq<Item>, existing: seq<Item>, j: nat)
    requires j <= |media|
    ensures var r := ItemsFrom(st, env, playlist, media, existing, j).state;
      && Evolves(st, r)
      && r.deletions == st.deletions && r.progress == st.progress
      && IdsOf(st.library) <= IdsOf(r.library)
    decreases |media| - j
  {
    hide *;
    if j < |media| {
      var r := ItemStep(st, env, playlist, media, existing, j);
      ItemsFromAt(st, env, playlist, media, existing, j);
      ItemStepKeeps(st, env, playlist, media, existing, j);
      ItemsFromKeeps(r.state, env, playlist, media, r.existing, j + 1);
      EvolvesTrans(st, r.state, ItemsFrom(r.state, env, playlist, media, r.existing, j + 1).state);
    } else {
      ItemsFromEnd(st, env, playlist, media, existing);
      EvolvesRefl(st);
    }
  }

  /**
   * `SyncMedia` never deletes: it either throws before changing anything, or
   * keeps every Id the library had, makes no delete request and reports no
   * progress. Whether it throws depends on the parse alone, never on the
   * metadata search.
   */
  lemma SyncMediaKeeps(st: SyncState, env: Env, playlist: Item)
    ensures var r := SyncMediaSpec(st, env, playlist);
      && Evolves(st, r.state)
      && (r.outcome.Fail? <==> env.mediaItems(playlist).Err?)
      && (r.outcome.Fail? ==> r.state == st)
      && r.state.deletions == st.deletions && r.state.progress == st.progress
      && IdsOf(st.library) <= IdsOf(r.state.library)
  {
    match env.mediaItems(playlist)
    case Err(e) =>
    case Ok(media) =>
      ItemsFromKeeps(st, env, playlist, media, ExistingMovies(st.library, media), 0);
  }

  lemma PlaylistPhaseEvolves(st: SyncState, env: Env, playlists: seq<Item>, existing: seq<Item>, k: nat)
    requires k < |playlists|
    ensures Evolves(st, PlaylistPhase(st, env, playlists, existing, k).state)
    ensures PlaylistPhase(st, env, playlists, existing, k).state.progress == st.progress + [Percent(k + 1, |playlists|)]
    ensures PlaylistPhase(st, env, playlists, existing, k).state.deletions == st.deletions
  {
    var playlist := playlists[k];
    var st1 := st.(progress := st.progress + [Percent(k + 1, |playlists|)]);
    match IndexOfIdentifier(existing, playlist.identifierId)
    case Some(x) =>
      MergeLegacyPlaylistSettles(existing[x], existing[x]);
    case None =>
      var created := playlist.(id := env.host.newItemId(FormatD(playlist.identifierId), "VodPlaylist"));
      SaveMembers(st1.library, created.(parentId := env.rootId));
  }

  /**
   * A known playlist is merged with itself, which changes and writes
   * nothing, and `SyncMedia` gets the configured object unchanged. A new
   * playlist is stored under the root folder with the Id derived from its
   * IdentifierId.
   */
  lemma PlaylistPhaseEffect(st: SyncState, env: Env, playlists: seq<Item>, existing: seq<Item>, k: nat)
    requires k < |playlists| && UniqueIds(st.library)
    ensures var p := playlists[k];
      var t := PlaylistPhase(st, env, playlists, existing, k);
      && (IndexOfIdentifier(existing, p.identifierId).Some? ==>
            t.state.library == st.library && t.state.updates == st.updates && t.playlist == p)
      && (IndexOfIdentifier(existing, p.identifierId).None? ==>
            && t.playlist == p.(id := env.host.newItemId(FormatD(p.identifierId), "VodPlaylist"), parentId := env.rootId)
            && Lookup(t.state.library, t.playlist.id) == Some(t.playlist)
            && t.state.updates == st.updates)
  {
    var p := playlists[k];
    match IndexOfIdentifier(existing, p.identifierId)
    case Some(x) =>
      MergeLegacyPlaylistSettles(existing[x], existing[x]);
    case None =>
      var created := p.(id := env.host.newItemId(FormatD(p.identifierId), "VodPlaylist"), parentId := env.rootId);
      SaveStores(st.library, created, created.id);
  }

  /**
   * One playlist turn reports `(k + 1) / n * 100` and nothing else: the
   * entry loop of this generation reports no progress.
   */
  lemma PlaylistStepProgress(st: SyncState, env: Env, playlists: seq<Item>, existing: seq<Item>, k: nat)
    requires k < |playlists|
    ensures Evolves(st, PlaylistStep(st, env, playlists, existing, k).state)
    ensures PlaylistStep(st, env, playlists, existing, k).outcome.Pass? ==>
      PlaylistStep(st, env, playlists, existing, k).state.progress == st.progress + [Percent(k + 1, |playlists|)]
    ensures PlaylistStep(st, env, playlists, existing, k).state.deletions == st.deletions
  {
    var t := PlaylistPhase(st, env, playlists, existing, k);
    PlaylistPhaseEvolves(st, env, playlists, existing, k);
    SyncMediaKeeps(t.state, env, t.playlist);
    EvolvesTrans(st, t.state, PlaylistStep(st, env, playlists, existing, k).state);
  }

  /** The playlist loop only adds to the scheduled task's logs and makes no delete request. */
  lemma {:induction false} PlaylistsFromEvolves(st: SyncState, env: Env, playlists: seq<Item>, existing: seq<Item>, k: nat)
    requires k <= |playlists|
    ensures Evolves(st, PlaylistsFrom(st, env, playlists, existing, k).state)
    ensures PlaylistsFrom(st, env, playlists, existing, k).state.deletions == st.deletions
    decreases |playlists| - k
  {
    hide *;
    if k < |playlists| {
      var r := PlaylistStep(st, env, playlists, existing, k);
      PlaylistsFromStep(st, env, playlists, existing, k, r);
      PlaylistStepProgress(st, env, playlists, existing, k);
      if r.outcome.Pass? {
        PlaylistsFromEvolves(r.state, env, playlists, existing, k + 1);
        EvolvesTrans(st, r.state, PlaylistsFrom(r.state, env, playlists, existing, k + 1).state);
      }
    } else {
      PlaylistsFromEnd(st, env, playlists, existing);
      EvolvesRefl(st);
    }
  }

  /** A loop that gets through playlists k.. reports exactly their ticks. */
  lemma {:induction false} PlaylistsFromProgress(st: SyncState, env: Env, playlists: seq<Item>, existing: seq<Item>, k: nat)
    requires k <= |playlists|
    ensures PlaylistsFrom(st, env, playlists, existing, k).outcome.Pass? ==>
      PlaylistsFrom(st, env, playlists, existing, k).state.progress == st.progress + Ticks(|playlists|)[k..]
    decreases |playlists| - k
  {
    hide *;
    if k < |playlists| {
      var r := PlaylistStep(st, env, playlists, existing, k);
      PlaylistsFromStep(st, env, playlists, existing, k, r);
      PlaylistStepProgress(st, env, playlists, existing, k);
      if r.outcome.Pass? {
        PlaylistsFromProgress(r.state, env, playlists, existing, k + 1);
        assert Ticks(|playlists|)[k..] == [Percent(k + 1, |playlists|)] + Ticks(|playlists|)[k + 1..];
      }
    } else {
      PlaylistsFromEnd(st, env, playlists, existing);
      assert Ticks(|playlists|)[k..] == [];
    }
  }

  /**
   * A whole run keeps Ids unique and deletes only in `Cleanup`, without
   * files. With no playlists it reports nothing and queues no scan. A run
   * that gets through n playlists reports 0 for each but the last, 100 for
   * the last, then 100 again, and queues one library scan.
   */
  lemma ExecuteEffect(st: SyncState, env: Env, playlists: seq<Item>)
    ensures var r := ExecuteSpec(st, env, playlists);
      && (UniqueIds(st.library) ==> UniqueIds(r.state.library))
      && r.state.deletions == st.deletions + DeletionsOf(CleanupTargets(playlists, st.library), false)
      && (|playlists| == 0 ==> r.outcome.Pass? && r.state.progress == st.progress && r.state.scans == st.scans)
      && (|playlists| > 0 && r.outcome.Pass? ==>
            r.state.progress == st.progress + Ticks(|playlists|) + [100] && r.state.scans == st.scans + 1)
      && (r.outcome.Fail? ==> r.state.scans == st.scans)
  {
    var targets := CleanupTargets(playlists, st.library);
    var st1 := CleanupSpec(st, playlists);
    DeleteAllEvolves(st, targets, false);
    DeleteAllRequests(st, targets, false);
    if |playlists| > 0 {
      var existing := ExistingPlaylists(playlists, st1.library);
      PlaylistsFromEvolves(st1, env, playlists, existing, 0);
      PlaylistsFromProgress(st1, env, playlists, existing, 0);
      var r := PlaylistsFrom(st1, env, playlists, existing, 0);
      EvolvesTrans(st, st1, r.state);
      assert Ticks(|playlists|)[0..] == Ticks(|playlists|);
    }
  }

  // ---------------------------------------------------------------------------
  // The metadata search cannot end a run

  /** The playlist `SyncMedia` gets does not depend on the scheduled task's state or on the search. */
  lemma PlaylistPhaseTarget(st1: SyncState, st2: SyncState, env1: Env, env2: Env, playlists: seq<Item>, existing: seq<Item>, k: nat)
    requires k < |playlists| && env1.(search := env2.search) == env2
    ensures PlaylistPhase(st1, env1, playlists, existing, k).playlist == PlaylistPhase(st2, env2, playlists, existing, k).playlist
  {
  }

  /** One playlist turn throws, or not, the same way whatever the state and the search. */
  lemma PlaylistStepSearchIsolated(st1: SyncState, st2: SyncState, env1: Env, env2: Env, playlists: seq<Item>, existing: seq<Item>, k: nat)
    requires k < |playlists| && env1.(search := env2.search) == env2
    ensures PlaylistStep(st1, env1, playlists, existing, k).outcome == PlaylistStep(st2, env2, playlists, existing, k).outcome
  {
    PlaylistPhaseTarget(st1, st2, env1, env2, playlists, existing, k);
  }

  /**
   * Whether the playlist loop throws, and what, is decided by the parse
   * results alone: two runs from any states with different metadata searches
   * end with the same outcome.
   */
  lemma {:induction false} PlaylistsFromSearchIsolated(st1: SyncState, st2: SyncState, env1: Env, env2: Env, playlists: seq<Item>, existing: seq<Item>, k: nat)
    requires k <= |playlists| && env1.(search := env2.search) == env2
    ensures PlaylistsFrom(st1, env1, playlists, existing, k).outcome == PlaylistsFrom(st2, env2, playlists, existing, k).outcome
    decreases |playlists| - k
  {
    hide *;
    if k < |playlists| {
      var r1 := PlaylistStep(st1, env1, playlists, existing, k);
      var r2 := PlaylistStep(st2, env2, playlists, existing, k);
      PlaylistsFromStep(st1, env1, playlists, existing, k, r1);
      PlaylistsFromStep(st2, env2, playlists, existing, k, r2);
      PlaylistStepSearchIsolated(st1, st2, env1, env2, playlists, existing, k);
      if r1.outcome.Pass? {
        PlaylistsFromSearchIsolated(r1.state, r2.state, env1, env2, playlists, existing, k + 1);
      }
    } else {
      PlaylistsFromEnd(st1, env1, playlists, existing);
      PlaylistsFromEnd(st2, env2, playlists, existing);
    }
  }

  /** Two runs of `Execute` that differ only in the metadata search end with the same outcome. */
  lemma ExecuteSearchIsolated(st: SyncState, env1: Env, env2: Env, playlists: seq<Item>)
    requires env1.(search := env2.search) == env2
    ensures ExecuteSpec(st, env1, playlists).outcome == ExecuteSpec(st, env2, playlists).outcome
  {
    if |playlists| > 0 {
      hide *;
      var st1 := CleanupSpec(st, playlists);
      var existing := ExistingPlaylists(playlists, st1.library);
      PlaylistsFromSearchIsolated(st1, st1, env1, env2, playlists, existing, 0);
      ExecuteAfterLoop(st, env1, playlists, PlaylistsFrom(st1, env1, playlists, existing, 0));
      ExecuteAfterLoop(st, env2, playlists, PlaylistsFrom(st1, env2, playlists, existing, 0));
    }
  }

  /**
   * One entry is the same under two searches that find the same things: a
   * search that throws leaves the new movie as `AddChild` stored it, and one
   * that finds nothing saves that same record again.
   */
  lemma ItemStepSameFindings(st: SyncState, env1: Env, env2: Env, playlist: Item, media: seq<Item>, existing: seq<Item>, j: nat)
    requires j < |media|
    requires env1.host == env2.host
    requires forall n :: SameFindings(env1.search(n), env2.search(n))
    ensures ItemStep(st, env1, playlist, media, existing, j) == ItemStep(st, env2, playlist, media, existing, j)
  {
    var m := media[j];
    match IndexOfIdentifier(existing, m.identifierId)
    case Some(x) =>
    case None =>
      var created := m.(id := env1.host.newItemId(FormatD(m.identifierId), "VodMovie"));
      assert SameFindings(env1.search(created.name), env2.search(created.name));
      SaveTwice(st.library, created.(parentId := playlist.id));
  }

  lemma {:induction false} ItemsFromSameFindings(st: SyncState, env1: Env, env2: Env, playlist: Item, media: seq<Item>, existing: seq<Item>, j: nat)
    requires j <= |media|
    requires env1.host == env2.host
    requires forall n :: SameFindings(env1.search(n), env2.search(n))
    ensures ItemsFrom(st, env1, playlist, media, existing, j) == ItemsFrom(st, env2, playlist, media, existing, j)
    decreases |media| - j
  {
    hide *;
    if j < |media| {
      ItemStepSameFindings(st, env1, env2, playlist, media, existing, j);
      var r := ItemStep(st, env1, playlist, media, existing, j);
      ItemsFromAt(st, env1, playlist, media, existing, j);
      ItemsFromAt(st, env2, playlist, media, existing, j);
      ItemsFromSameFindings(r.state, env1, env2, playlist, media, r.existing, j + 1);
    } else {
      ItemsFromEnd(st, env1, playlist, media, existing);
      ItemsFromEnd(st, env2, playlist, media, existing);
    }
  }

  /** One playlist turn is the same under two searches that find the same things. */
  lemma PlaylistStepSameFindings(st: SyncState, env1: Env, env2: Env, playlists: seq<Item>, existing: seq<Item>, k: nat)
    requires k < |playlists| && env1.(search := env2.search) == env2
    requires forall n :: SameFindings(env1.search(n), env2.search(n))
    ensures PlaylistStep(st, env1, playlists, existing, k) == PlaylistStep(st, env2, playlists, existing, k)
  {
    var t := PlaylistPhase(st, env1, playlists, existing, k);
    assert t == PlaylistPhase(st, env2, playlists, existing, k);
    match env1.mediaItems(t.playlist)
    case Err(e) =>
    case Ok(media) =>
      ItemsFromSameFindings(t.state, env1, env2, t.playlist, media, ExistingMovies(t.state.library, media), 0);
  }

  lemma {:induction false} PlaylistsFromSameFindings(st: SyncState, env1: Env, env2: Env, playlists: seq<Item>, existing: seq<Item>, k: nat)
    requires k <= |playlists| && env1.(search := env2.search) == env2
    requires forall n :: SameFindings(env1.search(n), env2.search(n))
    ensures PlaylistsFrom(st, env1, playlists, existing, k) == PlaylistsFrom(st, env2, playlists, existing, k)
    decreases |playlists| - k
  {
    hide *;
    if k < |playlists| {
      PlaylistStepSameFindings(st, env1, env2, playlists, existing, k);
      var r := PlaylistStep(st, env1, playlists, existing, k);
      PlaylistsFromStep(st, env1, playlists, existing, k, r);
      PlaylistsFromStep(st, env2, playlists, existing, k, r);
      if r.outcome.Pass? {
        PlaylistsFromSameFindings(r.state, env1, env2, playlists, existing, k + 1);
      }
    } else {
      PlaylistsFromEnd(st, env1, playlists, existing);
      PlaylistsFromEnd(st, env2, playlists, existing);
    }
  }

  /**
   * A search that throws is caught inside the entry loop: a run whose
   * searches throw ends in exactly the state and outcome of one whose
   * searches find nothing there.
   */
  lemma ExecuteSameFindings(st: SyncState, env1: Env, env2: Env, playlists: seq<Item>)
    requires env1.(search := env2.search) == env2
    requires forall n :: SameFindings(env1.search(n), env2.search(n))
    ensures ExecuteSpec(st, env1, playlists) == ExecuteSpec(st, env2, playlists)
  {
    if |playlists| > 0 {
      hide *;
      var st1 := CleanupSpec(st, playlists);
      var existing := ExistingPlaylists(playlists, st1.library);
      PlaylistsFromSameFindings(st1, env1, env2, playlists, existing, 0);
      var r := PlaylistsFrom(st1, env1, playlists, existing, 0);
      ExecuteAfterLoop(st, env1, playlists, r);
      ExecuteAfterLoop(st, env2, playlists, r);
    }
  }
}
