/**
 * `Project/Scheduler/PlaylistLibrarySync.cs`: the scheduled task that
 * mirrors the configured remote playlists into the media library.
 *
 * The scheduled task's effects are gathered in a `SyncState`: the library records, the
 * delete requests, the `UpdateToRepository` calls, the progress values
 * reported, and the number of library scans queued. The functions below fold
 * over the configs and the parsed entries in the order the scheduled task's loops visit
 * them; the `PlaylistLibrarySync` class runs those loops and is proved to
 * reach the state the functions describe.
 *
 * The host is an `Env`: the item-id and URL services (`Host`), the HTTP fetch
 * of a playlist as lines (`None` when the request throws), the metadata search
 * by name, and the Id of the user root folder.
 */
module ProjectSync {
  import opened Wrappers
  import opened Platform
  import opened ItemStore
  import opened ProjectModels
  import opened ProjectMedia
  import opened M3UParser
  import opened TaskEffects

  datatype Env = Env(
    host: Host,
    fetch: string -> Option<seq<string>>,
    search: string -> Search,
    rootId: Guid)

  // ---------------------------------------------------------------------------
  // Cleanup

  /** Some config carries this IdentifierId (`playlists.FirstOrDefault(...) != null`). */
  predicate HasConfigFor(configs: seq<ConfigSnapshot>, id: Guid) {
    exists i :: 0 <= i < |configs| && configs[i].identifierId == id
  }

  /** The playlist filter of `Cleanup`, as written. */
  predicate PlaylistToDelete(configs: seq<ConfigSnapshot>, p: Item) {
    && p.kind == VodPlaylistItem
    && (|| p.id == EmptyGuid
        || p.identifierId == EmptyGuid
        || (|configs| > 0 && !HasConfigFor(configs, p.identifierId))
        || |configs| == 0)
  }

  /** The movie filter of `Cleanup`, as written: it compares a config's IdentifierId with the movie's ParentId. */
  predicate MovieToDelete(configs: seq<ConfigSnapshot>, m: Item) {
    && m.kind == VodMovieItem
    && (|| m.id == EmptyGuid
        || m.identifierId == EmptyGuid
        || HasConfigFor(configs, m.parentId)
        || |configs| == 0)
  }

  /** `deleteItems`: the selected playlists, then the selected movies, in library order. */
  function CleanupTargets(configs: seq<ConfigSnapshot>, lib: seq<Item>): (r: seq<Item>)
    ensures forall it :: it in r <==> it in lib && (PlaylistToDelete(configs, it) || MovieToDelete(configs, it))
  {
    Where(lib, (p: Item) => PlaylistToDelete(configs, p)) + Where(lib, (m: Item) => MovieToDelete(configs, m))
  }

  /** `Cleanup(playlists)`. */
  function CleanupSpec(st: SyncState, configs: seq<ConfigSnapshot>): SyncState {
    DeleteAll(st, CleanupTargets(configs, st.library), true)
  }
  /**
   * A record filed under a stored playlist that `Cleanup` deletes: the host
   * deletes it together with that folder.
   */
  predicate UnderDeletedPlaylist(configs: seq<ConfigSnapshot>, lib: seq<Item>, x: Item) {
    exists p :: p in lib && PlaylistToDelete(configs, p) && p.id != EmptyGuid && x.parentId == p.id
  }


  /**
   * A playlist goes exactly when its Id or IdentifierId is empty or no config
   * has its IdentifierId: the tests of the config count add nothing.
   */
  lemma PlaylistCleanupRule(configs: seq<ConfigSnapshot>, p: Item)
    ensures PlaylistToDelete(configs, p) <==>
      p.kind == VodPlaylistItem && (p.id == EmptyGuid || p.identifierId == EmptyGuid || !HasConfigFor(configs, p.identifierId))
  {
  }

  /**
   * After `Cleanup` the library holds exactly the records it held that
   * neither filter selects and that no deleted playlist folder held, and one
   * delete request with file removal was made per selected playlist and then
   * per selected movie.
   */
  lemma CleanupEffect(st: SyncState, configs: seq<ConfigSnapshot>)
    requires UniqueIds(st.library)
    ensures var r := CleanupSpec(st, configs);
      && UniqueIds(r.library)
      && (forall it :: it in r.library <==>
            && it in st.library && !PlaylistToDelete(configs, it) && !MovieToDelete(configs, it)
            && !UnderDeletedPlaylist(configs, st.library, it))
      && r.deletions == st.deletions + DeletionsOf(CleanupTargets(configs, st.library), true)
      && r.progress == st.progress && r.scans == st.scans
  {
    var targets := CleanupTargets(configs, st.library);
    DeleteAllRequests(st, targets, true);
    DeleteAllLibrary(st, targets, true);
    var r := CleanupSpec(st, configs);
    forall it | it in st.library
      ensures GoneWith(targets, it) <==>
        PlaylistToDelete(configs, it) || MovieToDelete(configs, it) || UnderDeletedPlaylist(configs, st.library, it)
    {
      if GoneWith(targets, it) {
        var i :| 0 <= i < |targets| && GoesWith(targets[i], it);
        var t := targets[i];
        assert t in targets;
        if it.id == t.id {
          SameIdSameRecord(st.library, t, it);
        } else {
          assert t in st.library && PlaylistToDelete(configs, t) && t.id != EmptyGuid && it.parentId == t.id;
        }
      }
      if PlaylistToDelete(configs, it) || MovieToDelete(configs, it) {
        GoneWithMember(targets, it, it);
      }
      if UnderDeletedPlaylist(configs, st.library, it) {
        var p :| p in st.library && PlaylistToDelete(configs, p) && p.id != EmptyGuid && it.parentId == p.id;
        GoneWithMember(targets, p, it);
      }
    }
  }

  // ---------------------------------------------------------------------------
  // RefreshMetaData

  /**
   * `RefreshMetaData(item)` with a first result: the item takes the result's
   * Name, Overview, PremiereDate, ProductionYear and ProviderIds, and when the
   * result has an image URL its primary image is put in front of the item's
   * images.
   */
  function Enrich(it: Item, meta: MetadataResult): (r: Item)
    ensures r.id == it.id && r.parentId == it.parentId && r.identifierId == it.identifierId && r.path == it.path
    ensures r.name == meta.name && r.overview == meta.overview && r.providerIds == meta.providerIds
    ensures r.premiereDate == meta.premiereDate && r.productionYear == meta.productionYear
    ensures meta.imageUrl.None? ==> r.images == it.images
    ensures meta.imageUrl.Some? ==>
      && r.images.Some? && |r.images.value| >= 1
      && r.images.value[0] == ImageInfo(meta.imageUrl.value, Primary)
      && r.images.value[1..] == (if it.images.Some? then it.images.value else [])
  {
    var images := if meta.imageUrl.Some? then
        Some([ImageInfo(meta.imageUrl.value, Primary)] + (if it.images.Some? then it.images.value else []))
      else it.images;
    it.(name := meta.name, overview := meta.overview, premiereDate := meta.premiereDate,
      productionYear := meta.productionYear, providerIds := meta.providerIds, images := images)
  }

  /** The item after `RefreshMetaData`: enriched with a first result, unchanged with none. */
  function Refreshed(it: Item, s: Search): Item {
    if s.Found? then Enrich(it, s.result) else it
  }

  // ---------------------------------------------------------------------------
  // SyncMedia

  /** The `IdentifierId` of every parsed entry, in order. */
  function IdentifierIds(host: Host, media: seq<Media>): (r: seq<Guid>)
    ensures |r| == |media|
    ensures forall i :: 0 <= i < |media| ==> r[i] == IdentifierId(host, media[i])
  {
    seq(|media|, i requires 0 <= i < |media| => IdentifierId(host, media[i]))
  }

  /** `existingMediaItems`: the library's movies whose IdentifierId some entry has. */
  function ExistingMovies(lib: seq<Item>, ids: seq<Guid>): seq<Item> {
    Where(lib, (m: Item) => m.kind == VodMovieItem && m.identifierId in ids)
  }

  /**
   * `deleteLocally`: the movies among the playlist object's children whose
   * IdentifierId no entry has. The object of a known playlist has the empty
   * Id, and then there are none.
   */
  function StaleChildren(lib: seq<Item>, playlistId: Guid, ids: seq<Guid>): seq<Item> {
    Where(lib, (m: Item) => m.kind == VodMovieItem && FiledUnder(m, playlistId) && m.identifierId !in ids)
  }

  /**
   * One turn of the entry loop for entry j. A known IdentifierId merges the
   * new movie into the first known object, which is written only when its
   * path changed; the metadata found for the new movie is then thrown away.
   * An unknown one adds the new movie under the playlist with an Id derived
   * from its IdentifierId; the metadata found is put on it and the host's
   * metadata refresh saves it again. A failed search is caught and skips both.
   */
  function ItemStep(st: SyncState, env: Env, playlist: Item, media: seq<Media>, existing: seq<Item>, j: nat): (r: ItemsRun)
    requires j < |media|
    ensures |r.existing| == |existing|
  {
    var st1 := st.(progress := st.progress + [Percent(j + 1, |media|)]);
    var vod := ToVodItem(env.host, media[j]);
    match IndexOfIdentifier(existing, vod.identifierId)
    case Some(x) =>
      var e := existing[x];
      var merged := MergeMovie(e, vod);
      var st2 := if MovieMergeUpdates(e, vod)
        then st1.(library := Save(st1.library, merged), updates := st1.updates + [merged.id])
        else st1;
      ItemsRun(st2, existing[x := merged])
    case None =>
      var created := vod.(id := env.host.newItemId(FormatD(vod.identifierId), "VodMovie"));
      var lib := AddChild(st1.library, playlist.id, created);
      var search := env.search(created.name);
      var lib' := if search.Throws? then lib else Save(lib, Refreshed(created.(parentId := playlist.id), search));
      ItemsRun(st1.(library := lib'), existing)
  }

  /** The entry loop from entry j on. */
  function ItemsFrom(st: SyncState, env: Env, playlist: Item, media: seq<Media>, existing: seq<Item>, j: nat): (r: ItemsRun)
    requires j <= |media|
    decreases |media| - j
  {
    if j == |media| then ItemsRun(st, existing)
    else
      var r := ItemStep(st, env, playlist, media, existing, j);
      ItemsFrom(r.state, env, playlist, media, r.existing, j + 1)
  }

  /** The entry loop at entry j: one step, then the rest. */
  lemma ItemsFromAt(st: SyncState, env: Env, playlist: Item, media: seq<Media>, existing: seq<Item>, j: nat)
    requires j < |media|
    ensures var r := ItemStep(st, env, playlist, media, existing, j);
      ItemsFrom(st, env, playlist, media, existing, j) == ItemsFrom(r.state, env, playlist, media, r.existing, j + 1)
  {
  }

  /** The entry loop after the last entry. */
  lemma ItemsFromEnd(st: SyncState, env: Env, playlist: Item, media: seq<Media>, existing: seq<Item>)
    ensures ItemsFrom(st, env, playlist, media, existing, |media|) == ItemsRun(st, existing)
  {
  }

  /** `GetMediaItems(playlist)`: the playlist's URL is downloaded and its lines are parsed. */
  function FetchMedia(env: Env, playlist: Item): Result<seq<Media>, SyncError> {
    match env.fetch(playlist.playlistUrl)
    case None => Err(FetchFailed(playlist.playlistUrl))
    case Some(lines) =>
      match Scan(lines, 0, playlist.id, env.host, LineAttributes)
      case Err(e) => Err(ParseFailed(e))
      case Ok(media) => Ok(media)
  }

  /**
   * `SyncMedia(playlist)`: parse the remote playlist, delete the playlist's
   * movies the remote no longer lists when StrictSync is on, run the entry
   * loop, and report 100.
   */
  function SyncMediaSpec(st: SyncState, env: Env, c: ConfigSnapshot, playlist: Item): Run {
    match FetchMedia(env, playlist)
    case Err(e) => Run(st, Fail(e))
    case Ok(media) =>
      var ids := IdentifierIds(env.host, media);
      var existing := ExistingMovies(st.library, ids);
      var st1 := if c.strictSync then DeleteAll(st, StaleChildren(st.library, playlist.id, ids), true) else st;
      var r := ItemsFrom(st1, env, playlist, media, existing, 0);
      Run(r.state.(progress := r.state.progress + [100]), Pass)
  }

  // ---------------------------------------------------------------------------
  // Execute

  /** `existingPlaylists`: the library's playlists whose IdentifierId some config has. */
  function ExistingPlaylists(configs: seq<ConfigSnapshot>, lib: seq<Item>): seq<Item> {
    Where(lib, (p: Item) => p.kind == VodPlaylistItem && HasConfigFor(configs, p.identifierId))
  }

  /**
   * The first half of one turn of the config loop: report progress, then
   * merge a known playlist with itself, or give a new one an Id derived from
   * its IdentifierId and add it under the root folder. `SyncMedia` then gets
   * the object `ToPlaylist` built, which for a known playlist still has the
   * empty Id.
   */
  function PlaylistPhase(st: SyncState, env: Env, configs: seq<ConfigSnapshot>, existing: seq<Item>, k: nat): Target
    requires k < |configs|
  {
    var playlist := PlaylistOf(configs[k]);
    var st1 := st.(progress := st.progress + [Percent(k + 1, |configs|)]);
    match IndexOfIdentifier(existing, playlist.identifierId)
    case Some(x) =>
      var e := existing[x];
      var st2 := if PlaylistMergeUpdates(e, e)
        then st1.(library := Save(st1.library, MergePlaylist(e, e)), updates := st1.updates + [e.id])
        else st1;
      Target(st2, playlist)
    case None =>
      var created := playlist.(id := env.host.newItemId(FormatD(playlist.identifierId), "VodPlaylist"));
      Target(st1.(library := AddChild(st1.library, env.rootId, created)), created.(parentId := env.rootId))
  }

  /** One turn of the config loop. */
  function ConfigStep(st: SyncState, env: Env, configs: seq<ConfigSnapshot>, existing: seq<Item>, k: nat): Run
    requires k < |configs|
  {
    var t := PlaylistPhase(st, env, configs, existing, k);
    SyncMediaSpec(t.state, env, configs[k], t.playlist)
  }

  /** The config loop from config k on; an exception ends it. */
  function ConfigsFrom(st: SyncState, env: Env, configs: seq<ConfigSnapshot>, existing: seq<Item>, k: nat): Run
    requires k <= |configs|
    decreases |configs| - k
  {
    if k == |configs| then Run(st, Pass)
    else
      var r := ConfigStep(st, env, configs, existing, k);
      if r.outcome.Fail? then r else ConfigsFrom(r.state, env, configs, existing, k + 1)
  }

  /** One config turn unfolded: an exception ends the loop, otherwise it goes on from the next config. */
  lemma ConfigsFromStep(st: SyncState, env: Env, configs: seq<ConfigSnapshot>, existing: seq<Item>, k: nat, r: Run)
    requires k < |configs|
    requires r == ConfigStep(st, env, configs, existing, k)
    ensures r.outcome.Fail? ==> ConfigsFrom(st, env, configs, existing, k) == r
    ensures r.outcome.Pass? ==> ConfigsFrom(st, env, configs, existing, k) == ConfigsFrom(r.state, env, configs, existing, k + 1)
  {
  }

  /** The config loop after the last config. */
  lemma ConfigsFromEnd(st: SyncState, env: Env, configs: seq<ConfigSnapshot>, existing: seq<Item>)
    ensures ConfigsFrom(st, env, configs, existing, |configs|) == Run(st, Pass)
  {
  }

  /**
   * `Execute`: clean up; stop there when nothing is configured; otherwise run
   * the config loop, then report 100 and queue a library scan.
   */
  function ExecuteSpec(st: SyncState, env: Env, configs: seq<ConfigSnapshot>): Run {
    var st1 := CleanupSpec(st, configs);
    if |configs| == 0 then Run(st1, Pass)
    else
      var r := ConfigsFrom(st1, env, configs, ExistingPlaylists(configs, st1.library), 0);
      if r.outcome.Fail? then r
      else Run(r.state.(progress := r.state.progress + [100], scans := r.state.scans + 1), Pass)
  }

  /** `Execute` after its config loop returned r. */
  lemma ExecuteAfterLoop(st: SyncState, env: Env, configs: seq<ConfigSnapshot>, r: Run)
    requires |configs| > 0
    requires r == ConfigsFrom(CleanupSpec(st, configs), env, configs, ExistingPlaylists(configs, CleanupSpec(st, configs).library), 0)
    ensures r.outcome.Fail? ==> ExecuteSpec(st, env, configs) == r
    ensures r.outcome.Pass? ==> ExecuteSpec(st, env, configs) == Run(r.state.(progress := r.state.progress + [100], scans := r.state.scans + 1), Pass)
  {
  }

  // ---------------------------------------------------------------------------
  // Properties of a run

  lemma ItemStepEvolves(st: SyncState, env: Env, playlist: Item, media: seq<Media>, existing: seq<Item>, j: nat)
    requires j < |media|
    ensures Evolves(st, ItemStep(st, env, playlist, media, existing, j).state)
    ensures ItemStep(st, env, playlist, media, existing, j).state.deletions == st.deletions
    ensures ItemStep(st, env, playlist, media, existing, j).state.progress == st.progress + [Percent(j + 1, |media|)]
  {
    var st1 := st.(progress := st.progress + [Percent(j + 1, |media|)]);
    var vod := ToVodItem(env.host, media[j]);
    match IndexOfIdentifier(existing, vod.identifierId)
    case Some(x) =>
      SaveMembers(st1.library, MergeMovie(existing[x], vod));
    case None =>
      var created := vod.(id := env.host.newItemId(FormatD(vod.identifierId), "VodMovie"));
      var lib := AddChild(st1.library, playlist.id, created);
      SaveMembers(st1.library, created.(parentId := playlist.id));
      var search := env.search(created.name);
      SaveMembers(lib, Refreshed(created.(parentId := playlist.id), search));
  }

  lemma {:induction false} ItemsFromEvolves(st: SyncState, env: Env, playlist: Item, media: seq<Media>, existing: seq<Item>, j: nat)
    requires j <= |media|
    ensures Evolves(st, ItemsFrom(st, env, playlist, media, existing, j).state)
    ensures ItemsFrom(st, env, playlist, media, existing, j).state.deletions == st.deletions
    ensures ItemsFrom(st, env, playlist, media, existing, j).state.progress == st.progress + Ticks(|media|)[j..]
    decreases |media| - j
  {
    hide *;
    if j < |media| {
      var r := ItemStep(st, env, playlist, media, existing, j);
      ItemsFromAt(st, env, playlist, media, existing, j);
      ItemStepEvolves(st, env, playlist, media, existing, j);
      ItemsFromEvolves(r.state, env, playlist, media, r.existing, j + 1);
      EvolvesTrans(st, r.state, ItemsFrom(r.state, env, playlist, media, r.existing, j + 1).state);
      assert Ticks(|media|)[j..] == [Percent(j + 1, |media|)] + Ticks(|media|)[j + 1..];
    } else {
      ItemsFromEnd(st, env, playlist, media, existing);
      EvolvesRefl(st);
      assert Ticks(|media|)[j..] == [];
    }
  }

  /**
   * `SyncMedia` either throws before changing anything, or reports one value
   * per entry (0 for all but the last, which reports 100) and then 100, and
   * makes delete requests only under StrictSync: then exactly one, with
   * file removal, per movie filed under the playlist whose IdentifierId no
   * entry has, in library order, all before the entry loop.
   */
  lemma SyncMediaProgress(st: SyncState, env: Env, c: ConfigSnapshot, playlist: Item)
    ensures var r := SyncMediaSpec(st, env, c, playlist);
      && Evolves(st, r.state)
      && (r.outcome.Fail? ==> r.state == st && FetchMedia(env, playlist).Err?)
      && (r.outcome.Pass? ==>
            && FetchMedia(env, playlist).Ok?
            && r.state.progress == st.progress + Ticks(|FetchMedia(env, playlist).value|) + [100])
      && (!c.strictSync ==> r.state.deletions == st.deletions)
      && (c.strictSync && r.outcome.Pass? ==>
            r.state.deletions == st.deletions + DeletionsOf(
              StaleChildren(st.library, playlist.id, IdentifierIds(env.host, FetchMedia(env, playlist).value)), true))
  {
    match FetchMedia(env, playlist)
    case Err(e) =>
    case Ok(media) =>
      var ids := IdentifierIds(env.host, media);
      var existing := ExistingMovies(st.library, ids);
      var st1 := if c.strictSync then DeleteAll(st, StaleChildren(st.library, playlist.id, ids), true) else st;
      DeleteAllEvolves(st, StaleChildren(st.library, playlist.id, ids), true);
      DeleteAllRequests(st, StaleChildren(st.library, playlist.id, ids), true);
      ItemsFromEvolves(st1, env, playlist, media, existing, 0);
      var r := ItemsFrom(st1, env, playlist, media, existing, 0);
      EvolvesTrans(st, st1, r.state);
      assert Ticks(|media|)[0..] == Ticks(|media|);
      EvolvesTrans(st, r.state, r.state.(progress := r.state.progress + [100]));
  }

  lemma PlaylistPhaseEvolves(st: SyncState, env: Env, configs: seq<ConfigSnapshot>, existing: seq<Item>, k: nat)
    requires k < |configs|
    ensures Evolves(st, PlaylistPhase(st, env, configs, existing, k).state)
    ensures PlaylistPhase(st, env, configs, existing, k).state.progress == st.progress + [Percent(k + 1, |configs|)]
  {
    var playlist := PlaylistOf(configs[k]);
    var st1 := st.(progress := st.progress + [Percent(k + 1, |configs|)]);
    match IndexOfIdentifier(existing, playlist.identifierId)
    case Some(x) =>
      MergePlaylistSelf(existing[x]);
    case None =>
      var created := playlist.(id := env.host.newItemId(FormatD(playlist.identifierId), "VodPlaylist"));
      SaveMembers(st1.library, created.(parentId := env.rootId));
  }

  lemma {:induction false} ConfigsFromEvolves(st: SyncState, env: Env, configs: seq<ConfigSnapshot>, existing: seq<Item>, k: nat)
    requires k <= |configs|
    ensures Evolves(st, ConfigsFrom(st, env, configs, existing, k).state)
    decreases |configs| - k
  {
    if k < |configs| {
      hide *;
      var t := PlaylistPhase(st, env, configs, existing, k);
      PlaylistPhaseEvolves(st, env, configs, existing, k);
      SyncMediaProgress(t.state, env, configs[k], t.playlist);
      var r := ConfigStep(st, env, configs, existing, k);
      EvolvesTrans(st, t.state, r.state);
      ConfigsFromStep(st, env, configs, existing, k, r);
      if r.outcome.Pass? {
        ConfigsFromEvolves(r.state, env, configs, existing, k + 1);
        EvolvesTrans(st, r.state, ConfigsFrom(r.state, env, configs, existing, k + 1).state);
      }
    }
  }

  /**
   * A whole run keeps Ids unique, reports only 0 and 100, and queues one
   * library scan exactly when it gets through a non-empty config list;
   * that run's last report is 100. With no configs it reports nothing and
   * every plugin item is deleted.
   */
  lemma ExecuteEffect(st: SyncState, env: Env, configs: seq<ConfigSnapshot>)
    ensures var r := ExecuteSpec(st, env, configs);
      && (UniqueIds(st.library) ==> UniqueIds(r.state.library))
      && st.progress <= r.state.progress
      && (forall i :: |st.progress| <= i < |r.state.progress| ==> r.state.progress[i] == 0 || r.state.progress[i] == 100)
      && (r.state.scans == st.scans + 1 <==> r.outcome.Pass? && |configs| > 0)
      && (r.state.scans != st.scans + 1 ==> r.state.scans == st.scans)
      && (r.outcome.Pass? && |configs| > 0 ==> r.state.progress[|r.state.progress| - 1] == 100)
      && (|configs| == 0 ==> r.state.progress == st.progress && r.outcome.Pass?)
      && (|configs| == 0 && UniqueIds(st.library) ==>
            forall it :: it in r.state.library ==> it.kind != VodPlaylistItem && it.kind != VodMovieItem)
  {
    hide ConfigsFrom, ConfigStep, ItemsFrom;
    var st1 := CleanupSpec(st, configs);
    DeleteAllEvolves(st, CleanupTargets(configs, st.library), true);
    if |configs| == 0 {
      DeleteAllRequests(st, CleanupTargets(configs, st.library), true);
      if UniqueIds(st.library) {
        CleanupEffect(st, configs);
        forall it | it in st1.library
          ensures it.kind != VodPlaylistItem && it.kind != VodMovieItem
        {
          assert !PlaylistToDelete(configs, it) && !MovieToDelete(configs, it);
        }
      }
    } else {
      var existing := ExistingPlaylists(configs, st1.library);
      ConfigsFromEvolves(st1, env, configs, existing, 0);
      var r := ConfigsFrom(st1, env, configs, existing, 0);
      EvolvesTrans(st, st1, r.state);
      if r.outcome.Pass? {
        var fin := r.state.(progress := r.state.progress + [100], scans := r.state.scans + 1);
        assert st.progress <= fin.progress;
        forall i | |st.progress| <= i < |fin.progress|
          ensures fin.progress[i] == 0 || fin.progress[i] == 100
        {
          if i < |r.state.progress| {
            assert fin.progress[i] == r.state.progress[i];
          }
        }
      }
    }
  }

  /**
   * One turn of the config loop reports `(k + 1) / n * 100`, then one value
   * per parsed entry, then 100. So the reported progress can fall back: the
   * last config reports 100, and if its playlist has two entries or more the
   * first of them reports 0.
   */
  lemma ConfigStepProgress(st: SyncState, env: Env, configs: seq<ConfigSnapshot>, existing: seq<Item>, k: nat)
    requires k < |configs|
    requires ConfigStep(st, env, configs, existing, k).outcome.Pass?
    ensures var t := PlaylistPhase(st, env, configs, existing, k);
      && FetchMedia(env, t.playlist).Ok?
      && ConfigStep(st, env, configs, existing, k).state.progress ==
           st.progress + [Percent(k + 1, |configs|)] + Ticks(|FetchMedia(env, t.playlist).value|) + [100]
      && (k + 1 == |configs| && |FetchMedia(env, t.playlist).value| >= 2 ==>
            && ConfigStep(st, env, configs, existing, k).state.progress[|st.progress|] == 100
            && ConfigStep(st, env, configs, existing, k).state.progress[|st.progress| + 1] == 0)
  {
    var t := PlaylistPhase(st, env, configs, existing, k);
    PlaylistPhaseEvolves(st, env, configs, existing, k);
    SyncMediaProgress(t.state, env, configs[k], t.playlist);
    var p := ConfigStep(st, env, configs, existing, k).state.progress;
    var m := |FetchMedia(env, t.playlist).value|;
    assert p == st.progress + [Percent(k + 1, |configs|)] + Ticks(m) + [100];
    if m >= 1 {
      assert p[|st.progress| + 1] == Ticks(m)[0];
    }
  }

  /**
   * A known playlist is merged with itself, which changes and writes nothing,
   * and `SyncMedia` then works on the `ToPlaylist` object, whose Id is
   * empty. A new playlist is stored under the root folder with the Id derived
   * from its IdentifierId, and every other Id keeps its record.
   */
  lemma PlaylistPhaseEffect(st: SyncState, env: Env, configs: seq<ConfigSnapshot>, existing: seq<Item>, k: nat)
    requires k < |configs| && UniqueIds(st.library)
    ensures var p := PlaylistOf(configs[k]);
      var t := PlaylistPhase(st, env, configs, existing, k);
      && (IndexOfIdentifier(existing, p.identifierId).Some? ==>
            t.state.library == st.library && t.state.updates == st.updates && t.playlist == p && t.playlist.id == EmptyGuid)
      && (IndexOfIdentifier(existing, p.identifierId).None? ==>
            && t.playlist == p.(id := env.host.newItemId(FormatD(p.identifierId), "VodPlaylist"), parentId := env.rootId)
            && Lookup(t.state.library, t.playlist.id) == Some(t.playlist)
            && t.state.updates == st.updates
            && forall other :: other != t.playlist.id ==> Lookup(t.state.library, other) == Lookup(st.library, other))
  {
    var p := PlaylistOf(configs[k]);
    match IndexOfIdentifier(existing, p.identifierId)
    case Some(x) =>
      MergePlaylistSelf(existing[x]);
    case None =>
      var created := p.(id := env.host.newItemId(FormatD(p.identifierId), "VodPlaylist"), parentId := env.rootId);
      forall other | other != created.id
        ensures Lookup(Save(st.library, created), other) == Lookup(st.library, other)
      {
        SaveStores(st.library, created, other);
      }
      SaveStores(st.library, created, created.id);
  }

  /**
   * One entry: a known IdentifierId updates the first known object's path,
   * which is written back only when it changed; an unknown one is stored
   * under the playlist with the Id derived from its IdentifierId, carrying
   * the metadata the search found, and every other Id keeps its record.
   */
  lemma ItemStepEffect(st: SyncState, env: Env, playlist: Item, media: seq<Media>, existing: seq<Item>, j: nat)
    requires j < |media| && UniqueIds(st.library)
    ensures var vod := ToVodItem(env.host, media[j]);
      var r := ItemStep(st, env, playlist, media, existing, j);
      && (IndexOfIdentifier(existing, vod.identifierId).Some? ==>
            var x := IndexOfIdentifier(existing, vod.identifierId).value;
            && r.existing == existing[x := MergeMovie(existing[x], vod)]
            && r.existing[x].path == vod.path && r.existing[x].id == existing[x].id
            && (MovieMergeUpdates(existing[x], vod) ==>
                  Lookup(r.state.library, existing[x].id) == Some(r.existing[x]) && r.state.updates == st.updates + [existing[x].id])
            && (!MovieMergeUpdates(existing[x], vod) ==> r.state.library == st.library && r.state.updates == st.updates))
      && (IndexOfIdentifier(existing, vod.identifierId).None? ==>
            var id := env.host.newItemId(FormatD(vod.identifierId), "VodMovie");
            && r.existing == existing && r.state.updates == st.updates
            && Lookup(r.state.library, id) == Some(Refreshed(vod.(id := id, parentId := playlist.id), env.search(vod.name)))
            && forall other :: other != id ==> Lookup(r.state.library, other) == Lookup(st.library, other))
  {
    hide *;
    var vod := ToVodItem(env.host, media[j]);
    match IndexOfIdentifier(existing, vod.identifierId)
    case Some(_) =>
      ItemStepKnown(st, env, playlist, media, existing, j);
    case None =>
      ItemStepUnknown(st, env, playlist, media, existing, j);
  }

  /** `ItemStepEffect` for an entry whose IdentifierId is known. */
  lemma ItemStepKnown(st: SyncState, env: Env, playlist: Item, media: seq<Media>, existing: seq<Item>, j: nat)
    requires j < |media| && UniqueIds(st.library)
    requires IndexOfIdentifier(existing, ToVodItem(env.host, media[j]).identifierId).Some?
    ensures var vod := ToVodItem(env.host, media[j]);
      var r := ItemStep(st, env, playlist, media, existing, j);
      var x := IndexOfIdentifier(existing, vod.identifierId).value;
      && r.existing == existing[x := MergeMovie(existing[x], vod)]
      && r.existing[x].path == vod.path && r.existing[x].id == existing[x].id
      && (MovieMergeUpdates(existing[x], vod) ==>
            Lookup(r.state.library, existing[x].id) == Some(r.existing[x]) && r.state.updates == st.updates + [existing[x].id])
      && (!MovieMergeUpdates(existing[x], vod) ==> r.state.library == st.library && r.state.updates == st.updates)
  {
    var vod := ToVodItem(env.host, media[j]);
    var x := IndexOfIdentifier(existing, vod.identifierId).value;
    SaveStores(st.library, MergeMovie(existing[x], vod), existing[x].id);
  }

  /** `ItemStepEffect` for an entry whose IdentifierId is unknown. */
  lemma ItemStepUnknown(st: SyncState, env: Env, playlist: Item, media: seq<Media>, existing: seq<Item>, j: nat)
    requires j < |media| && UniqueIds(st.library)
    requires IndexOfIdentifier(existing, ToVodItem(env.host, media[j]).identifierId).None?
    ensures var vod := ToVodItem(env.host, media[j]);
      var r := ItemStep(st, env, playlist, media, existing, j);
      var id := env.host.newItemId(FormatD(vod.identifierId), "VodMovie");
      && r.existing == existing && r.state.updates == st.updates
      && Lookup(r.state.library, id) == Some(Refreshed(vod.(id := id, parentId := playlist.id), env.search(vod.name)))
      && forall other :: other != id ==> Lookup(r.state.library, other) == Lookup(st.library, other)
  {
    var vod := ToVodItem(env.host, media[j]);
    var id := env.host.newItemId(FormatD(vod.identifierId), "VodMovie");
    var added := vod.(id := id, parentId := playlist.id);
    var lib := Save(st.library, added);
    var final := Refreshed(added, env.search(vod.name));
    SaveStores(st.library, added, id);
    SaveStores(lib, final, id);
    forall other | other != id
      ensures Lookup(ItemStep(st, env, playlist, media, existing, j).state.library, other) == Lookup(st.library, other)
    {
      SaveStores(st.library, added, other);
      SaveStores(lib, final, other);
    }
  }

  // ---------------------------------------------------------------------------
  // StrictSync

  /** No movie among the playlist's children has an IdentifierId outside `ids`. */
  predicate NoStaleChildren(lib: seq<Item>, playlistId: Guid, ids: seq<Guid>) {
    forall it :: it in lib && it.kind == VodMovieItem && FiledUnder(it, playlistId) ==> it.identifierId in ids
  }

  /** One entry keeps the playlist free of stale movies, and the known objects carry listed IdentifierIds. */
  lemma ItemStepNoStale(st: SyncState, env: Env, playlist: Item, media: seq<Media>, existing: seq<Item>, j: nat)
    requires j < |media|
    requires NoStaleChildren(st.library, playlist.id, IdentifierIds(env.host, media))
    requires forall e :: e in existing ==> e.identifierId in IdentifierIds(env.host, media)
    ensures var r := ItemStep(st, env, playlist, media, existing, j);
      && NoStaleChildren(r.state.library, playlist.id, IdentifierIds(env.host, media))
      && forall e :: e in r.existing ==> e.identifierId in IdentifierIds(env.host, media)
  {
    var ids := IdentifierIds(env.host, media);
    var st1 := st.(progress := st.progress + [Percent(j + 1, |media|)]);
    var vod := ToVodItem(env.host, media[j]);
    assert vod.identifierId == ids[j];
    var r := ItemStep(st, env, playlist, media, existing, j);
    match IndexOfIdentifier(existing, vod.identifierId)
    case Some(x) =>
      var merged := MergeMovie(existing[x], vod);
      assert existing[x] in existing;
      SaveMembers(st1.library, merged);
      forall e | e in r.existing ensures e.identifierId in ids {
        var i :| 0 <= i < |r.existing| && r.existing[i] == e;
        if i != x {
          assert existing[i] in existing;
        }
      }
    case None =>
      var created := vod.(id := env.host.newItemId(FormatD(vod.identifierId), "VodMovie"));
      var lib := AddChild(st1.library, playlist.id, created);
      SaveMembers(st1.library, created.(parentId := playlist.id));
      SaveMembers(lib, Refreshed(created.(parentId := playlist.id), env.search(created.name)));
  }

  lemma {:induction false} ItemsFromNoStale(st: SyncState, env: Env, playlist: Item, media: seq<Media>, existing: seq<Item>, j: nat)
    requires j <= |media|
    requires NoStaleChildren(st.library, playlist.id, IdentifierIds(env.host, media))
    requires forall e :: e in existing ==> e.identifierId in IdentifierIds(env.host, media)
    ensures NoStaleChildren(ItemsFrom(st, env, playlist, media, existing, j).state.library, playlist.id, IdentifierIds(env.host, media))
    decreases |media| - j
  {
    hide *;
    if j < |media| {
      var r := ItemStep(st, env, playlist, media, existing, j);
      ItemsFromAt(st, env, playlist, media, existing, j);
      ItemStepNoStale(st, env, playlist, media, existing, j);
      ItemsFromNoStale(r.state, env, playlist, media, r.existing, j + 1);
    } else {
      ItemsFromEnd(st, env, playlist, media, existing);
    }
  }

  /**
   * With StrictSync on, once `SyncMedia` is through, every movie filed under
   * the playlist has the IdentifierId of an entry the remote playlist lists.
   */
  lemma StrictSyncLeavesNoStaleChildren(st: SyncState, env: Env, c: ConfigSnapshot, playlist: Item)
    requires c.strictSync
    requires SyncMediaSpec(st, env, c, playlist).outcome.Pass?
    ensures FetchMedia(env, playlist).Ok?
    ensures NoStaleChildren(SyncMediaSpec(st, env, c, playlist).state.library, playlist.id,
      IdentifierIds(env.host, FetchMedia(env, playlist).value))
  {
    var media := FetchMedia(env, playlist).value;
    var ids := IdentifierIds(env.host, media);
    var stale := StaleChildren(st.library, playlist.id, ids);
    var st1 := DeleteAll(st, stale, true);
    DeleteAllLibrary(st, stale, true);
    forall it | it in st1.library && it.kind == VodMovieItem && FiledUnder(it, playlist.id)
      ensures it.identifierId in ids
    {
      if it.identifierId !in ids {
        GoneWithMember(stale, it, it);
      }
    }
    ItemsFromNoStale(st1, env, playlist, media, ExistingMovies(st.library, ids), 0);
  }

  /**
   * For a playlist the library already holds, `SyncMedia` gets the
   * `ToPlaylist` object, whose Id is empty, so StrictSync finds no children
   * and the turn deletes nothing, however many stale movies the stored
   * folder holds.
   */
  lemma KnownPlaylistDeletesNothing(st: SyncState, env: Env, configs: seq<ConfigSnapshot>, existing: seq<Item>, k: nat)
    requires k < |configs|
    requires IndexOfIdentifier(existing, PlaylistOf(configs[k]).identifierId).Some?
    ensures ConfigStep(st, env, configs, existing, k).state.deletions == st.deletions
  {
    var t := PlaylistPhase(st, env, configs, existing, k);
    assert t.playlist.id == EmptyGuid && t.state.deletions == st.deletions;
    SyncMediaProgress(t.state, env, configs[k], t.playlist);
    match FetchMedia(env, t.playlist)
    case Err(_) =>
    case Ok(media) =>
      WhereNone(t.state.library, (m: Item) => m.kind == VodMovieItem && FiledUnder(m, EmptyGuid) && m.identifierId !in IdentifierIds(env.host, media));
  }

  // ---------------------------------------------------------------------------
  // Isolation of a failed search

  lemma ItemStepSearchIsolated(st: SyncState, env1: Env, env2: Env, playlist: Item, media: seq<Media>, existing: seq<Item>, j: nat)
    requires j < |media|
    requires env1.host == env2.host
    requires forall n :: SameFindings(env1.search(n), env2.search(n))
    ensures ItemStep(st, env1, playlist, media, existing, j) == ItemStep(st, env2, playlist, media, existing, j)
  {
    var vod := ToVodItem(env1.host, media[j]);
    var st1 := st.(progress := st.progress + [Percent(j + 1, |media|)]);
    match IndexOfIdentifier(existing, vod.identifierId)
    case Some(x) =>
    case None =>
      var created := vod.(id := env1.host.newItemId(FormatD(vod.identifierId), "VodMovie"));
      var added := created.(parentId := playlist.id);
      assert SameFindings(env1.search(created.name), env2.search(created.name));
      SaveTwice(st1.library, added);
  }

  lemma {:induction false} ItemsFromSearchIsolated(st: SyncState, env1: Env, env2: Env, playlist: Item, media: seq<Media>, existing: seq<Item>, j: nat)
    requires j <= |media|
    requires env1.host == env2.host
    requires forall n :: SameFindings(env1.search(n), env2.search(n))
    ensures ItemsFrom(st, env1, playlist, media, existing, j) == ItemsFrom(st, env2, playlist, media, existing, j)
    decreases |media| - j
  {
    hide *;
    if j < |media| {
      ItemStepSearchIsolated(st, env1, env2, playlist, media, existing, j);
      var r := ItemStep(st, env1, playlist, media, existing, j);
      ItemsFromAt(st, env1, playlist, media, existing, j);
      ItemsFromAt(st, env2, playlist, media, existing, j);
      ItemsFromSearchIsolated(r.state, env1, env2, playlist, media, r.existing, j + 1);
    } else {
      ItemsFromEnd(st, env1, playlist, media, existing);
      ItemsFromEnd(st, env2, playlist, media, existing);
    }
  }

  /**
   * A search that throws is caught inside the entry loop: a run whose searches
   * throw behaves exactly like one whose searches find nothing there, so a
   * failed lookup never ends the run or skips another entry.
   */
  lemma {:induction false} ExecuteSearchIsolated(st: SyncState, env1: Env, env2: Env, configs: seq<ConfigSnapshot>)
    requires env1.host == env2.host && env1.fetch == env2.fetch && env1.rootId == env2.rootId
    requires forall n :: SameFindings(env1.search(n), env2.search(n))
    ensures ExecuteSpec(st, env1, configs) == ExecuteSpec(st, env2, configs)
  {
    if |configs| > 0 {
      hide *;
      var st1 := CleanupSpec(st, configs);
      var existing := ExistingPlaylists(configs, st1.library);
      ConfigsFromSearchIsolated(st1, env1, env2, configs, existing, 0);
      var r := ConfigsFrom(st1, env1, configs, existing, 0);
      ExecuteAfterLoop(st, env1, configs, r);
      ExecuteAfterLoop(st, env2, configs, r);
    }
  }

  lemma {:induction false} ConfigsFromSearchIsolated(st: SyncState, env1: Env, env2: Env, configs: seq<ConfigSnapshot>, existing: seq<Item>, k: nat)
    requires k <= |configs|
    requires env1.host == env2.host && env1.fetch == env2.fetch && env1.rootId == env2.rootId
    requires forall n :: SameFindings(env1.search(n), env2.search(n))
    ensures ConfigsFrom(st, env1, configs, existing, k) == ConfigsFrom(st, env2, configs, existing, k)
    decreases |configs| - k
  {
    hide *;
    if k < |configs| {
      ConfigStepSearchIsolated(st, env1, env2, configs, existing, k);
      var r := ConfigStep(st, env1, configs, existing, k);
      ConfigsFromStep(st, env1, configs, existing, k, r);
      ConfigsFromStep(st, env2, configs, existing, k, r);
      if r.outcome.Pass? {
        ConfigsFromSearchIsolated(r.state, env1, env2, configs, existing, k + 1);
      }
    } else {
      ConfigsFromEnd(st, env1, configs, existing);
      ConfigsFromEnd(st, env2, configs, existing);
    }
  }

  /** One config turn is the same under two searches that find the same things. */
  lemma ConfigStepSearchIsolated(st: SyncState, env1: Env, env2: Env, configs: seq<ConfigSnapshot>, existing: seq<Item>, k: nat)
    requires k < |configs|
    requires env1.host == env2.host && env1.fetch == env2.fetch && env1.rootId == env2.rootId
    requires forall n :: SameFindings(env1.search(n), env2.search(n))
    ensures ConfigStep(st, env1, configs, existing, k) == ConfigStep(st, env2, configs, existing, k)
  {
    var t := PlaylistPhase(st, env1, configs, existing, k);
    assert t == PlaylistPhase(st, env2, configs, existing, k);
    assert FetchMedia(env1, t.playlist) == FetchMedia(env2, t.playlist);
    match FetchMedia(env1, t.playlist)
    case Err(e) =>
    case Ok(media) =>
      var ids := IdentifierIds(env1.host, media);
      var st2 := if configs[k].strictSync then DeleteAll(t.state, StaleChildren(t.state.library, t.playlist.id, ids), true) else t.state;
      ItemsFromSearchIsolated(st2, env1, env2, t.playlist, media, ExistingMovies(t.state.library, ids), 0);
  }
}
