# Video-on-demand playlist sync for Emby, modelled in Dafny

This project models the core of an Emby plugin that mirrors remote M3U
playlists into the media server's library. It covers both code generations
of the plugin. `Project/` is the current one. `MediaBrowser.Plugin.RemoteVideos/`
is the older one, called "legacy" below. The model covers:

- the extended-M3U record parser (`M3UParser`, `AttributePattern`). Lines are
  a `seq<string>` and the stream reader is a cursor into it. The attribute
  regex `([^=\s]+)\=["']([^"']+)` is a hand-written scanner with the same
  leftmost-match semantics.
- content identity: the MD5 of an entry's URL. The current generation keeps it
  as a Guid (`ProjectMedia`). The legacy one formats it as 32 hex digits
  (`LegacyEntities`).
- the library item classes and their `Merge` methods (`ProjectModels`,
  `LegacyModels`). They are Dafny classes that hold the item record and count
  repository writes.
- the `CollectionType` allow-list setters and the legacy REST endpoints.
  `POST /vod/playlists` runs its ordered checks, then appends one configured
  playlist (`PluginConfiguration`, `LegacyEntities`, `LegacyApi`).
- the channel folder id codec `GetUrl`/`Parse`/`ToString` (`Folders`).
- the scheduled library sync of both generations. The media server's library
  is a sequence of item records in `RecursiveChildren` order (`ItemStore`).
  - A specification module per generation folds over the playlists and the
    parsed entries: `ProjectSync` and `LegacySync`, sharing `TaskEffects`.
  - An imperative `PlaylistLibrarySync` class per generation runs the same
    loops: `ProjectScheduler` and `LegacyScheduler`. Each of its methods is
    proved to end in the state the specification describes.
  - Deleting a playlist folder also deletes the movies filed under it, as
    the host does for a folder's children (`ItemStore.GoesWith`).

The quirks of the code are kept as written:

- a repeated attribute key throws and ends the parse;
- an existing playlist is merged with itself;
- the movie cleanup deletes the movies whose parent *is* configured;
- progress is `(i / n) * 100` in integer arithmetic;
- the lookup of existing movies spans the whole library;
- the current `VodPlaylist.Merge` compares `SourceType` but never copies it;
- for a playlist the library already holds, `SyncMedia` gets the `ToPlaylist` object, whose Id is empty, not the stored folder. A folder with the empty Id has no children (`ItemStore.FiledUnder`), so StrictSync then deletes nothing and leaves the stored folder's stale movies in place (`ProjectSync.KnownPlaylistDeletesNothing`). New movies of that playlist are filed under the empty Id.

Host services are parameters rather than code: URI parsing, MD5, `GetNewItemId`,
the HTTP fetch, the remote metadata search and fresh `Guid`s.

## Model

| member | source | states |
|---|---|---|
| PluginConfiguration.AllowedCollectionTypesExactly | Project/Configuration/PluginConfiguration.cs:9-14 | exactly "movies", "musicvideos" and "tvshows" are allowed; null, "" and differently cased names are not |
| AttributePattern.MatchesFromAreMatches | Project/Parser/M3UParser.cs:22 | every match `Regex.Matches` reports is the one match the pattern makes at its own start |
| AttributePattern.MatchesFromOrdered | Project/Parser/M3UParser.cs:22 | matches come in input order and do not overlap |
| AttributePattern.MatchesFromLeftmost | Project/Parser/M3UParser.cs:22 | the first match is the leftmost one; no match means the pattern matches nowhere |
| AttributePattern.MatchesWellFormed | Project/Parser/M3UParser.cs:22 | every key is non-empty without `=` or white space; every value is non-empty without a quote |
| AttributePattern.FirstKeyIsWholeRun | Project/Parser/M3UParser.cs:22 | a key is the whole run before `=`, so `#EXTINF:-1,tvg-name="X"` has the key `#EXTINF:-1,tvg-name` |
| M3UParser.AttributesOfSpec | Project/Parser/M3UParser.cs:45-62 | the dictionary exists iff the keys are distinct and then maps each key to its value; otherwise the error names a repeated key (the legacy parser, MediaBrowser.Plugin.RemoteVideos/Parser/M3UParser.cs lines 46-63, throws the same way from its `Add`) |
| M3UParser.ParseAttributes | Project/Parser/M3UParser.cs:31-65 | the loop builds the dictionary of the matches, or the duplicate-key error; no match gives the empty dictionary (likewise the legacy `ParseAttributes`, lines 32-66 of its M3UParser.cs) |
| M3UParser.AttributeShape | Project/Parser/M3UParser.cs:52-58 | every key of a parsed dictionary is non-empty without `=` or white space, and every value non-empty without a quote |
| M3UParser.Entry | Project/Parser/M3UParser.cs:104-119 | an entry has the trimmed `tvg-name`, the stream URL, the playlist's Id, and the `tvg-logo` only when it is an absolute URI |
| M3UParser.StepAt | Project/Parser/M3UParser.cs:81-101 | each turn of the reader loop moves the cursor forward and stays within the input |
| M3UParser.GetMediaItems | Project/Parser/M3UParser.cs:81-126 | the reader loop yields the entries `Scan` describes, in input order, or the duplicate-key error (likewise the legacy line loop, lines 78-123 of its M3UParser.cs) |
| M3UParser.ScanStep | Project/Parser/M3UParser.cs:85-101 | other lines are skipped; the URL line is consumed only when the dictionary has `tvg-name`; an entry needs an absolute URI on the very next line; a tag on the last line yields nothing (likewise the legacy loop, lines 82-98 of its M3UParser.cs) |
| M3UParser.StepEntry | Project/Parser/M3UParser.cs:95-121 | a turn that emits an entry consumed the tag line and the URL line right after it |
| M3UParser.ScanSources | Project/Parser/M3UParser.cs:81-121 | every entry comes from a tag line followed by its URL line, and the entries appear in input order |
| M3UParser.NoExtInfNoEntries | Project/Parser/M3UParser.cs:85-89 | input without an `#EXTINF` line yields no entries |
| M3UParser.PairedPlaylist | Project/Parser/M3UParser.cs:81-121 | a playlist of tag/URL pairs yields exactly one entry per pair, in order (likewise the legacy loop, lines 101-118 of its M3UParser.cs) |
| Platform.Trim | Project/Parser/M3UParser.cs:115 | `Trim` drops white space at both ends and nothing else |
| Platform.FormatNShape | Project/Models/VodPlaylist.cs:111 | `Guid.ToString("N")` is 32 lower-case hex digits |
| Platform.FormatNInjective | MediaBrowser.Plugin.RemoteVideos/Entities/Media.cs:14 | distinct Guids give distinct "N" strings |
| ProjectMedia.IdentifierIdDependsOnUrlOnly | Project/Entities/Media.cs:21 | entries with the same URL have the same identifier, whatever their other fields |
| ProjectMedia.ToVodItem | Project/Entities/Media.cs:25-60 | the movie takes the name as Name and OriginalTitle, the URL as Path, the playlist as parent, stream index -1, the entry's identifier, and exactly one primary image when the entry has one |
| ProjectMedia.ToVodItemSameUrl | Project/Entities/Media.cs:21-34 | entries with the same URL project to movies with the same identifier and path |
| ProjectModels.NewVodMovie | Project/Models/VodMovie.cs:23-28 | a new movie is a video file with stream index -1 and is not virtual |
| ProjectModels.VodMovie.constructor | Project/Models/VodMovie.cs:23-28 | the constructor sets those defaults |
| ProjectModels.MergeMovie | Project/Models/VodMovie.cs:34-39 | the merged movie has the other's path and is otherwise unchanged |
| ProjectModels.MergeMovieIdempotent | Project/Models/VodMovie.cs:32-46 | with equal paths nothing changes; a second merge with the same movie reports no update and changes nothing |
| ProjectModels.VodMovie.Merge | Project/Models/VodMovie.cs:30-47 | reports an update iff the paths differed, copies the path, and writes to the repository exactly then |
| ProjectModels.NewVodPlaylist | Project/Models/VodPlaylist.cs:64-70 | a new playlist has a fresh IdentifierId, SourceType Library, is not virtual and is hidden |
| ProjectModels.VodPlaylist.constructor | Project/Models/VodPlaylist.cs:64-70 | the constructor sets those defaults |
| ProjectModels.VodPlaylist.CollectionType | Project/Models/VodPlaylist.cs:29 | a playlist always reports the collection type "VodMovie" |
| ProjectModels.MergePlaylist | Project/Models/VodPlaylist.cs:76-94 | the merged playlist takes IsHidden and PlaylistUrl from the remote and keeps its SourceType |
| ProjectModels.MergePlaylistSelf | Project/Models/VodPlaylist.cs:76-94 | merging a playlist with itself reports no update and changes nothing |
| ProjectModels.MergePlaylistRepeat | Project/Models/VodPlaylist.cs:88-94 | a repeated merge with the same remote still reports an update iff the SourceTypes differ |
| ProjectModels.VodPlaylist.Merge | Project/Models/VodPlaylist.cs:72-102 | reports an update iff IsHidden, PlaylistUrl or SourceType differed, and writes to the repository exactly then |
| ProjectModels.MetadataPathLayout | Project/Models/VodPlaylist.cs:109-112 | the metadata path is the base, a separator, `channels`, the Id as 32 hex digits and `metadata` |
| ProjectModels.MetadataPathDistinct | Project/Models/VodMovie.cs:56-59 | distinct Ids get distinct metadata paths under the same base |
| ProjectModels.PlaylistConfig.constructor | Project/Entities/PlaylistConfig.cs:39-44 | a new config has a fresh IdentifierId, CreateLocalCollection on and StrictSync off |
| ProjectModels.PlaylistConfig.SetCollectionType | Project/Entities/PlaylistConfig.cs:23-35 | an allow-listed value is stored; any other value throws and keeps the old one |
| ProjectModels.PlaylistOf | Project/Entities/PlaylistConfig.cs:46-58 | the playlist built from a config copies UserId, Name, Url and IdentifierId and is hidden iff the config does not create a local collection |
| ProjectModels.PlaylistConfig.ToPlaylist | Project/Entities/PlaylistConfig.cs:46-58 | `ToPlaylist` returns a new playlist object with that record, linked to its config, reporting "VodMovie" |
| Folders.TypeNamed | Project/Folder/ChannelFolder.cs:49 | `Enum.TryParse` finds the folder type with exactly that name, or none |
| Folders.NewFolder | Project/Folder/ChannelFolder.cs:11-18 | the private constructor sets the Id only when it is neither null nor empty |
| Folders.GetUrl | Project/Folder/ChannelFolder.cs:20-27 | the URL is the type's name, a dash, then the Id (nothing for a null or empty Id) |
| Folders.ToString | Project/Folder/ChannelFolder.cs:29-32 | `ToString` is `GetUrl` of the folder's type and Id |
| Folders.RegexMatchLeftmost | Project/Folder/ChannelFolder.cs:41 | the match found is a match of `(?<type>.*?)-(?<id>.*)?` and no match starts further left |
| Folders.Parse | Project/Folder/ChannelFolder.cs:34-62 | null or "" gives the Home folder without Id; any other successful parse sets the Id |
| Folders.ParseFailsWithoutDash | Project/Folder/ChannelFolder.cs:41-45 | the parse fails to match exactly when the non-empty input has no dash |
| Folders.ParseSplitsAtFirstDash | Project/Folder/ChannelFolder.cs:41-60 | on one line the type is the text before the first dash and the Id the text after it; an unknown type name throws |
| Folders.UrlRoundTrip | Project/Folder/ChannelFolder.cs:20-62 | for an Id without line feeds, parsing `GetUrl(t, id)` gives type t and the Id (or ""), which prints back to the same URL |
| Folders.ParsePrintRoundTrip | Project/Folder/ChannelFolder.cs:29-62 | printing a successfully parsed one-line id gives back the input |
| Folders.ParseAtFirstDash | Project/Folder/ChannelFolder.cs:41-61 | for any id, the type is the text between the start of the line holding the first dash and that dash, and the id runs from the dash to that line's end: earlier dash-free lines are skipped, later lines ignored |
| ItemStore.Where | Project/Scheduler/PlaylistLibrarySync.cs:51-56 | a `Where` keeps exactly the records that satisfy the filter |
| ItemStore.IndexOfIdentifier | Project/Scheduler/PlaylistLibrarySync.cs:105 | `FirstOrDefault` by IdentifierId finds the first record with it, or none |
| ItemStore.SaveStores | Project/Scheduler/PlaylistLibrarySync.cs:118 | after a save the record is stored under its Id, every other Id keeps its record, and Ids stay unique |
| ItemStore.SaveTwice | Project/Scheduler/PlaylistLibrarySync.cs:186-189 | saving the same record twice is the same as saving it once |
| ItemStore.RemoveItemSpec | Project/Scheduler/PlaylistLibrarySync.cs:71-74 | deleting an item removes exactly the record with its Id and, for a stored playlist folder, the records filed under it; Ids stay unique |
| TaskEffects.Percent | Project/Scheduler/PlaylistLibrarySync.cs:104 | `(i / n) * 100` is 0 before the last step and 100 at it |
| TaskEffects.Ticks | MediaBrowser.Plugin.RemoteVideos/Scheduler/PlaylistLibrarySync.cs:104 | a loop over n elements reports `Percent(i + 1, n)` for each of them |
| TaskEffects.DeleteAllRequests | Project/Scheduler/PlaylistLibrarySync.cs:68-75 | the delete loop asks to delete each item, in order, with the same DeleteFileLocation, and touches nothing but the library |
| TaskEffects.DeleteAllLibrary | MediaBrowser.Plugin.RemoteVideos/Scheduler/PlaylistLibrarySync.cs:69-76 | the delete loop removes exactly the records some deleted item takes along: its own record, and the children of a deleted playlist folder; Ids stay unique |
| TaskEffects.SaveIds | MediaBrowser.Plugin.RemoteVideos/Scheduler/PlaylistLibrarySync.cs:152-159 | a save keeps every Id and adds the saved one |
| ProjectSync.CleanupTargets | Project/Scheduler/PlaylistLibrarySync.cs:51-64 | the delete list holds exactly the library items one of the two filters selects |
| ProjectSync.PlaylistCleanupRule | Project/Scheduler/PlaylistLibrarySync.cs:53-55 | a playlist goes iff its Id or IdentifierId is empty or no config has its IdentifierId; the config-count tests add nothing |
| ProjectSync.CleanupEffect | Project/Scheduler/PlaylistLibrarySync.cs:47-76 | after `Cleanup` the library holds exactly the records that neither filter selects and that no deleted playlist folder held, and one delete request with files is made per selected item |
| ProjectSync.Enrich | Project/Scheduler/PlaylistLibrarySync.cs:230-251 | the item takes the five metadata fields; a primary image goes before the existing images, which keep their order |
| ProjectSync.ItemStep | Project/Scheduler/PlaylistLibrarySync.cs:166-199 | one turn of the entry loop keeps one known object per slot |
| ProjectSync.ItemStepEffect | Project/Scheduler/PlaylistLibrarySync.cs:172-190 | a known movie is merged and written only when its path changed; an unknown one is stored under its derived Id with the metadata found |
| ProjectSync.ItemStepEvolves | Project/Scheduler/PlaylistLibrarySync.cs:168-196 | one entry deletes nothing and reports `(j + 1) / n * 100` |
| ProjectSync.ItemsFromEvolves | Project/Scheduler/PlaylistLibrarySync.cs:164-199 | the entry loop deletes nothing and reports one tick per entry |
| ProjectSync.SyncMediaProgress | Project/Scheduler/PlaylistLibrarySync.cs:135-202 | `SyncMedia` fails only on a failed fetch or parse, then unchanged; otherwise it reports the ticks then 100; without StrictSync it deletes nothing, with StrictSync it requests exactly the deletion of the movies filed under the object `SyncMedia` gets whose IdentifierId no entry has (none when that object has the empty Id) |
| ProjectSync.StrictSyncLeavesNoStaleChildren | Project/Scheduler/PlaylistLibrarySync.cs:147-162 | with StrictSync no movie filed under the object `SyncMedia` gets is left whose IdentifierId the remote no longer lists; an object with the empty Id has no such movies |
| ProjectSync.KnownPlaylistDeletesNothing | Project/Scheduler/PlaylistLibrarySync.cs:103-126 | a turn for a playlist the library already holds deletes nothing, StrictSync or not, because `SyncMedia` gets the empty-Id object |
| ProjectSync.ItemStepNoStale | Project/Scheduler/PlaylistLibrarySync.cs:166-199 | one entry adds no movie of the playlist that the remote does not list |
| ProjectSync.ItemsFromNoStale | Project/Scheduler/PlaylistLibrarySync.cs:166-199 | the entry loop keeps the playlist free of unlisted movies |
| ProjectSync.PlaylistPhaseEvolves | Project/Scheduler/PlaylistLibrarySync.cs:103-119 | the playlist half of a turn reports `(k + 1) / n * 100` and only adds to the logs |
| ProjectSync.PlaylistPhaseEffect | Project/Scheduler/PlaylistLibrarySync.cs:105-119 | a known playlist is merged with itself and nothing changes, and `SyncMedia` gets the empty-Id object; a new one is stored under its derived Id below the root |
| ProjectSync.ConfigsFromEvolves | Project/Scheduler/PlaylistLibrarySync.cs:101-129 | the config loop keeps Ids unique, only adds to the delete, update and progress logs, reports only 0 and 100, and queues no scan |
| ProjectSync.ConfigStepProgress | Project/Scheduler/PlaylistLibrarySync.cs:104-126 | a turn reports its own tick, the entry ticks and 100, so the reported value can fall from 100 back to 0 |
| ProjectSync.ExecuteEffect | Project/Scheduler/PlaylistLibrarySync.cs:78-133 | a run keeps Ids unique and reports only 0 and 100; it queues one scan iff it gets through a non-empty config list, ending with 100; with no configs it reports nothing and every plugin item is deleted |
| ProjectSync.ItemStepSearchIsolated | Project/Scheduler/PlaylistLibrarySync.cs:170-196 | a search that throws has the same effect as one that finds nothing |
| ProjectSync.ItemsFromSearchIsolated | Project/Scheduler/PlaylistLibrarySync.cs:166-199 | the same holds for the whole entry loop |
| ProjectSync.ExecuteSearchIsolated | Project/Scheduler/PlaylistLibrarySync.cs:78-133 | the same holds for the whole run: a search exception never escapes an entry |
| ProjectSync.ConfigsFromSearchIsolated | Project/Scheduler/PlaylistLibrarySync.cs:101-129 | the same holds for the config loop |
| ProjectScheduler.PlaylistLibrarySync.constructor | Project/Scheduler/PlaylistLibrarySync.cs:37-45 | a new task has done nothing yet |
| ProjectScheduler.PlaylistLibrarySync.DeleteItem | Project/Scheduler/PlaylistLibrarySync.cs:71-74 | deleting removes the item's record, and a playlist folder's children with it, and logs a request with files |
| ProjectScheduler.PlaylistLibrarySync.DeleteItems | Project/Scheduler/PlaylistLibrarySync.cs:68-75 | the loop ends in the state `DeleteAll` describes |
| ProjectScheduler.PlaylistLibrarySync.Cleanup | Project/Scheduler/PlaylistLibrarySync.cs:47-76 | `Cleanup` ends in the state `CleanupSpec` describes |
| ProjectScheduler.PlaylistLibrarySync.RefreshMetaData | Project/Scheduler/PlaylistLibrarySync.cs:204-255 | nothing when the search throws, otherwise the item enriched by the first result, or unchanged without one |
| ProjectScheduler.PlaylistLibrarySync.SyncItem | Project/Scheduler/PlaylistLibrarySync.cs:168-196 | one turn of the entry loop ends as `ItemStep` describes |
| ProjectScheduler.PlaylistLibrarySync.SyncMedia | Project/Scheduler/PlaylistLibrarySync.cs:135-202 | `SyncMedia` ends as `SyncMediaSpec` describes |
| ProjectScheduler.PlaylistLibrarySync.SyncPlaylist | Project/Scheduler/PlaylistLibrarySync.cs:103-119 | the playlist half of a turn ends as `PlaylistPhase` describes |
| ProjectScheduler.PlaylistLibrarySync.SyncConfig | Project/Scheduler/PlaylistLibrarySync.cs:103-128 | one turn of the config loop ends as `ConfigStep` describes |
| ProjectScheduler.PlaylistLibrarySync.SyncPlaylists | Project/Scheduler/PlaylistLibrarySync.cs:101-129 | the config loop ends as `ConfigsFrom` describes |
| ProjectScheduler.PlaylistLibrarySync.Execute | Project/Scheduler/PlaylistLibrarySync.cs:78-133 | `Execute` ends as `ExecuteSpec` describes, so `ExecuteEffect` holds of it |
| LegacyEntities.UrlIdentifier | MediaBrowser.Plugin.RemoteVideos/Entities/Media.cs:14 | an identifier is 32 hex digits |
| LegacyEntities.UrlIdentifierExact | MediaBrowser.Plugin.RemoteVideos/Entities/Playlist.cs:40 | two URLs get the same identifier iff their hashes agree |
| LegacyEntities.Media.Identifier | MediaBrowser.Plugin.RemoteVideos/Entities/Media.cs:14 | an entry's identifier is that of its URL |
| LegacyEntities.MediaIdentifierByUrl | MediaBrowser.Plugin.RemoteVideos/Entities/Media.cs:14 | entries with the same URL have the same 32-digit identifier, whatever their name and image |
| LegacyEntities.PlaylistConfig.constructor | MediaBrowser.Plugin.RemoteVideos/Entities/PlaylistConfig.cs:35-38 | a new config has a fresh IdentifierId and no collection type |
| LegacyEntities.PlaylistConfig.SetCollectionType | MediaBrowser.Plugin.RemoteVideos/Entities/PlaylistConfig.cs:19-31 | an allow-listed value is stored and read back; any other value throws and keeps the old one |
| LegacyEntities.Playlist.constructor | MediaBrowser.Plugin.RemoteVideos/Entities/Playlist.cs:43 | a new playlist has no entries and no collection type |
| LegacyEntities.Playlist.Identifier | MediaBrowser.Plugin.RemoteVideos/Entities/Playlist.cs:40 | a playlist's identifier is that of its URL |
| LegacyEntities.Playlist.SetCollectionType | MediaBrowser.Plugin.RemoteVideos/Entities/Playlist.cs:26-38 | an allow-listed value is stored; any other value throws and keeps the old one |
| LegacyEntities.Playlist.RefreshMedia | MediaBrowser.Plugin.RemoteVideos/Entities/Playlist.cs:45-49 | the parsed entries replace the list as a whole; a failure keeps the old list |
| LegacyEntities.PlaylistAndMediaShareIdentifiers | MediaBrowser.Plugin.RemoteVideos/Entities/Playlist.cs:40 | a playlist and an entry with the same URL have the same identifier |
| LegacyApi.CheckRequest | MediaBrowser.Plugin.RemoteVideos/Api/PlaylistsEndpoint.cs:42-60 | the checks run in the order Name, Url, UserId, CollectionType, the first failure decides, and a request passes iff all four hold |
| LegacyApi.CollectionTypes | MediaBrowser.Plugin.RemoteVideos/Api/PlaylistsEndpoint.cs:35-38 | `Get` answers exactly the three allowed types |
| LegacyApi.PlaylistsEndpoint.constructor | MediaBrowser.Plugin.RemoteVideos/Api/PlaylistsEndpoint.cs:33 | an endpoint starts over the configured list, with nothing saved |
| LegacyApi.PlaylistsEndpoint.Post | MediaBrowser.Plugin.RemoteVideos/Api/PlaylistsEndpoint.cs:40-74 | a rejected request, including one the setter refuses, leaves the list and saves alone; otherwise one new entry with the request's fields is appended last and the configuration is saved |
| LegacyApi.PlaylistEndpoint.constructor | MediaBrowser.Plugin.RemoteVideos/Api/PlaylistEndpoint.cs:33 | an endpoint starts over the configured list, with nothing saved |
| LegacyApi.PlaylistEndpoint.Post | MediaBrowser.Plugin.RemoteVideos/Api/PlaylistEndpoint.cs:40-74 | the same checks; on success one new `Playlist` with no entries is appended last and the configuration is saved |
| LegacyModels.NewLegacyPlaylist | MediaBrowser.Plugin.RemoteVideos/Models/VodPlaylist.cs:37-42 | a new playlist has a fresh IdentifierId, SourceType Library and the plugin's channel id |
| LegacyModels.VodPlaylist.constructor | MediaBrowser.Plugin.RemoteVideos/Models/VodPlaylist.cs:37-42 | the constructor sets those defaults |
| LegacyModels.VodPlaylist.SetCollectionType | MediaBrowser.Plugin.RemoteVideos/Models/VodPlaylist.cs:21-33 | an allow-listed value is stored; any other value throws and keeps the old one |
| LegacyModels.MergeLegacyPlaylist | MediaBrowser.Plugin.RemoteVideos/Models/VodPlaylist.cs:48-58 | the merged playlist takes PlaylistUrl and SourceType from the remote and nothing else; without a difference it is unchanged |
| LegacyModels.MergeLegacyPlaylistSettles | MediaBrowser.Plugin.RemoteVideos/Models/VodPlaylist.cs:44-66 | a second merge with the same remote reports no update; a self-merge reports none and changes nothing |
| LegacyModels.VodPlaylist.Merge | MediaBrowser.Plugin.RemoteVideos/Models/VodPlaylist.cs:44-66 | reports an update iff PlaylistUrl or SourceType differed, copies both, and writes to the repository exactly then |
| LegacyModels.MergeLegacyMovie | MediaBrowser.Plugin.RemoteVideos/Models/VodMovie.cs:31-36 | with a differing path the movie takes the other's path and channel media sources; otherwise it is unchanged |
| LegacyModels.MergeLegacyMovieSettles | MediaBrowser.Plugin.RemoteVideos/Models/VodMovie.cs:27-44 | a second merge with the same movie reports no update and changes nothing |
| LegacyModels.VodMovie.constructor | MediaBrowser.Plugin.RemoteVideos/Models/VodMovie.cs:20-25 | a new movie is a video file with stream index -1 and is not virtual |
| LegacyModels.VodMovie.Merge | MediaBrowser.Plugin.RemoteVideos/Models/VodMovie.cs:27-44 | reports an update iff the paths differed, and writes to the repository exactly then |
| LegacySync.CleanupTargets | MediaBrowser.Plugin.RemoteVideos/Scheduler/PlaylistLibrarySync.cs:53-65 | the delete list holds exactly the library items one of the two filters selects |
| LegacySync.CleanupEffect | MediaBrowser.Plugin.RemoteVideos/Scheduler/PlaylistLibrarySync.cs:47-77 | after `Cleanup` the library holds exactly the records that neither filter selects and that no deleted playlist folder held, with one delete request without files per selected item; with no playlists every plugin playlist goes, and a movie with both ids set stays exactly when it is not filed under a stored playlist |
| LegacySync.Enrich | MediaBrowser.Plugin.RemoteVideos/Scheduler/PlaylistLibrarySync.cs:197-215 | the item takes the five metadata fields; a primary image goes after the existing images, into a new list when there were none |
| LegacySync.IdentifierIds | MediaBrowser.Plugin.RemoteVideos/Scheduler/PlaylistLibrarySync.cs:139 | the parsed movies' IdentifierIds, in order |
| LegacySync.ItemStep | MediaBrowser.Plugin.RemoteVideos/Scheduler/PlaylistLibrarySync.cs:142-168 | one turn of the entry loop keeps one known object per slot |
| LegacySync.ItemStepEffect | MediaBrowser.Plugin.RemoteVideos/Scheduler/PlaylistLibrarySync.cs:144-162 | a known movie is merged and written only when its path changed; an unknown one is stored under its derived Id below the playlist, with the metadata found unless the search throws |
| LegacySync.ItemStepKeeps | MediaBrowser.Plugin.RemoteVideos/Scheduler/PlaylistLibrarySync.cs:144-167 | one entry deletes nothing, keeps every Id and reports no progress |
| LegacySync.ItemsFromKeeps | MediaBrowser.Plugin.RemoteVideos/Scheduler/PlaylistLibrarySync.cs:142-168 | the entry loop deletes nothing, keeps every Id and reports no progress |
| LegacySync.SyncMediaKeeps | MediaBrowser.Plugin.RemoteVideos/Scheduler/PlaylistLibrarySync.cs:130-169 | `SyncMedia` fails iff the parse fails, and then changes nothing; it never deletes, keeps every Id and reports no progress |
| LegacySync.PlaylistPhaseEvolves | MediaBrowser.Plugin.RemoteVideos/Scheduler/PlaylistLibrarySync.cs:104-119 | the playlist half of a turn reports `(k + 1) / n * 100`, deletes nothing and only adds to the logs |
| LegacySync.PlaylistPhaseEffect | MediaBrowser.Plugin.RemoteVideos/Scheduler/PlaylistLibrarySync.cs:105-119 | a known playlist is merged with itself and nothing changes; a new one is stored under its derived Id below the root |
| LegacySync.PlaylistStepProgress | MediaBrowser.Plugin.RemoteVideos/Scheduler/PlaylistLibrarySync.cs:104-121 | a turn that gets through reports only its own tick, and no turn deletes |
| LegacySync.PlaylistsFromEvolves | MediaBrowser.Plugin.RemoteVideos/Scheduler/PlaylistLibrarySync.cs:102-124 | the playlist loop only adds to the logs and makes no delete request |
| LegacySync.PlaylistsFromProgress | MediaBrowser.Plugin.RemoteVideos/Scheduler/PlaylistLibrarySync.cs:100-124 | a loop that gets through reports exactly one tick per playlist |
| LegacySync.ExecuteEffect | MediaBrowser.Plugin.RemoteVideos/Scheduler/PlaylistLibrarySync.cs:79-128 | a run keeps Ids unique and deletes only in `Cleanup`; with no playlists it reports nothing and queues no scan; a run that gets through reports the ticks then 100 and queues one scan |
| LegacySync.PlaylistsFromSearchIsolated | MediaBrowser.Plugin.RemoteVideos/Scheduler/PlaylistLibrarySync.cs:102-124 | whether the playlist loop throws, and what, depends on the parse results alone, never on the metadata search |
| LegacySync.ExecuteSearchIsolated | MediaBrowser.Plugin.RemoteVideos/Scheduler/PlaylistLibrarySync.cs:79-167 | runs that differ only in the metadata search end with the same outcome |
| LegacySync.ItemStepSameFindings | MediaBrowser.Plugin.RemoteVideos/Scheduler/PlaylistLibrarySync.cs:144-167 | a search that throws has the same effect on an entry as one that finds nothing |
| LegacySync.ItemsFromSameFindings | MediaBrowser.Plugin.RemoteVideos/Scheduler/PlaylistLibrarySync.cs:142-168 | the same holds for the whole entry loop |
| LegacySync.PlaylistStepSameFindings | MediaBrowser.Plugin.RemoteVideos/Scheduler/PlaylistLibrarySync.cs:104-121 | the same holds for one playlist turn |
| LegacySync.PlaylistsFromSameFindings | MediaBrowser.Plugin.RemoteVideos/Scheduler/PlaylistLibrarySync.cs:102-124 | the same holds for the playlist loop |
| LegacySync.ExecuteSameFindings | MediaBrowser.Plugin.RemoteVideos/Scheduler/PlaylistLibrarySync.cs:79-128 | a run whose searches throw ends in the same state and outcome as one whose searches find nothing |
| LegacyScheduler.PlaylistLibrarySync.constructor | MediaBrowser.Plugin.RemoteVideos/Scheduler/PlaylistLibrarySync.cs:38-45 | a new task has done nothing yet |
| LegacyScheduler.PlaylistLibrarySync.DeleteItem | MediaBrowser.Plugin.RemoteVideos/Scheduler/PlaylistLibrarySync.cs:72-75 | deleting removes the item's record, and a playlist folder's children with it, and logs a request without files |
| LegacyScheduler.PlaylistLibrarySync.DeleteItems | MediaBrowser.Plugin.RemoteVideos/Scheduler/PlaylistLibrarySync.cs:69-76 | the loop ends in the state `DeleteAll` describes |
| LegacyScheduler.PlaylistLibrarySync.Cleanup | MediaBrowser.Plugin.RemoteVideos/Scheduler/PlaylistLibrarySync.cs:47-77 | `Cleanup` ends in the state `CleanupSpec` describes |
| LegacyScheduler.PlaylistLibrarySync.RefreshMetaData | MediaBrowser.Plugin.RemoteVideos/Scheduler/PlaylistLibrarySync.cs:171-218 | nothing when the search throws, otherwise the item enriched by the first result with the image appended, or unchanged without one |
| LegacyScheduler.PlaylistLibrarySync.SyncItem | MediaBrowser.Plugin.RemoteVideos/Scheduler/PlaylistLibrarySync.cs:144-167 | one turn of the entry loop ends as `ItemStep` describes |
| LegacyScheduler.PlaylistLibrarySync.SyncMedia | MediaBrowser.Plugin.RemoteVideos/Scheduler/PlaylistLibrarySync.cs:130-169 | `SyncMedia` ends as `SyncMediaSpec` describes |
| LegacyScheduler.PlaylistLibrarySync.SyncPlaylist | MediaBrowser.Plugin.RemoteVideos/Scheduler/PlaylistLibrarySync.cs:104-119 | the playlist half of a turn ends as `PlaylistPhase` describes |
| LegacyScheduler.PlaylistLibrarySync.SyncConfig | MediaBrowser.Plugin.RemoteVideos/Scheduler/PlaylistLibrarySync.cs:104-123 | one turn of the playlist loop ends as `PlaylistStep` describes |
| LegacyScheduler.PlaylistLibrarySync.SyncPlaylists | MediaBrowser.Plugin.RemoteVideos/Scheduler/PlaylistLibrarySync.cs:100-124 | the playlist loop ends as `PlaylistsFrom` describes |
| LegacyScheduler.PlaylistLibrarySync.Execute | MediaBrowser.Plugin.RemoteVideos/Scheduler/PlaylistLibrarySync.cs:79-128 | `Execute` ends as `ExecuteSpec` describes, so `ExecuteEffect` holds of it |

## Left out

- Network and stream I/O: the HTTP fetch of a playlist is an input, as the lines it yields or `None` when the request throws. The legacy parse result is an input too, as the movies or the exception.
- Logging, `async`/`await` and the cancellation tokens, which are never checked.
- The 12-hour trigger, `SaveConfiguration` persistence (counted, not written), `DateTime.Now` and `LastImportDate`.
- Progress values are `double` in the source. The model keeps the integer values the code computes before the conversion.
- `Uri.TryCreate`/`ToString`, `GetMD5`, `GetNewItemId` and `Guid.NewGuid` are uninterpreted host functions or fresh-id parameters.
- `Path.Combine` is modelled for two arguments on one path style. The four-argument call in `GetInternalMetadataPath` is modelled as nested two-argument calls. A drive-rooted second argument (`C:\x`) and a first argument ending in `:` are not treated as .NET does; the metadata path joins only plain segments. `Enum.TryParse` is an exact-name lookup: the numeric, case-insensitive and white-space forms it also accepts are not modelled.
- `line.IndexOf("#EXTINF", CurrentCulture) != 0` is modelled as an ordinal prefix test. Culture-specific ignorable characters are not modelled.
- `GetMediaSources(true).Add(...)` in `ToVodItem` and `GetMediaSources(true).AddRange(...)` in the current `VodMovie.Merge` mutate host-owned media-source lists. They are not modelled. The legacy merge's `ChannelMediaSources` assignment is modelled.
- The host's own `vodItem.RefreshMetadata` after a create is modelled as a second save of the enriched record. In both generations the enriched object is the one the library holds, which is why the model saves it.
- The configs the current sync reads are value snapshots (`ConfigSnapshot`) of the `PlaylistConfig` objects. String properties the source leaves null start as "" in the model.
- `Plugin.GetPlaylists()` (legacy) and `Plugin.Instance.Configuration.Playlists` are not part of this model. Their result is the input of `Execute`.
- The legacy `VodMovie.GetInternalMetadataPath` calls a `VodPlaylist.GetInternalMetadataPath` that the legacy `VodPlaylist` does not declare. It is not modelled. The current generation's path is.
- The legacy `Playlist.RefreshMedia` passes a URL string to a parser that takes a playlist, and the legacy sync reads the parser's entries as movies. The two legacy generations do not type-check together. The parse result is therefore an input (`Playlist.RefreshMedia`, `LegacySync.Env.mediaItems`).
- A null `Url` in a legacy `Identifier` (a null reference) is not modelled: URLs are strings.
- `Channel.cs`, `Plugin.cs`, `SyncPlaylist.cs`, `VodMusicVideo`, `VodSeries` and `IVodMedia` are not part of this model.
- RemoveItem: the host deletes a folder's descendants at every depth. The model removes the records filed directly under a deleted playlist folder. That is the only level at which the plugin files items (movies under playlists).
- Exceptions from the host inside an entry's try block other than the metadata search (a failing `AddChild` or repository write) are not modelled. The catch is modelled for the search.
