/**
 * The REST endpoints of the older plugin generation
 * (`MediaBrowser.Plugin.RemoteVideos/Api`). `GET /vod/collectiontypes`
 * answers the allow-list; `POST /vod/playlists` checks the request field by
 * field and then appends one configured playlist. There are two copies of
 * the endpoint: `PlaylistsEndpoint` appends a `PlaylistConfig`,
 * `PlaylistEndpoint` an older `Playlist`.
 *
 * An endpoint object holds the configured list it reads and replaces
 * (`Plugin.Instance.Configuration.Playlists`) and counts the
 * `SaveConfiguration` calls.
 */
module LegacyApi {
  import opened Wrappers
  import opened Platform
  import opened PluginConfiguration
  import opened LegacyEntities

  /** The request's `Uri`: what `ToString()` prints and whether it is absolute. */
  datatype RequestUrl = RequestUrl(text: string, isAbsoluteUri: bool)

  /** The POST body; every field may be missing (null). */
  datatype PlaylistRequest = PlaylistRequest(
    name: Option<string>,
    collectionType: Option<string>,
    url: Option<RequestUrl>,
    userId: Option<string>)

  /** What a rejected POST throws. */
  datatype ApiError = ArgumentError(message: string) | NullReference

  /**
   * The guard checks of `Post`, in order: Name, Url, UserId, CollectionType.
   * The first one that fails decides the error; a missing Url fails on the
   * `IsAbsoluteUri` access with a null reference.
   */
  function CheckRequest(request: PlaylistRequest): (r: Outcome<ApiError>)
    ensures r.Pass? <==>
      && !IsNullOrWhiteSpace(request.name)
      && request.url.Some? && request.url.value.isAbsoluteUri
      && !IsNullOrWhiteSpace(request.userId)
      && !IsNullOrWhiteSpace(request.collectionType)
    ensures IsNullOrWhiteSpace(request.name) ==> r == Fail(ArgumentError("Name cannot be empty."))
    ensures !IsNullOrWhiteSpace(request.name) && request.url.None? ==> r == Fail(NullReference)
    ensures !IsNullOrWhiteSpace(request.name) && request.url.Some? && !request.url.value.isAbsoluteUri ==>
      r == Fail(ArgumentError("Url cannot be relative"))
    ensures (!IsNullOrWhiteSpace(request.name) && request.url.Some? && request.url.value.isAbsoluteUri
      && IsNullOrWhiteSpace(request.userId)) ==> r == Fail(ArgumentError("UserId cannot be empty"))
    ensures r == Fail(ArgumentError("CollectionType cannot be empty")) <==>
      && !IsNullOrWhiteSpace(request.name)
      && request.url.Some? && request.url.value.isAbsoluteUri
      && !IsNullOrWhiteSpace(request.userId)
      && IsNullOrWhiteSpace(request.collectionType)
  {
    if IsNullOrWhiteSpace(request.name) then Fail(ArgumentError("Name cannot be empty."))
    else if request.url.None? then Fail(NullReference)
    else if !request.url.value.isAbsoluteUri then Fail(ArgumentError("Url cannot be relative"))
    else if IsNullOrWhiteSpace(request.userId) then Fail(ArgumentError("UserId cannot be empty"))
    else if IsNullOrWhiteSpace(request.collectionType) then Fail(ArgumentError("CollectionType cannot be empty"))
    else Pass
  }

  /** A request that passes the checks can still be refused by the entity's `CollectionType` setter. */
  predicate Accepted(request: PlaylistRequest) {
    CheckRequest(request).Pass? && IsAllowedCollectionType(request.collectionType)
  }

  /** `Get(request)`: the allow-list of collection types. */
  function CollectionTypes(): (r: seq<string>)
    ensures forall t :: t in r <==> IsAllowedCollectionType(Some(t))
    ensures |r| == 3
  {
    AllowedCollectionTypes
  }

  /** `PlaylistsEndpoint`: the copy of the endpoint that stores `PlaylistConfig` entries. */
  class PlaylistsEndpoint {
    var playlists: seq<PlaylistConfig>
    var saves: nat

    constructor (playlists: seq<PlaylistConfig>)
      ensures this.playlists == playlists && saves == 0
    {
      this.playlists := playlists;
      saves := 0;
    }

    /**
     * `Post(request)`: on any rejection the list stays as it was and nothing
     * is saved. Otherwise the list grows by exactly one new entry, last,
     * with the request's UserId, Name, Url text and CollectionType and a
     * fresh IdentifierId, and the configuration is saved.
     */
    method Post(request: PlaylistRequest, freshId: Guid) returns (outcome: Outcome<ApiError>)
      modifies this
      ensures outcome.Pass? <==> Accepted(request)
      ensures CheckRequest(request).Fail? ==> outcome == CheckRequest(request)
      ensures CheckRequest(request).Pass? && !Accepted(request) ==> outcome == Fail(ArgumentError(InvalidCollectionType))
      ensures outcome.Fail? ==> playlists == old(playlists) && saves == old(saves)
      ensures outcome.Pass? ==>
        && |playlists| == |old(playlists)| + 1
        && playlists[..|old(playlists)|] == old(playlists)
        && fresh(playlists[|old(playlists)|])
        && playlists[|old(playlists)|].userId == request.userId.value
        && playlists[|old(playlists)|].name == request.name.value
        && playlists[|old(playlists)|].url == request.url.value.text
        && playlists[|old(playlists)|].collectionType == request.collectionType
        && playlists[|old(playlists)|].identifierId == freshId
        && saves == old(saves) + 1
    {
      var check := CheckRequest(request);
      if check.Fail? {
        return check;
      }
      var list := playlists;
      var entry := new PlaylistConfig(freshId);
      entry.userId := request.userId.value;
      entry.name := request.name.value;
      entry.url := request.url.value.text;
      var stored := entry.SetCollectionType(request.collectionType);
      if stored.Fail? {
        return Fail(ArgumentError(stored.error));
      }
      list := list + [entry];
      playlists := list;
      saves := saves + 1;
      return Pass;
    }
  }

  /** `PlaylistEndpoint`: the copy of the endpoint that stores older `Playlist` entries. */
  class PlaylistEndpoint {
    var playlists: seq<Playlist>
    var saves: nat

    constructor (playlists: seq<Playlist>)
      ensures this.playlists == playlists && saves == 0
    {
      this.playlists := playlists;
      saves := 0;
    }

    /**
     * `Post(request)`: the same checks; on success one new `Playlist` with
     * the request's UserId, Name, Url text and CollectionType and no entries
     * is appended last and the configuration is saved.
     */
    method Post(request: PlaylistRequest) returns (outcome: Outcome<ApiError>)
      modifies this
      ensures outcome.Pass? <==> Accepted(request)
      ensures CheckRequest(request).Fail? ==> outcome == CheckRequest(request)
      ensures CheckRequest(request).Pass? && !Accepted(request) ==> outcome == Fail(ArgumentError(InvalidCollectionType))
      ensures outcome.Fail? ==> playlists == old(playlists) && saves == old(saves)
      ensures outcome.Pass? ==>
        && |playlists| == |old(playlists)| + 1
        && playlists[..|old(playlists)|] == old(playlists)
        && fresh(playlists[|old(playlists)|])
        && playlists[|old(playlists)|].userId == request.userId.value
        && playlists[|old(playlists)|].name == request.name.value
        && playlists[|old(playlists)|].url == request.url.value.text
        && playlists[|old(playlists)|].collectionType == request.collectionType
        && playlists[|old(playlists)|].media == []
        && saves == old(saves) + 1
    {
      var check := CheckRequest(request);
      if check.Fail? {
        return check;
      }
      var list := playlists;
      var entry := new Playlist();
      entry.userId := request.userId.value;
      entry.name := request.name.value;
      entry.url := request.url.value.text;
      var stored := entry.SetCollectionType(request.collectionType);
      if stored.Fail? {
        return Fail(ArgumentError(stored.error));
      }
      list := list + [entry];
      playlists := list;
      saves := saves + 1;
      return Pass;
    }
  }
}
