/**
 * The configuration entities of the older plugin generation
 * (`MediaBrowser.Plugin.RemoteVideos/Entities`): `PlaylistConfig` and
 * `Playlist`, both guarding their `CollectionType` with the allow-list, and
 * `Media`, a parsed playlist entry. Playlists and entries are identified by
 * the MD5 hash of their URL, written as 32 hex digits.
 */
module LegacyEntities {
  import opened Wrappers
  import opened Platform
  import opened PluginConfiguration

  /** `Url.GetMD5().ToString("N")`: the identifier of anything with that URL. */
  function UrlIdentifier(host: Host, url: string): (r: string)
    ensures |r| == 32 && forall i :: 0 <= i < 32 ==> IsHexDigit(r[i])
  {
    FormatNShape(host.md5(url));
    FormatN(host.md5(url))
  }

  /** Two URLs get the same identifier exactly when their hashes agree. */
  lemma UrlIdentifierExact(host: Host, u1: string, u2: string)
    ensures UrlIdentifier(host, u1) == UrlIdentifier(host, u2) <==> host.md5(u1) == host.md5(u2)
  {
    FormatNInjective(host.md5(u1), host.md5(u2));
  }

  // ---------------------------------------------------------------------------
  // Media

  /** `MediaBrowser.Plugin.RemoteVideos/Entities/Media.cs`: a playlist entry. */
  datatype Media = Media(name: string, image: Option<string>, url: string) {
    /** `Identifier`: the entry's URL identifier. */
    function Identifier(host: Host): (r: string)
      ensures r == UrlIdentifier(host, url)
    {
      UrlIdentifier(host, url)
    }
  }

  /** Entries with the same URL have the same identifier, whatever their names and images. */
  lemma MediaIdentifierByUrl(host: Host, m1: Media, m2: Media)
    requires m1.url == m2.url
    ensures m1.Identifier(host) == m2.Identifier(host)
    ensures |m1.Identifier(host)| == 32
  {
  }

  // ---------------------------------------------------------------------------
  // PlaylistConfig

  /** `MediaBrowser.Plugin.RemoteVideos/Entities/PlaylistConfig.cs`: one configured remote playlist. */
  class PlaylistConfig {
    var name: string
    var url: string
    var userId: string
    var collectionType: Option<string>
    var identifierId: Guid

    /** `new PlaylistConfig()`: a fresh IdentifierId; CollectionType is null until first set. */
    constructor (freshId: Guid)
      ensures identifierId == freshId && collectionType == None
      ensures name == "" && url == "" && userId == ""
    {
      identifierId := freshId;
      collectionType := None;
      name := "";
      url := "";
      userId := "";
    }

    /**
     * The `CollectionType` setter: an allow-listed value is stored and read
     * back; any other value throws `ArgumentException` and the old value stays.
     */
    method SetCollectionType(value: Option<string>) returns (r: Outcome<string>)
      modifies this
      ensures r.Pass? <==> IsAllowedCollectionType(value)
      ensures r.Pass? ==> collectionType == value
      ensures r.Fail? ==> collectionType == old(collectionType) && r.error == InvalidCollectionType
      ensures name == old(name) && url == old(url) && userId == old(userId) && identifierId == old(identifierId)
    {
      if !IsAllowedCollectionType(value) {
        return Fail(InvalidCollectionType);
      }
      collectionType := value;
      return Pass;
    }
  }

  // ---------------------------------------------------------------------------
  // Playlist

  /** `MediaBrowser.Plugin.RemoteVideos/Entities/Playlist.cs`: a configured playlist with its parsed entries. */
  class Playlist {
    var name: string
    var url: string
    var userId: string
    var collectionType: Option<string>
    var media: seq<Media>

    /** `new Playlist()`: no entries yet; CollectionType is null until first set. */
    constructor ()
      ensures media == [] && collectionType == None
      ensures name == "" && url == "" && userId == ""
    {
      name := "";
      url := "";
      userId := "";
      collectionType := None;
      media := [];
    }

    /** `Identifier`: the playlist URL's identifier. */
    function Identifier(host: Host): (r: string)
      reads this
      ensures r == UrlIdentifier(host, url)
    {
      UrlIdentifier(host, url)
    }

    /** The `CollectionType` setter, guarded as in `PlaylistConfig`. */
    method SetCollectionType(value: Option<string>) returns (r: Outcome<string>)
      modifies this
      ensures r.Pass? <==> IsAllowedCollectionType(value)
      ensures r.Pass? ==> collectionType == value
      ensures r.Fail? ==> collectionType == old(collectionType) && r.error == InvalidCollectionType
      ensures name == old(name) && url == old(url) && userId == old(userId) && media == old(media)
    {
      if !IsAllowedCollectionType(value) {
        return Fail(InvalidCollectionType);
      }
      collectionType := value;
      return Pass;
    }

    /**
     * `RefreshMedia()`: the entries downloaded and parsed from the URL
     * (`None` when that throws) replace the list as a whole; a failure
     * leaves the old list.
     */
    method RefreshMedia(parsed: Option<seq<Media>>) returns (ok: bool)
      modifies this
      ensures ok <==> parsed.Some?
      ensures ok ==> media == parsed.value
      ensures !ok ==> media == old(media)
      ensures name == old(name) && url == old(url) && userId == old(userId) && collectionType == old(collectionType)
    {
      if parsed.None? {
        return false;
      }
      media := parsed.value;
      return true;
    }
  }

  /** A playlist and an entry with the same URL string have the same identifier. */
  lemma PlaylistAndMediaShareIdentifiers(host: Host, p: Playlist, m: Media)
    requires p.url == m.url
    ensures p.Identifier(host) == m.Identifier(host)
  {
  }
}
