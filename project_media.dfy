/**
 * `Project/Entities/Media.cs`: one entry of a parsed playlist, its content
 * identity, and its projection onto a library movie.
 */
module ProjectMedia {
  import opened Wrappers
  import opened Platform
  import opened ItemStore
  import opened ProjectModels

  /** A parsed playlist entry. `image` is null when the entry has no usable logo. */
  datatype Media = Media(name: string, image: Option<string>, url: string, playlistId: Guid)

  /** `Media.IdentifierId`: the MD5 digest of the URL. */
  function IdentifierId(host: Host, m: Media): Guid {
    host.md5(m.url)
  }

  /** The identity of an entry is its URL: equal URLs give equal identifiers whatever the other fields. */
  lemma IdentifierIdDependsOnUrlOnly(host: Host, a: Media, b: Media)
    requires a.url == b.url
    ensures IdentifierId(host, a) == IdentifierId(host, b)
  {
  }

  /**
   * `ToVodItem()`: a new `VodMovie` named after the entry (Name and
   * OriginalTitle), located at its URL, with default video stream -1, placed
   * under the entry's playlist, identified by the MD5 of its URL, and showing
   * the entry's image as its only, primary image when there is one.
   */
  function ToVodItem(host: Host, m: Media): (it: Item)
    ensures it.kind == VodMovieItem && it.id == EmptyGuid
    ensures it.name == m.name && it.originalTitle == m.name
    ensures it.path == m.url && it.parentId == m.playlistId
    ensures it.defaultVideoStreamIndex == Some(-1)
    ensures it.identifierId == IdentifierId(host, m)
    ensures m.image.Some? ==> it.images == Some([ImageInfo(m.image.value, Primary)])
    ensures m.image.None? ==> it.images == NewVodMovie().images
    ensures it.videoType == VideoFile && !it.isVirtualItem
  {
    var media := NewVodMovie().(name := m.name, originalTitle := m.name, path := m.url,
      defaultVideoStreamIndex := Some(-1), parentId := m.playlistId, identifierId := host.md5(m.url));
    if m.image.Some? then media.(images := Some([ImageInfo(m.image.value, Primary)])) else media
  }

  /** Two entries with the same URL project onto movies that the sync treats as the same content. */
  lemma ToVodItemSameUrl(host: Host, a: Media, b: Media)
    requires a.url == b.url
    ensures ToVodItem(host, a).identifierId == ToVodItem(host, b).identifierId
    ensures ToVodItem(host, a).path == ToVodItem(host, b).path
  {
  }
}
