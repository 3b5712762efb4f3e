/**
 * The constants of the plugin configuration that the core depends on. Both
 * code generations declare the same allow-list of collection types (the
 * values of Emby's `CollectionType.Movies`, `.MusicVideos` and `.TvShows`)
 * and the same plugin id.
 */
module PluginConfiguration {
  import opened Wrappers

  /** `PluginConfiguration.AllowedCollectionTypes`. */
  const AllowedCollectionTypes: seq<string> := ["movies", "musicvideos", "tvshows"]

  /** `PluginConfiguration.PluginId`. */
  const PluginId: string := "7A54F58C-F05E-4BFB-AD64-7E92FAEB0DA2"

  /** The message every guarded `CollectionType` setter throws with. */
  const InvalidCollectionType: string := "Invalid collection-type"

  /** `AllowedCollectionTypes.Contains(value)`; a null value is never contained. */
  predicate IsAllowedCollectionType(value: Option<string>) {
    value.Some? && value.value in AllowedCollectionTypes
  }

  /** Exactly the three listed names pass, and nothing else (null and the empty string included). */
  lemma AllowedCollectionTypesExactly(value: Option<string>)
    ensures IsAllowedCollectionType(value) <==>
      value == Some("movies") || value == Some("musicvideos") || value == Some("tvshows")
    ensures !IsAllowedCollectionType(None) && !IsAllowedCollectionType(Some(""))
    ensures !IsAllowedCollectionType(Some("Movies"))
  {
  }
}
