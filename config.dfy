/** The shapes of the static configuration the handlers read (lib/config.go). */
module Config {
  import opened Params

  /** `Config.Bookmarks`: which bookmark group to look cities up in, and the city used when none is named. */
  datatype BookmarkSettings = BookmarkSettings(group: string, defaultCity: string)

  /** `Config`, without the path table (routing is not part of this model). */
  datatype Config = Config(
    baseUrl: string,
    owsUrl: string,
    projectUrl: string,
    defaultProjection: string,
    defaultExtent: seq<real>,
    bookmarks: BookmarkSettings)

  /** `FeedConfig`: one feed definition; `options` and `params` are untyped YAML maps. */
  datatype FeedConfig = FeedConfig(
    kind: string,
    title: string,
    description: string,
    language: string,
    options: map<string, Param>,
    params: map<string, Param>)
}
