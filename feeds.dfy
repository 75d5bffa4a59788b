/**
 * The feed the handlers hand to the RSS encoder: channel metadata and one
 * item per entry (the fields of `feeds.Feed` and `feeds.Item` that are set).
 */
module Feeds {
  import opened Wrappers

  /** Instants as a count of ticks from Go's zero `time.Time`, which is therefore the least. */
  type Time = nat

  const ZeroTime: Time := 0

  /** `feeds.Item`: `link` is `Link.Href`; a time the handler does not set stays zero. */
  datatype Item = Item(
    id: string,
    title: string,
    description: string,
    link: string,
    created: Time,
    updated: Time)

  /** `feeds.Feed` plus the RSS channel language. */
  datatype Feed = Feed(
    title: string,
    description: string,
    link: string,
    language: string,
    items: seq<Item>)

  /**
   * What a handler returns: a feed to encode, or the empty string with an
   * error that may be nil (`None`).
   */
  datatype Handled = Rendered(feed: Feed) | Failed(err: Option<string>)
}
