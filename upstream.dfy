/**
 * The three upstream feeds (schedule, jukebox, restream) as the values their
 * adapters hand to the resolution engine. Fetching them over HTTP is not part
 * of this model: a failed fetch is the absent value `None`.
 */
module Upstream {
  import opened Wrappers

  /** One key of an upstream JSON object: absent, present with `null`, or present with a string. */
  datatype Field = Missing | Null | Text(text: string)

  /** A "what is airing" record as an upstream sends it; every key is optional. */
  datatype NowPlayingItem = NowPlayingItem(
    title: Field,
    artist: Field,
    show: Field,
    source: Field,
    startTime: Field,
    endTime: Field)

  /** The item with no key at all, the JSON object `{}`. */
  const EmptyItem := NowPlayingItem(Missing, Missing, Missing, Missing, Missing, Missing)

  /**
   * Truthiness of the item's JSON object: an object is truthy exactly when it
   * has at least one key, whatever that key's value (`{"title": null}` is truthy).
   */
  predicate NonEmpty(item: NowPlayingItem) {
    item != EmptyItem
  }

  /**
   * The restream service's record. Keys the service leaves out take their
   * defaults: no target channels, no items, not active.
   */
  datatype RestreamInfo = RestreamInfo(
    sourceChannel: Option<int>,
    targetChannels: seq<int>,
    current: Option<NowPlayingItem>,
    currentItem: Option<NowPlayingItem>,
    isActive: bool)

  /** Which upstream feed a resolution asked for. */
  datatype Source = ScheduleFeed | JukeboxFeed | RestreamFeed

  /** What each upstream fetch would return for this request; `None` is a failed or empty fetch. */
  datatype Feeds = Feeds(
    schedule: Option<seq<NowPlayingItem>>,
    jukebox: Option<NowPlayingItem>,
    restream: Option<RestreamInfo>)

  /** The schedule adapter: an absent payload and an empty one both become the empty list. */
  function ScheduleNow(payload: Option<seq<NowPlayingItem>>): (r: seq<NowPlayingItem>)
    ensures r == [] <==> payload.None? || payload.value == []
    ensures r != [] ==> payload == Some(r)
  {
    match payload
    case None => []
    case Some(items) => if items != [] then items else []
  }

  /** The restream is live and relays to channel `id`. */
  predicate ActiveFor(restream: Option<RestreamInfo>, id: int) {
    restream.Some? && restream.value.isActive && id in restream.value.targetChannels
  }

  /**
   * The restream service's current item, when the record is present and its
   * `current` item is truthy; otherwise nothing.
   */
  function RestreamNowPlaying(restream: Option<RestreamInfo>): (r: Option<NowPlayingItem>)
    ensures r.Some? <==> restream.Some? && restream.value.current.Some? && NonEmpty(restream.value.current.value)
    ensures r.Some? ==> r == restream.value.current && NonEmpty(r.value)
  {
    if restream.Some? && restream.value.current.Some? && NonEmpty(restream.value.current.value) then
      restream.value.current
    else
      None
  }
}
