/**
 * The per-channel resolution policy: which upstream feeds a channel's
 * now-playing and status answers are built from, in which order, and what
 * each answer is. Every answer carries the list of feeds it asked for, in
 * the order it asked, so that the short-circuiting of the policy can be
 * stated and proved.
 */
module Resolution {
  import opened Wrappers
  import opened Upstream
  import opened Catalog

  /** The channel whose now-playing answer is anchored on the schedule. */
  const PrimaryChannel: int := 1

  /** An answer together with the feeds consulted to produce it. */
  datatype Answer<+T> = Answer(value: T, consulted: seq<Source>)

  datatype State = Up | Down | Degraded
  datatype Mode = Live | Restream | Jukebox | Offline
  datatype ChannelStatus = ChannelStatus(state: State, mode: Mode, isPlaying: bool)

  /** The wire names of the status fields. */
  function StateName(s: State): string {
    match s
    case Up => "up"
    case Down => "down"
    case Degraded => "degraded"
  }

  function ModeName(m: Mode): string {
    match m
    case Live => "live"
    case Restream => "restream"
    case Jukebox => "jukebox"
    case Offline => "offline"
  }

  /** Distinct states and distinct modes go on the wire as distinct strings. */
  lemma WireNamesDistinct(s1: State, s2: State, m1: Mode, m2: Mode)
    ensures StateName(s1) == StateName(s2) ==> s1 == s2
    ensures ModeName(m1) == ModeName(m2) ==> m1 == m2
  {
  }

  /** Every item a resolution could have taken from the feeds it consulted. */
  ghost function Offered(feeds: Feeds, consulted: seq<Source>): set<NowPlayingItem> {
    (if ScheduleFeed in consulted then set x | x in ScheduleNow(feeds.schedule) else {})
    + (if JukeboxFeed in consulted && feeds.jukebox.Some? then {feeds.jukebox.value} else {})
    + (if RestreamFeed in consulted && feeds.restream.Some? then
         (set x | x in ToList(feeds.restream.value.current)) + (set x | x in ToList(feeds.restream.value.currentItem))
       else {})
  }

  /** `f` and `g` give the same answer from each feed named in `consulted`. */
  ghost predicate AgreeOn(f: Feeds, g: Feeds, consulted: seq<Source>) {
    && (ScheduleFeed in consulted ==> ScheduleNow(f.schedule) == ScheduleNow(g.schedule))
    && (JukeboxFeed in consulted ==> f.jukebox == g.jukebox)
    && (RestreamFeed in consulted ==> f.restream == g.restream)
  }

  /** The traces a resolution can leave: one fetch, or the schedule followed by the restream. */
  predicate WellOrdered(consulted: seq<Source>) {
    consulted == [ScheduleFeed] || consulted == [ScheduleFeed, RestreamFeed] || consulted == [JukeboxFeed]
  }

  // ---------------------------------------------------------------------------
  // Now playing

  /**
   * What is airing on channel `id`. The primary channel takes the schedule,
   * else the restream's `current` item; any other jukebox-mode channel takes
   * the jukebox item; every other channel takes the schedule, else the
   * restream's `current_item` when the restream is active and targets it.
   */
  function NowPlaying(table: ChannelTable, id: int, feeds: Feeds): (r: Result<Answer<seq<NowPlayingItem>>, ApiError>)
    ensures id !in table <==> r.Failure?
    ensures r.Failure? ==> r.error == ChannelNotFound
    ensures r.Success? ==> WellOrdered(r.value.consulted)
    ensures r.Success? ==> (JukeboxFeed in r.value.consulted <==> id != PrimaryChannel && table[id].jukeboxMode)
    ensures r.Success? && JukeboxFeed !in r.value.consulted ==>
              (RestreamFeed in r.value.consulted <==> ScheduleNow(feeds.schedule) == [])
    ensures r.Success? && r.value.consulted == [ScheduleFeed] ==> r.value.value == ScheduleNow(feeds.schedule)
    ensures r.Success? && r.value.consulted != [ScheduleFeed] ==>
              |r.value.value| <= 1 && forall x | x in r.value.value :: NonEmpty(x)
    ensures r.Success? ==> forall x | x in r.value.value :: x in Offered(feeds, r.value.consulted)
  {
    if id !in table then Failure(ChannelNotFound)
    else
      var ch := table[id];
      if id == PrimaryChannel then
        var schedule := ScheduleNow(feeds.schedule);
        if |schedule| > 0 then Success(Answer(schedule, [ScheduleFeed]))
        else
          var restream := feeds.restream;
          var items := if restream.Some? && restream.value.current.Some? && NonEmpty(restream.value.current.value)
                       then [restream.value.current.value] else [];
          Success(Answer(items, [ScheduleFeed, RestreamFeed]))
      else if ch.jukeboxMode then
        var items := if feeds.jukebox.Some? && NonEmpty(feeds.jukebox.value) then [feeds.jukebox.value] else [];
        Success(Answer(items, [JukeboxFeed]))
      else
        var schedule := ScheduleNow(feeds.schedule);
        if schedule != [] then Success(Answer(schedule, [ScheduleFeed]))
        else
          var items := if ActiveFor(feeds.restream, id) && feeds.restream.value.currentItem.Some?
                            && NonEmpty(feeds.restream.value.currentItem.value)
                       then [feeds.restream.value.currentItem.value] else [];
          Success(Answer(items, [ScheduleFeed, RestreamFeed]))
  }

  /** The primary channel with a non-empty schedule answers with that schedule, unchanged, whatever its flags. */
  lemma PrimaryScheduleWins(table: ChannelTable, feeds: Feeds)
    requires PrimaryChannel in table
    requires ScheduleNow(feeds.schedule) != []
    ensures NowPlaying(table, PrimaryChannel, feeds) == Success(Answer(ScheduleNow(feeds.schedule), [ScheduleFeed]))
  {
  }

  /**
   * The primary channel with an empty schedule answers `[current]` when the
   * restream record has a truthy `current` item, and `[]` otherwise: exactly
   * what the restream now-playing endpoint reports, as a list.
   */
  lemma PrimaryFallback(table: ChannelTable, feeds: Feeds)
    requires PrimaryChannel in table
    requires ScheduleNow(feeds.schedule) == []
    ensures NowPlaying(table, PrimaryChannel, feeds)
              == Success(Answer(ToList(RestreamNowPlaying(feeds.restream)), [ScheduleFeed, RestreamFeed]))
    ensures NowPlaying(table, PrimaryChannel, feeds).value.value != [] <==>
              feeds.restream.Some? && feeds.restream.value.current.Some? && NonEmpty(feeds.restream.value.current.value)
  {
  }

  /** A jukebox-mode channel other than the primary one answers with the jukebox item when it is truthy, else `[]`. */
  lemma JukeboxNowPlaying(table: ChannelTable, id: int, feeds: Feeds)
    requires id in table && id != PrimaryChannel && table[id].jukeboxMode
    ensures NowPlaying(table, id, feeds).Success?
    ensures NowPlaying(table, id, feeds).value.consulted == [JukeboxFeed]
    ensures NowPlaying(table, id, feeds).value.value != [] <==> feeds.jukebox.Some? && NonEmpty(feeds.jukebox.value)
    ensures NowPlaying(table, id, feeds).value.value != [] ==> NowPlaying(table, id, feeds).value.value == [feeds.jukebox.value]
  {
  }

  /**
   * Any other channel answers with its non-empty schedule verbatim; with an
   * empty schedule, with `[current_item]` exactly when the restream is
   * present, active, targets the channel and has a truthy `current_item`,
   * and with `[]` otherwise.
   */
  lemma GenericNowPlaying(table: ChannelTable, id: int, feeds: Feeds)
    requires id in table && id != PrimaryChannel && !table[id].jukeboxMode
    ensures ScheduleNow(feeds.schedule) != [] ==>
              NowPlaying(table, id, feeds) == Success(Answer(ScheduleNow(feeds.schedule), [ScheduleFeed]))
    ensures ScheduleNow(feeds.schedule) == [] ==>
              NowPlaying(table, id, feeds).Success?
              && NowPlaying(table, id, feeds).value.consulted == [ScheduleFeed, RestreamFeed]
    ensures ScheduleNow(feeds.schedule) == [] ==>
              (NowPlaying(table, id, feeds).value.value != [] <==>
                 && feeds.restream.Some? && feeds.restream.value.isActive
                 && id in feeds.restream.value.targetChannels
                 && feeds.restream.value.currentItem.Some? && NonEmpty(feeds.restream.value.currentItem.value))
    ensures ScheduleNow(feeds.schedule) == [] && NowPlaying(table, id, feeds).value.value != [] ==>
              NowPlaying(table, id, feeds).value.value == [feeds.restream.value.currentItem.value]
  {
  }

  /** The now-playing answer depends only on the feeds it consulted. */
  lemma NowPlayingReadsOnlyConsulted(table: ChannelTable, id: int, f: Feeds, g: Feeds)
    requires NowPlaying(table, id, f).Success?
    requires AgreeOn(f, g, NowPlaying(table, id, f).value.consulted)
    ensures NowPlaying(table, id, g) == NowPlaying(table, id, f)
  {
  }

  // ---------------------------------------------------------------------------
  // Status

  /**
   * The status of channel `id`: a jukebox-mode channel is up exactly when the
   * jukebox answered at all; any other channel is live on a non-empty
   * schedule, restreaming when an active restream targets it, else offline.
   */
  function Status(table: ChannelTable, id: int, feeds: Feeds): (r: Result<Answer<ChannelStatus>, ApiError>)
    ensures id !in table <==> r.Failure?
    ensures r.Failure? ==> r.error == ChannelNotFound
    ensures r.Success? ==> WellOrdered(r.value.consulted)
    ensures r.Success? ==> (r.value.value.isPlaying <==> StateName(r.value.value.state) == "up")
    ensures r.Success? ==> r.value.value.state != Degraded
    ensures r.Success? ==> (r.value.value.mode == Jukebox <==> table[id].jukeboxMode)
    ensures r.Success? ==> (r.value.value.mode == Jukebox <==> r.value.consulted == [JukeboxFeed])
    ensures r.Success? && !table[id].jukeboxMode ==>
              (RestreamFeed in r.value.consulted <==> ScheduleNow(feeds.schedule) == [])
    ensures r.Success? && table[id].jukeboxMode ==> (r.value.value.isPlaying <==> feeds.jukebox.Some?)
    ensures r.Success? ==> (r.value.value.mode == Live <==>
              !table[id].jukeboxMode && ScheduleNow(feeds.schedule) != [])
    ensures r.Success? ==> (r.value.value.mode == Restream <==>
              && !table[id].jukeboxMode
              && ScheduleNow(feeds.schedule) == []
              && feeds.restream.Some? && feeds.restream.value.isActive
              && id in feeds.restream.value.targetChannels)
    ensures r.Success? ==> (r.value.value.mode == Offline <==> !r.value.value.isPlaying && !table[id].jukeboxMode)
  {
    if id !in table then Failure(ChannelNotFound)
    else
      var ch := table[id];
      if ch.jukeboxMode then
        var isPlaying := feeds.jukebox.Some?;
        Success(Answer(ChannelStatus(if isPlaying then Up else Down, Jukebox, isPlaying), [JukeboxFeed]))
      else
        var schedule := ScheduleNow(feeds.schedule);
        if schedule != [] then Success(Answer(ChannelStatus(Up, Live, true), [ScheduleFeed]))
        else if ActiveFor(feeds.restream, id) then
          Success(Answer(ChannelStatus(Up, Restream, true), [ScheduleFeed, RestreamFeed]))
        else
          Success(Answer(ChannelStatus(Down, Offline, false), [ScheduleFeed, RestreamFeed]))
  }

  /** The status answer depends only on the feeds it consulted. */
  lemma StatusReadsOnlyConsulted(table: ChannelTable, id: int, f: Feeds, g: Feeds)
    requires Status(table, id, f).Success?
    requires AgreeOn(f, g, Status(table, id, f).value.consulted)
    ensures Status(table, id, g) == Status(table, id, f)
  {
  }

  // ---------------------------------------------------------------------------
  // How the endpoints relate

  /**
   * Off the primary channel, a non-empty now-playing answer implies a status
   * that is playing: both read the same feeds in the same order.
   */
  lemma NowPlayingImpliesPlaying(table: ChannelTable, id: int, feeds: Feeds)
    requires id != PrimaryChannel
    requires NowPlaying(table, id, feeds).Success? && NowPlaying(table, id, feeds).value.value != []
    ensures Status(table, id, feeds).Success? && Status(table, id, feeds).value.value.isPlaying
    ensures Status(table, id, feeds).value.consulted == NowPlaying(table, id, feeds).value.consulted
  {
  }

  /**
   * The primary channel has no status branch of its own: with an empty
   * schedule and an active restream that targets only channel 2 and whose
   * `current` item is set, it reports an item as now playing while its
   * status is offline.
   */
  lemma PrimaryStatusAsymmetry()
    ensures var item := NowPlayingItem(Text("X"), Missing, Missing, Missing, Missing, Missing);
            var table := map[PrimaryChannel := Channel(PrimaryChannel, "FM", "", false, [])];
            var feeds := Feeds(Some([]), None, Some(RestreamInfo(None, [2], Some(item), None, true)));
            && NowPlaying(table, PrimaryChannel, feeds) == Success(Answer([item], [ScheduleFeed, RestreamFeed]))
            && Status(table, PrimaryChannel, feeds) ==
               Success(Answer(ChannelStatus(Down, Offline, false), [ScheduleFeed, RestreamFeed]))
  {
  }

  /**
   * For a jukebox-mode channel, status tests presence and now-playing tests
   * truthiness: an empty jukebox object `{}` makes the channel up and playing
   * with nothing now playing.
   */
  lemma JukeboxPresenceVersusTruthiness(table: ChannelTable, id: int, feeds: Feeds)
    requires id in table && id != PrimaryChannel && table[id].jukeboxMode
    requires feeds.jukebox == Some(EmptyItem)
    ensures NowPlaying(table, id, feeds).value.value == []
    ensures Status(table, id, feeds).value.value == ChannelStatus(Up, Jukebox, true)
  {
  }

  /**
   * Every channel-scoped endpoint answers "channel not found" for an id
   * outside the table, and never for an id inside it.
   */
  lemma ChannelNotFoundExactly(table: ChannelTable, id: int, feeds: Feeds, quality: string)
    ensures id !in table <==> NowPlaying(table, id, feeds) == Failure(ChannelNotFound)
    ensures id !in table <==> Status(table, id, feeds) == Failure(ChannelNotFound)
    ensures id !in table <==> GetChannel(table, id) == Failure(ChannelNotFound)
    ensures id !in table <==> ChannelStreams(table, id) == Failure(ChannelNotFound)
    ensures id !in table <==> DefaultStream(table, id) == Failure(ChannelNotFound)
    ensures id !in table <==> DefaultStreamPlay(table, id) == Failure(ChannelNotFound)
    ensures id !in table <==> QualityStream(table, id, quality) == Failure(ChannelNotFound)
    ensures id !in table <==> QualityStreamPlay(table, id, quality) == Failure(ChannelNotFound)
  {
  }

  /**
   * A worked request: channel 1 with a "high" stream flagged default and a
   * "low" stream, an empty schedule, and a restream record whose `current`
   * item is set while it targets only channel 2.
   */
  lemma PrimaryChannelExample()
    ensures var x := NowPlayingItem(Text("X"), Missing, Missing, Missing, Missing, Missing);
            var a := StreamItem("A", None, "mp3", 128, "high", Some(true));
            var b := StreamItem("B", None, "mp3", 64, "low", None);
            var table := map[1 := Channel(1, "FM", "", false, [a, b])];
            var feeds := Feeds(Some([]), None, Some(RestreamInfo(None, [2], Some(x), None, true)));
            && NowPlaying(table, 1, feeds).value.value == [x]
            && DefaultStream(table, 1) == Success(a)
            && DefaultStreamPlay(table, 1) == Success(Redirect("A", Found))
            && QualityStream(table, 1, "low") == Success(b)
            && QualityStreamPlay(table, 1, "low") == Success(Redirect("B", Found))
  {
  }
}
