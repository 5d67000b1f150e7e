/**
 * The static channel catalogue and the read-only endpoints over it: channel
 * listing and detail, the stream list, and the default-stream and
 * quality-stream lookups with their redirecting twins.
 */
module Catalog {
  import opened Wrappers

  /** One playable stream variant of a channel. */
  datatype StreamItem = StreamItem(
    url: string,
    backupUrl: Option<string>,
    format: string,
    bitrate: int,
    quality: string,
    defaultFlag: Option<bool>)

  /** A configured channel; `jukeboxMode` is false when the configuration leaves the key out. */
  datatype Channel = Channel(
    id: int,
    name: string,
    description: string,
    jukeboxMode: bool,
    streams: seq<StreamItem>)

  /** The channel table, keyed by channel id. */
  type ChannelTable = map<int, Channel>

  /** The "not found" answers of the API. */
  datatype ApiError = ChannelNotFound | NoStreamsAvailable | QualityNotFound(quality: string)

  /** Every error of the API is answered with this HTTP status. */
  const NotFound := 404

  /** The explanatory message sent with each error. */
  function Detail(e: ApiError): string {
    match e
    case ChannelNotFound => "Channel not found"
    case NoStreamsAvailable => "No streams available"
    case QualityNotFound(q) => "No " + q + " quality stream available"
  }

  /** Different errors carry different messages, so a client can tell them apart, down to the missing quality. */
  lemma DetailDistinguishes(e1: ApiError, e2: ApiError)
    ensures Detail(e1) == Detail(e2) ==> e1 == e2
  {
    if e1.QualityNotFound? && e2.QualityNotFound? && e1 != e2 {
      var q1, q2 := e1.quality, e2.quality;
      if |q1| == |q2| {
        var i :| 0 <= i < |q1| && q1[i] != q2[i];
        assert Detail(e1)[3 + i] == q1[i];
        assert Detail(e2)[3 + i] == q2[i];
      } else {
        assert |Detail(e1)| != |Detail(e2)|;
      }
    } else if e1.QualityNotFound? && !e2.QualityNotFound? {
      assert |Detail(e1)| > |Detail(e2)|;
    } else if e2.QualityNotFound? && !e1.QualityNotFound? {
      assert |Detail(e2)| > |Detail(e1)|;
    }
  }

  /** A redirect answer: the `Location` it points at and its status code. */
  datatype Redirect = Redirect(location: string, status: int)

  const Found := 302

  datatype ChannelSummary = ChannelSummary(id: int, name: string, description: string)

  datatype ChannelDetail = ChannelDetail(id: int, name: string, description: string, streams: seq<StreamItem>)

  function Summary(ch: Channel): ChannelSummary {
    ChannelSummary(ch.id, ch.name, ch.description)
  }

  /** The summaries of all configured channels. */
  function ListChannels(table: ChannelTable): (r: set<ChannelSummary>)
    ensures forall k | k in table :: Summary(table[k]) in r
    ensures forall s | s in r :: exists k :: k in table && s == Summary(table[k])
  {
    set k | k in table :: Summary(table[k])
  }

  /** One channel with its full list of streams. */
  function GetChannel(table: ChannelTable, id: int): (r: Result<ChannelDetail, ApiError>)
    ensures id !in table <==> r == Failure(ChannelNotFound)
    ensures r.Success? ==>
              && r.value.id == table[id].id && r.value.name == table[id].name
              && r.value.description == table[id].description && r.value.streams == table[id].streams
  {
    if id !in table then Failure(ChannelNotFound)
    else
      var ch := table[id];
      Success(ChannelDetail(ch.id, ch.name, ch.description, ch.streams))
  }

  /** A channel's streams, in configuration order. */
  function ChannelStreams(table: ChannelTable, id: int): (r: Result<seq<StreamItem>, ApiError>)
    ensures id !in table <==> r == Failure(ChannelNotFound)
    ensures r.Success? ==> r.value == table[id].streams
  {
    if id !in table then Failure(ChannelNotFound) else Success(table[id].streams)
  }

  // ---------------------------------------------------------------------------
  // Linear search

  /**
   * The index of the first element of `s` that satisfies `p`, scanning in
   * order and stopping at the first match; `None` when no element does.
   */
  function FirstMatch<T>(s: seq<T>, p: T -> bool): (r: Option<nat>)
    ensures r.Some? ==> r.value < |s| && p(s[r.value])
    ensures r.Some? ==> forall j | 0 <= j < r.value :: !p(s[j])
    ensures r.None? <==> forall j | 0 <= j < |s| :: !p(s[j])
  {
    if s == [] then None
    else if p(s[0]) then Some(0)
    else
      match FirstMatch(s[1..], p)
      case None => None
      case Some(k) => Some(k + 1)
  }

  // ---------------------------------------------------------------------------
  // Default stream

  /** The stream's `default` flag is truthy; an absent flag or `null` is not. */
  predicate FlaggedDefault(s: StreamItem) {
    s.defaultFlag == Some(true)
  }

  /** `k` is the position of the first stream flagged default. */
  ghost predicate IsFirstDefault(streams: seq<StreamItem>, k: int) {
    0 <= k < |streams| && FlaggedDefault(streams[k])
    && forall j | 0 <= j < k :: !FlaggedDefault(streams[j])
  }

  /**
   * The default stream of a list: the first stream flagged default; failing
   * that, the first stream; for an empty list, no stream at all.
   */
  function SelectDefault(streams: seq<StreamItem>): (r: Result<StreamItem, ApiError>)
    ensures streams == [] <==> r.Failure?
    ensures r.Failure? ==> r.error == NoStreamsAvailable
    ensures r.Success? ==> r.value in streams
    ensures forall k | IsFirstDefault(streams, k) :: r == Success(streams[k])
    ensures streams != [] && (forall j | 0 <= j < |streams| :: !FlaggedDefault(streams[j])) ==>
              r == Success(streams[0])
  {
    match FirstMatch(streams, FlaggedDefault)
    case Some(k) => Success(streams[k])
    case None => if streams != [] then Success(streams[0]) else Failure(NoStreamsAvailable)
  }

  /** When exactly one stream is flagged default, that stream is the default. */
  lemma UniqueFlagIsDefault(streams: seq<StreamItem>, k: int)
    requires 0 <= k < |streams| && FlaggedDefault(streams[k])
    requires forall j | 0 <= j < |streams| && j != k :: !FlaggedDefault(streams[j])
    ensures SelectDefault(streams) == Success(streams[k])
  {
  }

  /** The default stream of a configured channel, as data. */
  function DefaultStream(table: ChannelTable, id: int): (r: Result<StreamItem, ApiError>)
    ensures id !in table <==> r == Failure(ChannelNotFound)
    ensures id in table && table[id].streams == [] <==> r == Failure(NoStreamsAvailable)
    ensures r.Success? ==> r.value in table[id].streams
  {
    if id !in table then Failure(ChannelNotFound) else SelectDefault(table[id].streams)
  }

  /** The default stream of a configured channel, as a redirect to its url. */
  function DefaultStreamPlay(table: ChannelTable, id: int): (r: Result<Redirect, ApiError>)
    ensures DefaultStream(table, id).Failure? ==> r == Failure(DefaultStream(table, id).error)
    ensures DefaultStream(table, id).Success? ==>
              r == Success(Redirect(DefaultStream(table, id).value.url, Found))
  {
    if id !in table then Failure(ChannelNotFound)
    else
      var streams := table[id].streams;
      match FirstMatch(streams, FlaggedDefault)
      case Some(k) => Success(Redirect(streams[k].url, Found))
      case None =>
        if streams != [] then Success(Redirect(streams[0].url, Found)) else Failure(NoStreamsAvailable)
  }

  // ---------------------------------------------------------------------------
  // Stream by quality

  /** The first stream whose quality tag equals `quality` exactly. */
  function SelectQuality(streams: seq<StreamItem>, quality: string): (r: Result<StreamItem, ApiError>)
    ensures r.Failure? <==> forall j | 0 <= j < |streams| :: streams[j].quality != quality
    ensures r.Failure? ==> r.error == QualityNotFound(quality)
    ensures r.Success? ==> r.value in streams && r.value.quality == quality
    ensures r.Success? ==>
              exists k :: (0 <= k < |streams| && r.value == streams[k]
                           && forall j | 0 <= j < k :: streams[j].quality != quality)
  {
    match FirstMatch(streams, (s: StreamItem) => s.quality == quality)
    case Some(k) => Success(streams[k])
    case None => Failure(QualityNotFound(quality))
  }

  /** No two streams of the list share a quality tag. */
  ghost predicate QualitiesUnique(streams: seq<StreamItem>) {
    forall i, j | 0 <= i < j < |streams| :: streams[i].quality != streams[j].quality
  }

  /** With unique quality tags, looking a stream up by its own quality finds that stream. */
  lemma SelectQualityFindsEach(streams: seq<StreamItem>, i: int)
    requires QualitiesUnique(streams)
    requires 0 <= i < |streams|
    ensures SelectQuality(streams, streams[i].quality) == Success(streams[i])
  {
  }

  /** A stream of a configured channel by quality tag, as data. */
  function QualityStream(table: ChannelTable, id: int, quality: string): (r: Result<StreamItem, ApiError>)
    ensures id !in table <==> r == Failure(ChannelNotFound)
    ensures r.Success? ==> r.value in table[id].streams && r.value.quality == quality
    ensures id in table ==> (r == Failure(QualityNotFound(quality)) <==>
              forall j | 0 <= j < |table[id].streams| :: table[id].streams[j].quality != quality)
  {
    if id !in table then Failure(ChannelNotFound) else SelectQuality(table[id].streams, quality)
  }

  /** A stream of a configured channel by quality tag, as a redirect to its url. */
  function QualityStreamPlay(table: ChannelTable, id: int, quality: string): (r: Result<Redirect, ApiError>)
    ensures QualityStream(table, id, quality).Failure? ==>
              r == Failure(QualityStream(table, id, quality).error)
    ensures QualityStream(table, id, quality).Success? ==>
              r == Success(Redirect(QualityStream(table, id, quality).value.url, Found))
  {
    if id !in table then Failure(ChannelNotFound)
    else
      var streams := table[id].streams;
      match FirstMatch(streams, (s: StreamItem) => s.quality == quality)
      case Some(k) => Success(Redirect(streams[k].url, Found))
      case None => Failure(QualityNotFound(quality))
  }
}
