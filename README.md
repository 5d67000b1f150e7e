# ChuntFM channel API: resolution policy model

A Dafny model of the read-only channel API in `main.py`. The API serves a
static table of broadcast channels. Each channel has a list of stream
variants. To answer "what is playing" and "what is the status" for a channel,
it combines three upstream feeds: the schedule service, the jukebox service
and the restream service.

The model has four modules:

- `Wrappers`: `Option` and `Result`.
- `Upstream`: the upstream records and the adapters.
  - `NowPlayingItem` is an item whose keys may each be missing, `null` or a string. `NonEmpty` is the truthiness of the JSON object, so `{}` is falsy and `{"title": null}` is truthy.
  - `RestreamInfo` holds `current` and `current_item` as two independent optional items.
  - `ScheduleNow` normalises the schedule payload.
  - `RestreamNowPlaying` is the restream now-playing endpoint.
- `Catalog`: the channel table (`map<int, Channel>`), the listing and detail endpoints, the stream list, and the default-stream and quality-stream lookups with their 302 redirect twins.
  - Errors are `ApiError` values. Every one is answered with status 404 (`NotFound`) and the message `Detail` gives it.
- `Resolution`: the now-playing and status policies.
  - Each answer is an `Answer(value, consulted)`. `consulted` lists the upstream feeds the handler fetched, in order. This makes the short-circuiting provable.

Upstream results are parameters. A `Feeds` value holds what each fetch would
return for this request, and `None` means the fetch failed or returned
nothing. Each handler fetches each feed at most once, so one value per feed
describes a request exactly.

Points where the code is easy to misread:

- A jukebox-mode channel's now-playing answer is `[item]` only when the item is truthy, not merely present. Status, by contrast, tests presence (`is not None`).
- The primary channel's fallback reads the restream's `current` key. The generic fallback reads `current_item`.
- `target_channels` is a list tested with `in`. A missing key counts as the empty list.

## Model

| member | source | states |
|---|---|---|
| `Upstream.ScheduleNow` | main.py:87-89 | An absent payload and an empty one both become `[]`. Any non-empty result is exactly the payload. |
| `Upstream.RestreamNowPlaying` | main.py:293-298 | An item is reported exactly when the restream record is present and its `current` item is truthy. That item is `current` itself. |
| `Catalog.ListChannels` | main.py:97-100 | Every configured channel's (id, name, description) is listed, and nothing else is. |
| `Catalog.GetChannel` | main.py:102-114 | Not found exactly for an id outside the table. Otherwise it returns the channel's id, name, description and full stream list. |
| `Catalog.DetailDistinguishes` | main.py:105-261 | The three 404 messages ("Channel not found", "No streams available", "No <quality> quality stream available") differ for different errors, down to the missing quality. |
| `Catalog.ChannelStreams` | main.py:193-199 | Not found exactly for an id outside the table. Otherwise it returns the channel's streams in configuration order. |
| `Catalog.FirstMatch` | main.py:207-209 | The early-return `for` search: returns the index of the first matching element with no match before it, or none exactly when nothing matches. |
| `Catalog.SelectDefault` | main.py:207-215 | An error exactly for an empty list. The first stream flagged default wins. With none flagged, the first stream is chosen. The result is always an element of the list. |
| `Catalog.UniqueFlagIsDefault` | main.py:207-213 | When exactly one stream is flagged default, that stream is the default. |
| `Catalog.DefaultStream` | main.py:201-215 | "Channel not found" exactly for an unknown id. "No streams available" exactly for a known channel with no streams. Otherwise it returns one of the channel's streams. |
| `Catalog.DefaultStreamPlay` | main.py:223-249 | Gives the same error as the data endpoint, or a 302 redirect to the url of the very stream the data endpoint returns. |
| `Catalog.SelectQuality` | main.py:257-261 | An error exactly when no stream has the requested quality. Otherwise it returns the first stream whose quality equals the request exactly. |
| `Catalog.SelectQualityFindsEach` | main.py:257-259 | When quality tags are unique, looking up any stream's own quality returns that stream. |
| `Catalog.QualityStream` | main.py:251-261 | "Channel not found" exactly for an unknown id. "Quality not found" exactly when no stream of the channel carries the tag. Otherwise it returns one of the channel's streams with that tag. |
| `Catalog.QualityStreamPlay` | main.py:269-291 | Gives the same error as the data endpoint, or a 302 redirect to the url of the stream the data endpoint returns. |
| `Resolution.NowPlaying` | main.py:116-153 | Not found exactly for an unknown id. Jukebox is consulted exactly for a jukebox-mode channel other than 1, and then nothing else is consulted. Otherwise the schedule is consulted first and the restream only after an empty schedule. A schedule-only answer is the schedule verbatim. Any other answer has at most one item, which is non-empty and taken from a consulted feed. |
| `Resolution.PrimaryScheduleWins` | main.py:124-127 | For channel 1, a non-empty schedule is returned unchanged and nothing else is consulted, even when channel 1 is flagged jukebox. |
| `Resolution.PrimaryFallback` | main.py:129-134 | For channel 1 with an empty schedule, the answer is `[current]` exactly when the restream's `current` is truthy, else `[]`. This equals the restream now-playing endpoint's answer as a list. |
| `Resolution.JukeboxNowPlaying` | main.py:137-141 | A jukebox channel other than 1 consults only the jukebox. Its answer is non-empty exactly when the jukebox item is present and truthy, and is then `[j]`. |
| `Resolution.GenericNowPlaying` | main.py:144-153 | Any other channel returns a non-empty schedule verbatim. With an empty schedule it consults schedule then restream, and its answer is non-empty exactly when the restream is present, active, targets the channel and has a truthy `current_item`; it is then `[current_item]`. |
| `Resolution.WireNamesDistinct` | main.py:65-68 | The wire strings of the states ("up", "down", "degraded") and of the modes ("live", "restream", "jukebox", "offline") are pairwise distinct. |
| `Resolution.NowPlayingReadsOnlyConsulted` | main.py:116-153 | Two requests whose feeds agree on every consulted feed get the same now-playing answer. |
| `Resolution.Status` | main.py:155-191 | `is_playing` holds exactly when the state's wire name is "up", and state is never degraded. A non-jukebox channel fetches the restream exactly when its schedule is empty. Mode is jukebox exactly for jukebox channels, which then play exactly when the jukebox answered at all. Mode is live exactly for a non-jukebox channel with a non-empty schedule. Mode is restream exactly when a non-jukebox channel has an empty schedule and an active restream that targets it. Channel 1 has no branch of its own. |
| `Resolution.StatusReadsOnlyConsulted` | main.py:155-191 | Two requests whose feeds agree on every consulted feed get the same status. |
| `Resolution.NowPlayingImpliesPlaying` | main.py:137-191 | Off channel 1, a non-empty now-playing answer implies a playing status. Both handlers consult the same feeds in the same order. |
| `Resolution.PrimaryStatusAsymmetry` | main.py:124-134 | Channel 1 can report an item as now playing while its status is down/offline: an empty schedule plus a restream with `current` set that does not target it. |
| `Resolution.JukeboxPresenceVersusTruthiness` | main.py:162-169 | A jukebox answer of `{}` makes a jukebox channel up and playing, while its now-playing answer is `[]`. |
| `Resolution.ChannelNotFoundExactly` | main.py:116-291 | Every channel-scoped endpoint answers "channel not found" exactly for ids outside the table. |
| `Resolution.PrimaryChannelExample` | main.py:124-259 | Worked example. Channel 1 has an empty schedule and a restream whose `current` is `{title: "X"}`. Now-playing gives `[{title: "X"}]`. The default stream is the flagged "high" variant A. Quality "low" gives variant B. The redirects point at A's and B's urls. |

## Left out

- HTTP fetching of the feeds (`fetch_json`): the GET request, the 10-second timeout and the swallowing of every failure into "no data". The model receives the results as `Feeds`.
- Upstream payloads of the wrong JSON shape: the model types each feed with its expected shape. In the source, a truthy non-list schedule (a non-empty object or string, a non-zero number) is returned verbatim as now-playing and makes the status live, except that a number raises in `len` on channel 1. A truthy non-object jukebox payload is returned as `[j]`. An empty-list restream is falsy and behaves as absent, while a non-empty list raises at `.get` and produces a server error.
- `NowPlayingItem`: keys other than the six named ones are not represented. Such a key would make an item truthy in the source.
- `Catalog.ListChannels`: returns a set, so the order of the configuration dictionary and repeated identical summaries are not modelled.
- The FastAPI application and router, and the building of responses. A 404 is an `ApiError` value and a 302 is a `Redirect` value.
- Configuration loading and environment defaults. The channel table is a parameter.
- The `async`/`await` machinery. The fetches in one handler are sequential, and the `consulted` trace records their order.
- Pydantic validation of stream records. `StreamItem(**stream)` is taken to be a plain copy.
- The restream record's `source_channel` is carried but never read, as in the source.
