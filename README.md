# PolyPlayer in Dafny

PolyPlayer is a Discord cog that plays YouTube audio in voice channels. It
keeps one `ChannelPlayer` per voice channel: a queue of videos, the video now
playing, and a loop flag. A task that runs once a second advances every
channel. The `play`, `loop`, `skip`, `volume` and `queue` commands read and
update the channels. A URL given to `play` is turned into a video id by a
`Translator`:

- a URL that ends in `watch?v=<id>` gives the id directly;
- a YouTube watch or short link gives the id directly;
- a Spotify track link is looked up through the Spotify Web API (with a
  cached access token), then searched for on Invidious.

The `Invidious` client picks an instance from the public directory when none
is configured. It fetches the video with one retry, then chooses the audio
stream with the highest bitrate.

The model is split into these modules:

- `Base`: the `Option` and `Result` types, plus one `Error` constructor per
  exception the cog raises.
- `Text`: character classes, `str()` of a natural number, `str.join` and
  `rstrip("/")`.
- `Lists`: Python's filtering comprehension, and the index `max(..., key=...)`
  picks (the first maximal element).
- `Patterns`: the three regular expressions, written as matchers. Each matcher
  is proved sound and complete against a declarative reading of its pattern.
- `Translator`: which pattern routes a URL, the track lookup, the search query,
  and the token cache. The cache is a `class` whose fields the refresh
  overwrites.
- `Invidious`: instance selection, the one-retry video fetch and audio-format
  negotiation. The configured host is a class field that `Load` fills in.
- `Listing`: the "Up next" text of `queue`. It is built by a loop that takes
  lines while they fit in 2000 characters.
- `Player`: the channel state and the tick, plus the registry class
  `PolyPlayer`, whose methods are the commands.

Every network exchange is an input:

- the instance directory;
- the two possible replies of the video endpoint;
- the `latest_version` endpoint, as a function from (video id, itag) to its
  reply;
- the Spotify token response;
- the track endpoint, as a function from (track id, bearer token) to its
  response;
- the search, as a function from query to video ids.

Other state that lives outside the model is also passed in:

- The connection's state: the set of channels that are playing or paused when
  the tick runs, and the paused and playing flags the commands read.
- The clock: integer seconds, read twice by the token refresh, once for the
  guard and once when the response has arrived.

Where the code and the intended behaviour disagree, the model follows the code:

- **The token guard is reversed.** `update_spotify_token` skips the exchange
  when the stored expiry lies *before* now + 15 minutes (`__init__.py:397-401`).
  So a token that is still valid for long is exchanged again on every Spotify
  lookup, and once the stored expiry is near or past, the token is never
  renewed. `FreshTokenIsExchangedAgain` and `StaleTokenIsKept` state both
  consequences.
- **`skip` with looping.** The intended behaviour re-appends the skipped
  videos. The code re-appends `r[:steps]` of the queue that remains
  (`__init__.py:256-258`). `SkipLoopAppendsRemaining`, `SkipLoopLosesSkipped`
  and `SkipLoopDuplicates` state what it does instead. With `[a, b, c]` and one
  step, the queue becomes `[b, c, b]`. With two steps it becomes `[c, c]`.
- **`skip` on an empty queue** replies "Nothing is currently playing". The
  queue is not changed.
- **A 401 from the track endpoint** raises "Invalid spotify token" and keeps
  the cached token. The token is not dropped.
- **Only `BadResponseError` is reported by `play`.** Other exceptions escape
  the command: no usable instance, no audio format, an empty search, a missing
  field, or an invalid Spotify client. `Player.Reply.Raised` marks these.

## Model

| member | source | states |
|---|---|---|
| `Patterns.InvidiousIdCorrect` | __init__.py:352 | The matcher yields `id` exactly when the URL reads as `.+`, then `watch?v=`, then the id from `[a-zA-Z0-9_-]+`, with `$` at the end or before a final newline. The `.+` contains no newline. |
| `Patterns.YoutubeIdSound` | __init__.py:353-364 | An id the matcher returns splits the URL into a prefix the pattern accepts, that id, and a tail that is empty, a final newline or starts with `&`. Accepted prefixes are `http(s)://`, then `www.`-optional `youtube.<tld>/watch` with `?v=` or `/`, or `youtu.be/watch/*?v=` or `youtu.be/`. |
| `Patterns.YoutubeSplitDetermined` | __init__.py:353-364 | Conversely, any such split of the URL is the one the matcher finds. The match yields exactly that id. |
| `Patterns.SpotifyIdSound` | __init__.py:365 | An id the matcher returns follows `http(s)://open.spotify.com/track/`. It is a maximal run of word characters: what follows is not a word character. |
| `Patterns.SpotifySplitDetermined` | __init__.py:365 | Conversely, every such reading of the URL yields that id. The URL then also has a scheme and the track path at the expected place. |
| `Translator.Classify` | __init__.py:367-376 | A direct id is a non-empty run of id characters. A track id is a non-empty run of word characters. |
| `Translator.YoutubeUrlIsDirect` | __init__.py:367-373 | A URL that the YouTube pattern reads as a prefix, an id and a terminator resolves to that id, unless it ends like a watch URL. For example, `https://youtu.be/abc` resolves to `abc`. |
| `Translator.UnrecognisedMatchesNothing` | __init__.py:367-376 | An unrecognised URL has no reading under any of the three patterns. |
| `Translator.WatchUrlIsDirect` | __init__.py:367-369 | Any URL of the form `<pre>watch?v=<id>` is routed directly to `id`, whatever else it also matches. |
| `Translator.TrackUrlIsTrack` | __init__.py:367-373 | A Spotify track URL that does not end like a watch URL is resolved through Spotify with its track id. The YouTube pattern can never match it. |
| `Translator.TrackUrlEndingInWatch` | __init__.py:367-373 | A Spotify track URL whose tail is `?watch?v=<video>` is taken as a watch URL. The first pattern wins over the third. |
| `Text.JoinAppend` | __init__.py:392 | Joining one more part adds the separator and that part at the end. |
| `Translator.QueryOneArtist` | __init__.py:392 | With one artist the query is `<name> by <artist>`. |
| `Translator.QueryAddsArtist` | __init__.py:392 | Each further artist adds one space and the artist's name at the end of the query. |
| `Translator.TrackLookup` | __init__.py:378-394 | A 401 fails with "Invalid spotify token". Any other status but 200 fails with "Could not get track data". With 200, an empty search fails with `NoSearchResult`. The lookup succeeds exactly when the status is 200 and the search returns a hit, and then it gives the first hit. |
| `Translator.RefreshToken` | __init__.py:396-414 | Skipped, with the cache unchanged, exactly when an expiry is stored that lies before now + 15 minutes. `invalid_client` raises before any field is assigned. A response without `access_token` raises with the cache unchanged. One with the token but no `expires_in` stores the token and then raises. One with both succeeds and stores the token with expiry receivedAt + `expires_in`. Every failure leaves the expiry unchanged. |
| `Translator.FreshTokenIsExchangedAgain` | __init__.py:397-401 | After a successful refresh, any later call made while the new expiry is still at least 15 minutes ahead exchanges the token again. |
| `Translator.StaleTokenIsKept` | __init__.py:397-401 | Once the guard skips, it skips at every later time. The cache never changes again, whatever the responses. |
| `Translator.Resolve` | __init__.py:367-394 | Direct and unrecognised URLs leave the token cache untouched. A track URL refreshes the cache. A refresh error is the result. Otherwise the track lookup made with the refreshed token decides: its first search hit, or its error unchanged. |
| `Translator.Translator.constructor` | __init__.py:343-344 | The cache starts with no token and no expiry. |
| `Translator.Translator.UpdateSpotifyToken` | __init__.py:396-414 | The new fields and the raised error are those of `RefreshToken` on the old fields. |
| `Translator.Translator.SpotifyToYoutubeId` | __init__.py:378-394 | The cache is refreshed first. A refresh error is returned as is; otherwise the result is the track lookup with the new token. |
| `Translator.Translator.ToInvidiousId` | __init__.py:367-376 | The new cache and the result are those of `Resolve` on the old cache. |
| `Text.NatToStringRoundTrip` | __init__.py:166-167 | The decimal text of a line number reads back as that number. |
| `Text.RStripSlash` | __init__.py:264 | The result is a prefix of the input with no trailing `/`. Only slashes were removed. |
| `Lists.Filter` | __init__.py:278-287 | Every kept element satisfies the condition. An element is kept exactly when it occurs in the input and satisfies the condition. |
| `Lists.FilterAppend` | __init__.py:278-287 | Filtering distributes over concatenation, so kept elements keep their order. |
| `Lists.FirstMaxIndex` | __init__.py:288-291 | The index holds a key no smaller than any other, and every earlier key is strictly smaller. This is the element Python's `max` returns. |
| `Lists.FirstMaxUnique` | __init__.py:288-291 | Those two properties determine the index. |
| `Invidious.FindBestHost` | __init__.py:276-291 | Fails with `NoInstance` exactly when no instance has stats, api, type `https` and a URI. Otherwise it returns a non-empty URI. |
| `Invidious.FindBestHostFirst` | __init__.py:288-291 | The chosen URI is that of an eligible directory entry with the most half-year active users. Every eligible entry before it has strictly fewer, so the first one wins a tie. |
| `Invidious.IneligibleIgnored` | __init__.py:278-287 | Inserting an instance that fails the filter anywhere in the directory never changes the choice. |
| `Invidious.ConfiguredHost` | __init__.py:264 | An absent or empty setting gives no host. Otherwise the host is the setting with trailing slashes stripped. |
| `Invidious.Invidious.constructor` | __init__.py:263-264 | The host is the configured host. |
| `Invidious.Invidious.Load` | __init__.py:268-270 | A non-empty host is kept. Otherwise the directory is consulted: on success the host becomes the chosen URI, on failure the host is unchanged and the error is returned. |
| `Invidious.Attempt` | __init__.py:294-300 | A non-empty `error` field fails with "Error fetching video: " + error. Otherwise the payload is returned. |
| `Invidious.GetVideo` | __init__.py:303-307 | One or two requests are made, two exactly when the first fails. The fetch succeeds when either attempt does, returning the first successful payload. A failure is the second attempt's error. |
| `Invidious.RetryRecovers` | __init__.py:303-307 | An embedded error followed by a clean reply yields the second payload after two requests. |
| `Invidious.BestAudioFormat` | __init__.py:321-324 | Fails with `NoAudioFormat` exactly when no format type starts with `audio/`. Otherwise it returns such a format from the video, with a bitrate at least that of every audio format. |
| `Invidious.BestAudioFormatFirst` | __init__.py:321-324 | On a tie the earliest audio format wins: every audio format before it has a smaller bitrate. |
| `Invidious.VideoStreamsIgnored` | __init__.py:321-324 | Adding a non-audio stream anywhere never changes the chosen format. |
| `Invidious.GetAudioUrl` | __init__.py:320-333 | No audio format gives `NoAudioFormat`. Otherwise the `latest_version` request for the chosen format's itag decides. An OK reply gives its URL; any other reply fails with "Error fetching audio: " + reason. |
| `Listing.Entries` | __init__.py:165-168 | One line per queued video, in order, numbered from the given start. |
| `Listing.TakenBounds` | __init__.py:169-173 | The taken lines stay within 2000 characters. The first line not taken would push the text past 2000. |
| `Listing.DescriptionShape` | __init__.py:169-175 | The description is the first `k` lines in order, at most 2000 characters, where line `k` would not fit. It ends with "and N more..." exactly when lines were left out, with N the number left out. |
| `Listing.AllTaken` | __init__.py:170-173 | Lines whose total fits are all taken. |
| `Listing.ShortListingComplete` | __init__.py:169-175 | A queue whose lines fit is listed in full, with no suffix. |
| `Listing.BuildDescription` | __init__.py:169-175 | The pop-while-it-fits loop computes `Description`. |
| `Player.Ticked` | __init__.py:89-100 | A tick adds no channel. Channels that are playing or paused are unchanged. Idle channels with an empty queue are removed. Every other channel advances. |
| `Player.TickedIsFate` | __init__.py:89-100 | A channel is kept by the tick exactly when its `Fate` keeps it, and then it becomes that `Fate`. This ties the repeated-tick lemmas about `Run` to the registry. |
| `Player.RotatePermutes` | __init__.py:97-99 | Looping keeps the queue's length and its multiset of videos. |
| `Player.LoopFirstPass` | __init__.py:97-100 | With looping on, tick `k+1` plays `q[k]` and leaves `q` rotated by `k+1`, so after `n` ticks the queue is `q` again. |
| `Player.LoopPeriodic` | __init__.py:97-100 | With looping on, the channel repeats itself every `len(q)` ticks from the first tick on. |
| `Player.LoopTwoTracks` | __init__.py:97-100 | `[x, y]` with looping plays x, y, x over three ticks, with two videos pending after each. |
| `Player.FifoOrder` | __init__.py:97-100 | Without looping, tick `k+1` plays `q[k]` and leaves `q[k+1:]`. |
| `Player.FifoEnds` | __init__.py:92-95 | Without looping, the tick after the last video has started removes the channel. |
| `Player.Fetch` | __init__.py:122-131 | An unresolved URL is reported as invalid. A failed resolution or video fetch becomes that error. Once the video is fetched, a failed audio negotiation becomes its error. Otherwise the video is found with the typed URL, the watch URL of the resolved id, the fetched title and the negotiated audio URL. |
| `Player.Enqueue` | __init__.py:133-141 | The channel's player, or a fresh one (empty queue, nothing playing, no loop, no volume control), gets the video at the tail of its queue. Other channels are untouched. |
| `Player.EnqueuedPlaysLast` | __init__.py:133-141 | Without looping, a video added to a channel, new or existing, plays once everything queued before it has played. |
| `Player.SkipQueue` | __init__.py:256-258 | Skipping never lengthens the queue and never brings in a video that was not queued. |
| `Player.SkipPastEnd` | __init__.py:256-258 | Skipping at least the queue's length empties it, with looping on or off. |
| `Player.SkipDropsPrefix` | __init__.py:256 | Without looping, skipping `steps` drops exactly the first `steps` videos. |
| `Player.SkipNegative` | __init__.py:256-258 | A negative count keeps the last `-steps` videos, or the whole queue when `-steps` exceeds its length, with or without looping. |
| `Player.SkipLoopAppendsRemaining` | __init__.py:256-258 | With looping, the queue that remains after `steps` videos gets its own first `steps` videos appended again, or all of them when fewer remain. |
| `Player.SkipLoopLosesSkipped` | __init__.py:256-258 | With looping, `[a, b, c]` skipped by one becomes `[b, c, b]`: `a` is lost. |
| `Player.SkipLoopDuplicates` | __init__.py:256-258 | With looping, `[a, b, c]` skipped by two becomes `[c, c]`: the one video left is duplicated. |
| `Player.Clamp` | __init__.py:197 | The gain lies in [0.5, 2.0]. It is `p/100` inside the range, 0.5 below it and 2.0 above it. |
| `Player.ClampMonotone` | __init__.py:197 | A larger percentage never gives a smaller gain. |
| `Player.PolyPlayer.constructor` | __init__.py:73 | The registry starts empty. |
| `Player.PolyPlayer.Tick` | __init__.py:88-105 | The registry becomes `Ticked` of the old one. Exactly the idle channels get a command: disconnect when their queue was empty, otherwise start the head's audio URL. Gains stay within the clamp's range. |
| `Player.PolyPlayer.Play` | __init__.py:108-142 | The resume shortcut fires exactly for a paused channel with an empty queue. Without a URL nothing else changes. With a URL the registry becomes `Enqueue` of the found video, and every failure leaves it unchanged with the matching reply. |
| `Player.PolyPlayer.SetLoop` | __init__.py:228-242 | Toggles or sets the flag of an existing channel, changing nothing else. A missing channel is reported. |
| `Player.PolyPlayer.Skip` | __init__.py:244-259 | A missing channel or empty queue changes nothing. Otherwise only the queue changes, to `SkipQueue`; the video playing and the flag are kept. |
| `Player.PolyPlayer.Volume` | __init__.py:185-198 | A source without volume control raises `NotVolumeTransformer` and nothing changes. Otherwise the command reports the gain, or sets it to `Clamp` of the percentage. |
| `Player.PolyPlayer.QueueView` | __init__.py:144-183 | "Nothing is currently playing" when the channel is missing, or its queue is empty and the connection is not playing. Otherwise it lists the video now playing, and gives `Description` of the numbered queue when the queue is non-empty. |

## Left out

- Discord plumbing is not modelled: the voice-channel membership check, the
  wording of the replies, embed colours, `connect`, `disconnect`, `resume`,
  `FFmpegPCMAudio` and the reconnect options. These are library calls. The
  connection's playing and paused status is an input. The tick's commands and
  each command's `Reply` stand for the calls made.
- The `pause` and `resume` commands only call the connection, and are not
  modelled.
- HTTP traffic is not modelled: the requests, `response.json()`, redirects and
  timeouts. Each response is an input.
- The `data` dictionary of a `VideoInfo` is reduced to its title, the only
  field read.
- Cog lifecycle and logging are not modelled: `cog_load`, `cog_unload`,
  `load`, `close`, `setup` and the `tasks.loop` scheduling.
- Concurrency is not modelled. Every command runs to completion without
  interleaving, so the check-then-create race at `__init__.py:133` and any
  change between the awaits of a tick cannot occur in the model.
- `ChannelPlayer` is a value stored in the registry rather than a shared
  object. In the source it is reachable only through `players` and the tick's
  snapshot, so updating it in place is modelled as replacing the registry
  entry.
- Player.PolyPlayer.Tick: the order in which channels are visited, which is
  dictionary insertion order, is not modelled. The commands are returned per
  channel rather than as a sequence. Each channel's outcome does not depend on
  the order.
- Player.PolyPlayer.Volume: the volume is real arithmetic rather than floating
  point, and the percentage shown in the reply (`:.0f`) is not modelled.
- Patterns.SpotifyIdSound: `\w` is taken to be ASCII letters, digits and `_`.
  Python's Unicode word characters are not modelled.
- Invidious.FindBestHost: the directory is the list of instance descriptors
  without their names. When `stats` is present, the nested
  `usage.users.activeHalfyear` counter is assumed present. `api` is reduced to
  its truth value.
- Invidious.BestAudioFormat: the bitrate is an integer, and each format's
  `type` is a string.
- Missing keys in a response (`KeyError`) are modelled only for the token
  response. Elsewhere the fields read are assumed present.
- Translator.TrackLookup: the unreachable `not response.ok` branch after the
  status checks is omitted.
- A literal example, `"https://x/watch?v=abc123"` yielding
  `"abc123"`, is not proved as a literal. `Translator.WatchUrlIsDirect` covers
  it with `pre = "https://x/"`.
