/**
 * The translator: turns a user-supplied URL into an Invidious video id. Watch and
 * short URLs carry the id; a Spotify track URL is resolved through the Spotify Web API
 * (with a cached client-credentials token) and an Invidious search.
 * The HTTP exchanges are parameters: a token response, a function from
 * (track id, bearer token) to the track response, and a function from query to the
 * video ids the search returns in order.
 */
module Translator {
  import opened Base
  import opened Text
  import opened Patterns

  /** Which branch of `to_invidious_id` a URL takes. */
  datatype Route = Direct(id: string) | Track(trackId: string) | Unrecognised

  /** The patterns are tried in order and the first that matches decides. */
  function Classify(url: string): (r: Route)
    ensures r.Direct? ==> |r.id| >= 1 && AllIdChars(r.id)
    ensures r.Track? ==> |r.trackId| >= 1 && AllWordChars(r.trackId)
  {
    match InvidiousId(url)
    case Some(id) => Direct(id)
    case None =>
      match YoutubeId(url)
      case Some(id) => Direct(id)
      case None =>
        match SpotifyId(url)
        case Some(t) => Track(t)
        case None => Unrecognised
  }

  /** A URL ending in `watch?v=<id>` resolves to that id directly, whatever else it matches. */
  lemma {:induction false} WatchUrlIsDirect(pre: string, id: string)
    requires |pre| >= 1 && NoNewline(pre) && |id| >= 1 && AllIdChars(id)
    ensures Classify(pre + WatchQuery + id) == Direct(id)
  {
    assert pre + WatchQuery + id == pre + WatchQuery + id + [];
    InvidiousSplitDetermined(pre + WatchQuery + id, pre, id, []);
  }

  /** A URL the YouTube pattern reads with `id`, and that does not end like a watch URL, resolves to `id`. */
  lemma YoutubeUrlIsDirect(pre: string, id: string, tail: string)
    requires YoutubePrefix(pre) && IdTerminator(tail) && |id| >= 1 && AllIdChars(id)
    requires InvidiousId(pre + id + tail).None?
    ensures Classify(pre + id + tail) == Direct(id)
  {
    YoutubeSplitDetermined(pre + id + tail, pre, id, tail);
  }

  /** An unrecognised URL is one that none of the three patterns reads. */
  lemma UnrecognisedMatchesNothing(url: string)
    requires Classify(url) == Unrecognised
    ensures forall pre, id, tail :: !InvidiousSplit(url, pre, id, tail)
    ensures forall pre, id, tail :: !(url == pre + id + tail && YoutubePrefix(pre) && IdTerminator(tail)
                                      && |id| >= 1 && AllIdChars(id))
    ensures forall scheme, id, rest :: !SpotifySplit(url, scheme, id, rest)
  {
    forall pre, id, tail | InvidiousSplit(url, pre, id, tail) ensures false {
      InvidiousSplitDetermined(url, pre, id, tail);
    }
    forall pre, id, tail | url == pre + id + tail && YoutubePrefix(pre) && IdTerminator(tail) && |id| >= 1 && AllIdChars(id)
      ensures false
    {
      YoutubeSplitDetermined(url, pre, id, tail);
    }
    forall scheme, id, rest | SpotifySplit(url, scheme, id, rest) ensures false {
      SpotifySplitDetermined(url, scheme, id, rest);
    }
  }

  /**
   * A Spotify track URL is resolved through Spotify unless it also ends like a watch URL:
   * the YouTube pattern can never match it, but the Invidious pattern is tried first.
   */
  lemma TrackUrlIsTrack(scheme: string, id: string, rest: string)
    requires SpotifySplit(scheme + TrackPath + id + rest, scheme, id, rest)
    requires InvidiousId(scheme + TrackPath + id + rest).None?
    ensures Classify(scheme + TrackPath + id + rest) == Track(id)
  {
    var url := scheme + TrackPath + id + rest;
    SpotifySplitDetermined(url, scheme, id, rest);
    TrackUrlNotYoutube(url, |scheme|);
  }

  lemma TrackUrlNotYoutube(url: string, p: nat)
    requires SchemeEnd(url) == Some(p) && At(url, p, TrackPath)
    ensures YoutubeId(url).None?
  {
    AtChar(url, p, TrackPath, 0);
    NoYoutubeHost(url, p);
  }

  lemma NoYoutubeHost(s: string, p: nat)
    requires SchemeEnd(s) == Some(p) && p < |s| && s[p] != 'w' && s[p] != 'y'
    ensures YoutubeId(s).None?
  {
    NotAtChar(s, p, "www.", 0);
    NotAtChar(s, p, "youtube.", 0);
    NotAtChar(s, p, "youtu.be", 0);
    assert YoutubeHostStarts(s, p) == [];
    assert ShortHostStarts(s, p) == [];
    assert YoutubeStarts(s, p) == [];
  }

  /** A Spotify URL whose tail reads `watch?v=<id>` is taken as a watch URL: the first pattern wins. */
  lemma TrackUrlEndingInWatch(id: string, video: string)
    requires |id| >= 1 && AllWordChars(id) && |video| >= 1 && AllIdChars(video)
    ensures var url := "https://" + TrackPath + id + "?" + WatchQuery + video;
      SpotifyId(url) == Some(id) && Classify(url) == Direct(video)
  {
    var url := "https://" + TrackPath + id + "?" + WatchQuery + video;
    SpotifySplitDetermined(url, "https://", id, "?" + WatchQuery + video);
    var pre := "https://" + TrackPath + id + "?";
    assert NoNewline(pre) by {
      forall i | 0 <= i < |pre| ensures pre[i] != '\n' {
        if |"https://" + TrackPath| <= i < |"https://" + TrackPath| + |id| {
          assert pre[i] == id[i - |"https://" + TrackPath|];
        }
      }
    }
    assert url == pre + WatchQuery + video + [];
    InvidiousSplitDetermined(url, pre, video, []);
  }

  // ---------------------------------------------------------------------------
  // Spotify track lookup
  // ---------------------------------------------------------------------------

  /** The track endpoint's answer: the HTTP status and, on 200, the track's name and artist names. */
  datatype TrackResponse = TrackResponse(status: int, name: string, artists: seq<string>)

  /** The search query: `name + " by " + " ".join(artist names)`. */
  function Query(name: string, artists: seq<string>): string
  {
    name + " by " + Join(" ", artists)
  }

  /** A single artist is searched for as "<name> by <artist>". */
  lemma QueryOneArtist(name: string, artist: string)
    ensures Query(name, [artist]) == name + " by " + artist
  {
  }

  /** Each further artist adds a single space and that artist's name at the end of the query. */
  lemma QueryAddsArtist(name: string, artists: seq<string>, artist: string)
    requires artists != []
    ensures Query(name, artists + [artist]) == Query(name, artists) + " " + artist
  {
    JoinAppend(" ", artists, artist);
  }

  /** What follows the token refresh in `spotify_to_youtube_id`: the track fetch, the query and the first search hit. */
  function TrackLookup(trackId: string, bearer: Option<string>, fetchTrack: (string, Option<string>) -> TrackResponse,
                       search: string -> seq<string>): (r: Result<string>)
    ensures r.Success? <==>
      fetchTrack(trackId, bearer).status == 200
      && search(Query(fetchTrack(trackId, bearer).name, fetchTrack(trackId, bearer).artists)) != []
    ensures fetchTrack(trackId, bearer).status == 401 ==> r == Failure(BadResponse("Invalid spotify token"))
    ensures fetchTrack(trackId, bearer).status != 200 && fetchTrack(trackId, bearer).status != 401 ==>
      r == Failure(BadResponse("Could not get track data"))
    ensures var response := fetchTrack(trackId, bearer);
      response.status == 200 && search(Query(response.name, response.artists)) == [] ==> r == Failure(NoSearchResult)
    ensures r.Success? ==> r.value == search(Query(fetchTrack(trackId, bearer).name, fetchTrack(trackId, bearer).artists))[0]
  {
    var response := fetchTrack(trackId, bearer);
    if response.status == 401 then Failure(BadResponse("Invalid spotify token"))
    else if response.status != 200 then Failure(BadResponse("Could not get track data"))
    else
      var hits := search(Query(response.name, response.artists));
      if hits == [] then Failure(NoSearchResult) else Success(hits[0])
  }

  // ---------------------------------------------------------------------------
  // The cached Spotify token
  // ---------------------------------------------------------------------------

  /** 15 minutes, in seconds. */
  const RefreshMargin: int := 15 * 60

  /** The token endpoint's JSON: an optional `error`, and `access_token` / `expires_in` when present. */
  datatype TokenResponse = TokenResponse(error: Option<string>, accessToken: Option<string>, expiresIn: Option<int>)

  /** `_spotify_token` and `_spotify_token_expires_at` (seconds). */
  datatype TokenState = TokenState(token: Option<string>, expiresAt: Option<int>)

  /** The guard of `update_spotify_token`: the exchange is skipped when an expiry is stored and lies before now + 15 minutes. */
  predicate SkipsRefresh(expiresAt: Option<int>, now: int)
  {
    expiresAt.Some? && expiresAt.value < now + RefreshMargin
  }

  /**
   * The cache after `update_spotify_token` and the error it raised, if any. `now` is the clock
   * read by the guard, `receivedAt` the clock read once the response is in.
   */
  function RefreshToken(st: TokenState, now: int, response: TokenResponse, receivedAt: int): (r: (TokenState, Option<Error>))
    ensures SkipsRefresh(st.expiresAt, now) ==> r == (st, None)
    ensures !SkipsRefresh(st.expiresAt, now) && response.error == Some("invalid_client") ==> r == (st, Some(InvalidClient))
    ensures r.1.None? && !SkipsRefresh(st.expiresAt, now) ==>
      response.expiresIn.Some? && r.0 == TokenState(response.accessToken, Some(receivedAt + response.expiresIn.value))
    ensures r.1.Some? ==> r.0.expiresAt == st.expiresAt
    ensures !SkipsRefresh(st.expiresAt, now) && response.error != Some("invalid_client") ==>
      && (response.accessToken.Some? && response.expiresIn.Some? ==> r.1.None?)
      && (response.accessToken.None? ==> r == (st, Some(MissingField("access_token"))))
      && (response.accessToken.Some? && response.expiresIn.None? ==>
            r == (st.(token := response.accessToken), Some(MissingField("expires_in"))))
  {
    if SkipsRefresh(st.expiresAt, now) then (st, None)
    else if response.error == Some("invalid_client") then (st, Some(InvalidClient))
    else match response.accessToken
      case None => (st, Some(MissingField("access_token")))
      case Some(t) =>
        match response.expiresIn
        case None => (st.(token := Some(t)), Some(MissingField("expires_in")))
        case Some(secs) => (TokenState(Some(t), Some(receivedAt + secs)), None)
  }

  /** Whether `update_spotify_token` contacts the token endpoint. */
  predicate Exchanges(st: TokenState, now: int)
  {
    !SkipsRefresh(st.expiresAt, now)
  }

  /**
   * As written the guard is reversed: a freshly obtained token that stays valid for more
   * than 15 minutes is exchanged again at the very next resolution.
   */
  lemma FreshTokenIsExchangedAgain(st: TokenState, now: int, response: TokenResponse, receivedAt: int, later: int)
    requires Exchanges(st, now) && RefreshToken(st, now, response, receivedAt).1.None?
    requires later + RefreshMargin <= receivedAt + response.expiresIn.value
    ensures Exchanges(RefreshToken(st, now, response, receivedAt).0, later)
  {
  }

  /**
   * Once the stored expiry is less than 15 minutes ahead, no later resolution exchanges
   * again: the cached token is kept even after it has expired.
   */
  lemma {:induction false} StaleTokenIsKept(st: TokenState, times: seq<int>, responses: seq<TokenResponse>)
    requires |responses| == |times| >= 1
    requires SkipsRefresh(st.expiresAt, times[0])
    requires forall i :: 0 <= i < |times| - 1 ==> times[i] <= times[i + 1]
    ensures RefreshAll(st, times, responses) == st
  {
    if |times| > 1 {
      assert SkipsRefresh(st.expiresAt, times[1]);
      StaleTokenIsKept(st, times[1..], responses[1..]);
    }
  }

  /** The cache after a series of `update_spotify_token` calls, each response read at the call's own time. */
  function RefreshAll(st: TokenState, times: seq<int>, responses: seq<TokenResponse>): TokenState
    requires |responses| == |times|
    decreases |times|
  {
    if times == [] then st
    else RefreshAll(RefreshToken(st, times[0], responses[0], times[0]).0, times[1..], responses[1..])
  }

  /** The full resolution: the route, then for a Spotify track the token refresh and the lookup. */
  function Resolve(url: string, st: TokenState, now: int, response: TokenResponse, receivedAt: int,
                   fetchTrack: (string, Option<string>) -> TrackResponse, search: string -> seq<string>)
    : (r: (TokenState, Result<Option<string>>))
    ensures Classify(url).Direct? ==> r == (st, Success(Some(Classify(url).id)))
    ensures Classify(url).Unrecognised? ==> r == (st, Success(None))
    ensures Classify(url).Track? ==> r.0 == RefreshToken(st, now, response, receivedAt).0
    ensures r.1.Success? && Classify(url).Track? ==>
      r.1.value.Some? && RefreshToken(st, now, response, receivedAt).1.None?
      && Success(r.1.value.value) == TrackLookup(Classify(url).trackId, r.0.token, fetchTrack, search)
    ensures Classify(url).Track? ==>
      r.1 == match RefreshToken(st, now, response, receivedAt).1
        case Some(e) => Failure(e)
        case None =>
          match TrackLookup(Classify(url).trackId, r.0.token, fetchTrack, search)
          case Success(id) => Success(Some(id))
          case Failure(e) => Failure(e)
  {
    match Classify(url)
    case Direct(id) => (st, Success(Some(id)))
    case Unrecognised => (st, Success(None))
    case Track(t) =>
      var (st', err) := RefreshToken(st, now, response, receivedAt);
      if err.Some? then (st', Failure(err.value))
      else match TrackLookup(t, st'.token, fetchTrack, search)
        case Success(id) => (st', Success(Some(id)))
        case Failure(e) => (st', Failure(e))
  }

  /** The translator object: the Spotify token cache that `update_spotify_token` overwrites. */
  class Translator {
    var token: Option<string>
    var expiresAt: Option<int>

    function State(): TokenState
      reads this
    {
      TokenState(token, expiresAt)
    }

    constructor ()
      ensures State() == TokenState(None, None)
    {
      token := None;
      expiresAt := None;
    }

    method UpdateSpotifyToken(now: int, response: TokenResponse, receivedAt: int) returns (err: Option<Error>)
      modifies this
      ensures (State(), err) == RefreshToken(old(State()), now, response, receivedAt)
    {
      if expiresAt.Some? && expiresAt.value < now + RefreshMargin {
        return None;
      }
      if response.error == Some("invalid_client") {
        return Some(InvalidClient);
      }
      if response.accessToken.None? {
        return Some(MissingField("access_token"));
      }
      token := response.accessToken;
      if response.expiresIn.None? {
        return Some(MissingField("expires_in"));
      }
      expiresAt := Some(receivedAt + response.expiresIn.value);
      err := None;
    }

    method SpotifyToYoutubeId(trackId: string, now: int, response: TokenResponse, receivedAt: int,
                              fetchTrack: (string, Option<string>) -> TrackResponse, search: string -> seq<string>)
      returns (r: Result<string>)
      modifies this
      ensures State() == RefreshToken(old(State()), now, response, receivedAt).0
      ensures r == match RefreshToken(old(State()), now, response, receivedAt).1
        case Some(e) => Failure(e)
        case None => TrackLookup(trackId, token, fetchTrack, search)
    {
      var err := UpdateSpotifyToken(now, response, receivedAt);
      if err.Some? {
        return Failure(err.value);
      }
      var data := fetchTrack(trackId, token);
      if data.status == 401 {
        return Failure(BadResponse("Invalid spotify token"));
      } else if data.status != 200 {
        return Failure(BadResponse("Could not get track data"));
      }
      var hits := search(Query(data.name, data.artists));
      if hits == [] {
        return Failure(NoSearchResult);
      }
      r := Success(hits[0]);
    }

    method ToInvidiousId(url: string, now: int, response: TokenResponse, receivedAt: int,
                         fetchTrack: (string, Option<string>) -> TrackResponse, search: string -> seq<string>)
      returns (r: Result<Option<string>>)
      modifies this
      ensures (State(), r) == Resolve(url, old(State()), now, response, receivedAt, fetchTrack, search)
    {
      var m := InvidiousId(url);
      if m.Some? {
        return Success(m);
      }
      m := YoutubeId(url);
      if m.Some? {
        return Success(m);
      }
      m := SpotifyId(url);
      if m.Some? {
        var id := SpotifyToYoutubeId(m.value, now, response, receivedAt, fetchTrack, search);
        if id.Failure? {
          return Failure(id.error);
        }
        return Success(Some(id.value));
      }
      r := Success(None);
    }
  }

}
