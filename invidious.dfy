/**
 * The upstream video client: picking an instance from the public directory,
 * fetching a video with one retry, and choosing the audio stream to play.
 * Every HTTP exchange is an input: the directory listing, the two possible
 * replies of the video endpoint, and the `latest_version` endpoint as a
 * function from (video id, itag) to its reply.
 */
module Invidious {
  import opened Base
  import opened Text
  import opened Lists

  // ---------------------------------------------------------------- instances

  /**
   * One descriptor of the instance directory. `activeHalfyear` is the
   * nested `stats.usage.users.activeHalfyear` counter, absent when `stats`
   * is null; `api` is the truth value of the `api` field.
   */
  datatype Instance = Instance(activeHalfyear: Option<int>, api: bool, kind: string, uri: string)

  /** The four conditions an instance must meet to be considered. */
  predicate Eligible(x: Instance)
  {
    x.activeHalfyear.Some? && x.api && x.kind == "https" && x.uri != []
  }

  function Usable(directory: seq<Instance>): (r: seq<Instance>)
    ensures forall i :: 0 <= i < |r| ==> Eligible(r[i])
    ensures forall x :: x in r <==> x in directory && Eligible(x)
  {
    Filter(directory, Eligible)
  }

  function Activity(u: seq<Instance>): (keys: seq<int>)
    requires forall i :: 0 <= i < |u| ==> Eligible(u[i])
    ensures |keys| == |u|
    ensures forall i :: 0 <= i < |u| ==> u[i].activeHalfyear == Some(keys[i])
  {
    if u == [] then [] else assert Eligible(u[0]); [u[0].activeHalfyear.value] + Activity(u[1..])
  }

  /**
   * `find_best_host`: the URI of the eligible instance with the most
   * half-year active users, the first of them on a tie; `NoInstance` (the
   * `ValueError` of `max` on an empty sequence) when none is eligible.
   */
  function FindBestHost(directory: seq<Instance>): (r: Result<string>)
    ensures r.Failure? <==> forall x :: x in directory ==> !Eligible(x)
    ensures r.Failure? ==> r.error == NoInstance
    ensures r.Success? ==> r.value != []
  {
    var u := Usable(directory);
    if u == [] then
      assert forall x :: x in directory ==> !Eligible(x);
      Failure(NoInstance)
    else
      assert u[0] in directory;
      var k := FirstMaxIndex(Activity(u));
      Success(u[k].uri)
  }

  /**
   * The chosen URI belongs to the `k`-th usable instance, which has the most
   * half-year active users, and every usable instance before it has fewer.
   */
  lemma FindBestHostFirst(directory: seq<Instance>) returns (k: nat)
    requires FindBestHost(directory).Success?
    ensures var u := Usable(directory);
      k < |u| && u[k].uri == FindBestHost(directory).value && u[k] in directory &&
      (forall j :: 0 <= j < |u| ==> u[j].activeHalfyear.value <= u[k].activeHalfyear.value) &&
      (forall j :: 0 <= j < k ==> u[j].activeHalfyear.value < u[k].activeHalfyear.value)
  {
    var u := Usable(directory);
    var keys := Activity(u);
    k := FirstMaxIndex(keys);
    assert u[k] in u;
  }

  /** Instances that do not qualify never influence the choice. */
  lemma {:induction false} IneligibleIgnored(a: seq<Instance>, x: Instance, b: seq<Instance>)
    requires !Eligible(x)
    ensures FindBestHost(a + [x] + b) == FindBestHost(a + b)
  {
    FilterSkips(a, x, b, Eligible);
  }

  /**
   * The configured host as the constructor stores it: `host_url.rstrip("/")`
   * when the setting is a non-empty string, otherwise nothing.
   */
  function ConfiguredHost(setting: Option<string>): (r: Option<string>)
    ensures r.None? <==> setting.None? || setting.value == []
    ensures r.Some? ==> r.value <= setting.value && (r.value == [] || r.value[|r.value| - 1] != '/')
    ensures r.Some? ==> forall i :: |r.value| <= i < |setting.value| ==> setting.value[i] == '/'
  {
    if setting.Some? && setting.value != [] then Some(RStripSlash(setting.value)) else None
  }

  /**
   * The client's one piece of state, the base URL of the instance in use.
   * `Load` only consults the directory when no usable URL was configured
   * (a setting made only of slashes strips to "" and counts as none).
   */
  class Invidious {
    var hostUrl: Option<string>

    constructor (setting: Option<string>)
      ensures hostUrl == ConfiguredHost(setting)
    {
      hostUrl := ConfiguredHost(setting);
    }

    method Load(directory: seq<Instance>) returns (err: Option<Error>)
      modifies this
      ensures old(hostUrl).Some? && old(hostUrl).value != [] ==> hostUrl == old(hostUrl) && err.None?
      ensures (old(hostUrl).None? || old(hostUrl).value == []) ==>
        match FindBestHost(directory)
        case Success(uri) => hostUrl == Some(uri) && err.None?
        case Failure(e) => hostUrl == old(hostUrl) && err == Some(e)
    {
      err := None;
      if hostUrl.None? || hostUrl.value == [] {
        var found := FindBestHost(directory);
        match found {
          case Success(uri) => hostUrl := Some(uri);
          case Failure(e) => err := Some(e);
        }
      }
    }
  }

  // ---------------------------------------------------------------- videos

  /** One adaptive stream of a video: its MIME type, bitrate and format tag. */
  datatype Format = Format(kind: string, bitrate: int, itag: int)

  /** The fields of a video payload the player reads. */
  datatype Video = Video(videoId: string, title: string, adaptiveFormats: seq<Format>)

  /** A reply of the video endpoint: the payload and its optional `error` field. */
  datatype VideoReply = VideoReply(error: Option<string>, video: Video)

  const VideoErrorPrefix := "Error fetching video: "

  /** One call of the inner fetch: a non-empty `error` field raises `BadResponseError`. */
  function Attempt(reply: VideoReply): (r: Result<Video>)
    ensures r.Success? <==> reply.error.None? || reply.error.value == []
    ensures r.Success? ==> r.value == reply.video
    ensures r.Failure? ==> r.error == BadResponse(VideoErrorPrefix + reply.error.value)
  {
    match reply.error
    case Some(e) => if e != [] then Failure(BadResponse(VideoErrorPrefix + e)) else Success(reply.video)
    case None => Success(reply.video)
  }

  /**
   * `get_video`: the first attempt, and only when it raises, exactly one
   * more. Returns the outcome and the number of requests made.
   */
  function GetVideo(first: VideoReply, second: VideoReply): (r: (Result<Video>, nat))
    ensures 1 <= r.1 <= 2
    ensures r.1 == 2 <==> Attempt(first).Failure?
    ensures r.0.Success? <==> Attempt(first).Success? || Attempt(second).Success?
    ensures r.0.Success? ==> r.0.value == (if Attempt(first).Success? then first.video else second.video)
    ensures r.0.Failure? ==> r.0 == Attempt(second)
  {
    if Attempt(first).Success? then (Attempt(first), 1) else (Attempt(second), 2)
  }

  /** An embedded error followed by a clean reply still yields the video. */
  lemma RetryRecovers(e: string, first: Video, second: VideoReply)
    requires e != []
    requires second.error.None?
    ensures GetVideo(VideoReply(Some(e), first), second) == (Success(second.video), 2)
  {
  }

  // ---------------------------------------------------------------- audio

  predicate IsAudio(f: Format) { "audio/" <= f.kind }

  function Bitrates(fs: seq<Format>): (keys: seq<int>)
    ensures |keys| == |fs|
    ensures forall i :: 0 <= i < |fs| ==> keys[i] == fs[i].bitrate
  {
    seq(|fs|, i requires 0 <= i < |fs| => fs[i].bitrate)
  }

  /**
   * The format `get_audio_url` asks for: among the formats whose type starts
   * with "audio/", the first one of maximal bitrate; `NoAudioFormat` when the
   * video has no audio-only stream.
   */
  function BestAudioFormat(video: Video): (r: Result<Format>)
    ensures r.Failure? <==> forall f :: f in video.adaptiveFormats ==> !IsAudio(f)
    ensures r.Failure? ==> r.error == NoAudioFormat
    ensures r.Success? ==> r.value in video.adaptiveFormats && IsAudio(r.value)
    ensures r.Success? ==>
      forall f :: f in video.adaptiveFormats && IsAudio(f) ==> f.bitrate <= r.value.bitrate
  {
    var audio := Filter(video.adaptiveFormats, IsAudio);
    if audio == [] then
      assert forall f :: f in video.adaptiveFormats ==> !IsAudio(f);
      Failure(NoAudioFormat)
    else
      assert audio[0] in video.adaptiveFormats;
      var k := FirstMaxIndex(Bitrates(audio));
      assert forall f :: f in audio ==> f.bitrate <= audio[k].bitrate;
      Success(audio[k])
  }

  /**
   * On a tie the earliest audio stream wins: `k` is the chosen stream's
   * position among the audio streams, and every one before it is slower.
   */
  lemma BestAudioFormatFirst(video: Video) returns (k: nat)
    requires BestAudioFormat(video).Success?
    ensures var audio := Filter(video.adaptiveFormats, IsAudio);
      k < |audio| && audio[k] == BestAudioFormat(video).value &&
      forall j :: 0 <= j < k ==> audio[j].bitrate < audio[k].bitrate
  {
    var audio := Filter(video.adaptiveFormats, IsAudio);
    k := FirstMaxIndex(Bitrates(audio));
  }

  /** The reply of `latest_version`: whether it is OK, its reason phrase and final URL. */
  datatype AudioReply = AudioReply(ok: bool, reason: string, url: string)

  const AudioErrorPrefix := "Error fetching audio: "

  /**
   * `get_audio_url`: the final URL of the `latest_version` request for the
   * chosen format, or the failure of the choice or of the request.
   */
  function GetAudioUrl(video: Video, latest: (string, int) -> AudioReply): (r: Result<string>)
    ensures BestAudioFormat(video).Failure? ==> r == Failure(NoAudioFormat)
    ensures BestAudioFormat(video).Success? ==>
      var reply := latest(video.videoId, BestAudioFormat(video).value.itag);
      (r.Success? <==> reply.ok) &&
      (r.Success? ==> r.value == reply.url) &&
      (r.Failure? ==> r.error == BadResponse(AudioErrorPrefix + reply.reason))
  {
    match BestAudioFormat(video)
    case Failure(e) => Failure(e)
    case Success(best) =>
      var reply := latest(video.videoId, best.itag);
      if !reply.ok then Failure(BadResponse(AudioErrorPrefix + reply.reason)) else Success(reply.url)
  }

  /** Adding a non-audio stream to a video never changes which audio stream is played. */
  lemma {:induction false} VideoStreamsIgnored(id: string, title: string, a: seq<Format>, f: Format, b: seq<Format>)
    requires !IsAudio(f)
    ensures BestAudioFormat(Video(id, title, a + [f] + b)) == BestAudioFormat(Video(id, title, a + b))
  {
    FilterSkips(a, f, b, IsAudio);
  }

}
