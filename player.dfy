/**
 * The cog itself: one `ChannelPlayer` per voice channel, kept in a registry
 * that the once-a-second tick advances and that the `play`, `loop`, `skip`,
 * `volume` and `queue` commands read and update.
 *
 * The voice connection is an input: the set of channels whose connection
 * reports playing or paused when the tick runs, and the paused flag `play`
 * reads. What the tick asks the connection to do comes back as a `Command`
 * per channel.
 */
module Player {
  import opened Base
  import opened Text
  import opened Listing
  import opened Invidious

  type ChannelId = int

  /**
   * The state of one channel. `gain` is the volume of the connection's
   * current audio source, or `None` when that source has no volume control
   * (the case before anything was played on a fresh connection).
   */
  datatype ChannelPlayer = ChannelPlayer(queue: seq<VideoInfo>, nowPlaying: Option<VideoInfo>, loop: bool, gain: Option<real>)

  /** `ChannelPlayer(connection)` on a connection that has not played yet. */
  const Fresh := ChannelPlayer([], None, false, None)

  /** What the tick tells a channel's connection to do. */
  datatype Command = Disconnect | Start(audioUrl: string)

  /** What a command answers in the channel. */
  datatype Reply =
    | NothingPlaying
    | Silent
    | UrlRequired
    | InvalidUrl
    | Reported(reason: string)          // a `BadResponseError`, shown as "Error: <reason>"
    | Raised(error: Error)              // any other exception; the command fails without a reply
    | Added(title: string, ytUrl: string)
    | Looping(enabled: bool)
    | Skipped(steps: int)
    | VolumeIs(gain: real)
    | VolumeSetTo(gain: real)
    | Listing(nowPlaying: Option<string>, upNext: Option<string>)

  // ---------------------------------------------------------------- the tick

  /** `q[j:] + q[:j]`: the queue after `j` looped plays. */
  function Rotate<T>(q: seq<T>, j: nat): seq<T>
    requires j <= |q|
  {
    q[j..] + q[..j]
  }

  /**
   * The tick on an idle channel with queued videos: the head is popped, put
   * back at the tail when looping, and becomes the video now playing; the
   * new audio source starts at full volume.
   */
  function Advance(p: ChannelPlayer): ChannelPlayer
    requires p.queue != []
  {
    var head := p.queue[0];
    var rest := p.queue[1..];
    ChannelPlayer(if p.loop then rest + [head] else rest, Some(head), p.loop, Some(1.0))
  }

  /** What one tick does to a channel: `None` when the channel is dropped. */
  function Fate(p: ChannelPlayer, busy: bool): Option<ChannelPlayer>
  {
    if busy then Some(p) else if p.queue == [] then None else Some(Advance(p))
  }

  /** The command the tick issues on an idle channel. */
  function CommandFor(p: ChannelPlayer): Command
  {
    if p.queue == [] then Disconnect else Start(p.queue[0].audioUrl)
  }

  /** The registry once the channels in `done` have been visited. */
  function Partial(snapshot: map<ChannelId, ChannelPlayer>, busy: set<ChannelId>, done: set<ChannelId>): map<ChannelId, ChannelPlayer>
  {
    map c | c in snapshot && (c !in done || Fate(snapshot[c], c in busy).Some?) ::
      if c in done then Fate(snapshot[c], c in busy).value else snapshot[c]
  }

  /** The commands issued to the channels in `done`. */
  function Issued(snapshot: map<ChannelId, ChannelPlayer>, busy: set<ChannelId>, done: set<ChannelId>): map<ChannelId, Command>
  {
    map c | c in snapshot && c in done && c !in busy :: CommandFor(snapshot[c])
  }

  /**
   * The registry after a whole tick: channels whose connection is busy are
   * untouched, idle channels with an empty queue are gone, every other
   * channel has advanced, and no channel is added.
   */
  function Ticked(players: map<ChannelId, ChannelPlayer>, busy: set<ChannelId>): (r: map<ChannelId, ChannelPlayer>)
    ensures forall c :: c in r <==> c in players && (c in busy || players[c].queue != [])
    ensures forall c :: c in players && c in busy ==> r[c] == players[c]
    ensures forall c :: c in players && c !in busy && players[c].queue != [] ==> r[c] == Advance(players[c])
  {
    Partial(players, busy, players.Keys)
  }

  lemma PartialStep(snapshot: map<ChannelId, ChannelPlayer>, busy: set<ChannelId>, done: set<ChannelId>, c: ChannelId)
    requires c in snapshot && c !in done
    ensures Fate(snapshot[c], c in busy).None? ==>
      Partial(snapshot, busy, done + {c}) == Partial(snapshot, busy, done) - {c}
    ensures Fate(snapshot[c], c in busy).Some? ==>
      Partial(snapshot, busy, done + {c}) == Partial(snapshot, busy, done)[c := Fate(snapshot[c], c in busy).value]
    ensures c !in busy ==> Issued(snapshot, busy, done + {c}) == Issued(snapshot, busy, done)[c := CommandFor(snapshot[c])]
    ensures c in busy ==> Issued(snapshot, busy, done + {c}) == Issued(snapshot, busy, done)
  {
  }

  /** The tick treats each channel on its own: the registry after it holds exactly each channel's `Fate`. */
  lemma TickedIsFate(players: map<ChannelId, ChannelPlayer>, busy: set<ChannelId>, c: ChannelId)
    requires c in players
    ensures c in Ticked(players, busy) <==> Fate(players[c], c in busy).Some?
    ensures c in Ticked(players, busy) ==> Ticked(players, busy)[c] == Fate(players[c], c in busy).value
  {
  }

  /** `k` ticks on a channel whose connection is idle each time. */
  function Run(p: ChannelPlayer, k: nat): Option<ChannelPlayer>
  {
    if k == 0 then Some(p)
    else match Run(p, k - 1)
      case None => None
      case Some(q) => Fate(q, false)
  }

  lemma RotateStep<T>(q: seq<T>, j: nat)
    requires j < |q|
    ensures Rotate(q, j)[0] == q[j]
    ensures Rotate(q, j)[1..] + [Rotate(q, j)[0]] == Rotate(q, j + 1)
  {
    assert q[..j + 1] == q[..j] + [q[j]];
  }

  /** Looping never loses or duplicates a video: a rotation is a permutation. */
  lemma RotatePermutes<T>(q: seq<T>, j: nat)
    requires j <= |q|
    ensures |Rotate(q, j)| == |q|
    ensures multiset(Rotate(q, j)) == multiset(q)
  {
    assert q == q[..j] + q[j..];
  }

  /**
   * With looping on, during the first pass over a queue of `n` videos the
   * `k+1`-th tick plays `q[k]` and leaves the queue rotated by `k+1`; after
   * `n` ticks the queue is back to `q`.
   */
  lemma {:induction false} LoopFirstPass(p: ChannelPlayer, k: nat)
    requires p.loop && k < |p.queue|
    ensures Run(p, k + 1) == Some(ChannelPlayer(Rotate(p.queue, k + 1), Some(p.queue[k]), true, Some(1.0)))
  {
    var q := p.queue;
    if k == 0 {
      assert Rotate(q, 0) == q;
      AdvanceRotated(p, q, 0);
    } else {
      LoopFirstPass(p, k - 1);
      AdvanceRotated(Run(p, k).value, q, k);
    }
  }

  lemma AdvanceRotated(x: ChannelPlayer, q: seq<VideoInfo>, j: nat)
    requires j < |q| && x.loop && x.queue == Rotate(q, j)
    ensures Advance(x) == ChannelPlayer(Rotate(q, j + 1), Some(q[j]), true, Some(1.0))
  {
    RotateStep(q, j);
  }

  /**
   * ... and from the first tick on, the channel repeats itself every `n`
   * ticks: the same videos play in the same order forever.
   */
  lemma {:induction false} LoopPeriodic(p: ChannelPlayer, k: nat)
    requires p.loop && p.queue != [] && k >= 1
    ensures Run(p, k + |p.queue|) == Run(p, k)
  {
    var n := |p.queue|;
    if k == 1 {
      LoopFirstPass(p, n - 1);
      assert Rotate(p.queue, n) == p.queue;
      assert Run(p, n).value.queue == p.queue;
    } else {
      LoopPeriodic(p, k - 1);
      assert k - 1 + n + 1 == k + n;
    }
  }

  /**
   * A channel queued with `[x, y]` and looping on plays x, then y, then x,
   * with two videos pending after each tick.
   */
  lemma LoopTwoTracks(x: VideoInfo, y: VideoInfo, gain: Option<real>)
    ensures var p := ChannelPlayer([x, y], None, true, gain);
      Run(p, 1) == Some(ChannelPlayer([y, x], Some(x), true, Some(1.0))) &&
      Run(p, 2) == Some(ChannelPlayer([x, y], Some(y), true, Some(1.0))) &&
      Run(p, 3) == Some(ChannelPlayer([y, x], Some(x), true, Some(1.0)))
  {
    var p := ChannelPlayer([x, y], None, true, gain);
    LoopFirstPass(p, 0);
    LoopFirstPass(p, 1);
    LoopPeriodic(p, 1);
    assert Rotate([x, y], 1) == [y, x];
    assert Rotate([x, y], 2) == [x, y];
  }

  /** Without looping the queue is first in, first out: the `k+1`-th tick plays `q[k]`. */
  lemma {:induction false} FifoOrder(p: ChannelPlayer, k: nat)
    requires !p.loop && k < |p.queue|
    ensures Run(p, k + 1) == Some(ChannelPlayer(p.queue[k + 1..], Some(p.queue[k]), false, Some(1.0)))
  {
    if k > 0 {
      FifoOrder(p, k - 1);
      assert p.queue[k..][1..] == p.queue[k + 1..];
    }
  }

  /** ... and once every video has been played the channel is dropped. */
  lemma FifoEnds(p: ChannelPlayer)
    requires !p.loop && p.queue != []
    ensures Run(p, |p.queue| + 1) == None
  {
    FifoOrder(p, |p.queue| - 1);
  }

  // ---------------------------------------------------------------- play

  const WatchUrl := "https://www.youtube.com/watch?v="

  /** The outcome of the resolution, video fetch and audio negotiation `play` runs. */
  datatype Lookup = Unresolved | Broke(error: Error) | Found(info: VideoInfo)

  /**
   * `resolution` is what `to_invidious_id` produced for `url`; `first` and
   * `second` are the replies of the video endpoint for that id, `latest` the
   * `latest_version` endpoint.
   */
  function Fetch(url: string, resolution: Result<Option<string>>, first: VideoReply, second: VideoReply,
                 latest: (string, int) -> AudioReply): (r: Lookup)
    ensures r.Unresolved? <==> resolution == Success(None)
    ensures resolution.Failure? ==> r == Broke(resolution.error)
    ensures r.Found? ==>
      resolution.Success? && resolution.value.Some? &&
      r.info.inputUrl == url && r.info.ytUrl == WatchUrl + resolution.value.value
    ensures r.Found? ==>
      var video := GetVideo(first, second).0;
      video.Success? && r.info.title == video.value.title &&
      GetAudioUrl(video.value, latest) == Success(r.info.audioUrl)
    ensures resolution.Success? && resolution.value.Some? && GetVideo(first, second).0.Failure? ==>
      r == Broke(GetVideo(first, second).0.error)
    ensures resolution.Success? && resolution.value.Some? && GetVideo(first, second).0.Success? ==>
      var video := GetVideo(first, second).0.value;
      match GetAudioUrl(video, latest)
      case Failure(e) => r == Broke(e)
      case Success(audio) => r == Found(VideoInfo(video.title, audio, url, WatchUrl + resolution.value.value))
  {
    match resolution
    case Failure(e) => Broke(e)
    case Success(None) => Unresolved
    case Success(Some(id)) =>
      match GetVideo(first, second).0
      case Failure(e) => Broke(e)
      case Success(video) =>
        match GetAudioUrl(video, latest)
        case Failure(e) => Broke(e)
        case Success(audio) => Found(VideoInfo(video.title, audio, url, WatchUrl + id))
  }

  /**
   * The get-or-create-then-append step: the channel's player, or a fresh one,
   * gets `info` at the tail of its queue; nothing else changes.
   */
  function Enqueue(players: map<ChannelId, ChannelPlayer>, ch: ChannelId, info: VideoInfo): (r: map<ChannelId, ChannelPlayer>)
    ensures r.Keys == players.Keys + {ch}
    ensures forall c :: c in players && c != ch ==> r[c] == players[c]
    ensures ch in players ==> r[ch] == players[ch].(queue := players[ch].queue + [info])
    ensures ch !in players ==> r[ch] == ChannelPlayer([info], None, false, None)
  {
    var p := if ch in players then players[ch] else Fresh;
    players[ch := p.(queue := p.queue + [info])]
  }

  /** The videos of a channel play in the order they were added. */
  lemma EnqueuedPlaysLast(players: map<ChannelId, ChannelPlayer>, ch: ChannelId, info: VideoInfo)
    requires ch !in players || !players[ch].loop
    ensures var p := Enqueue(players, ch, info)[ch];
      Run(p, |p.queue|) == Some(ChannelPlayer([], Some(info), false, Some(1.0)))
  {
    var p := Enqueue(players, ch, info)[ch];
    var before := if ch in players then players[ch].queue else [];
    var n := |before|;
    assert p.queue == before + [info] && !p.loop;
    assert |p.queue| == n + 1 && p.queue[n] == info && p.queue[n + 1..] == [];
    FifoOrder(p, n);
  }

  // ---------------------------------------------------------------- skip

  /** Where Python's slice bound `k` falls in a list of length `n`. */
  function SliceIndex(k: int, n: nat): (i: nat)
    ensures i <= n
  {
    if k < 0 then (if n + k < 0 then 0 else n + k) else if k > n then n else k
  }

  /**
   * `skip` as written: the queue becomes `r = q[steps:]` and, when looping,
   * `r[:steps]` is appended, a prefix of the queue that remains rather than
   * the videos removed.
   */
  function SkipQueue(q: seq<VideoInfo>, steps: int, loop: bool): (r: seq<VideoInfo>)
    ensures |r| <= |q|
    ensures forall x :: x in r ==> x in q
  {
    var rest := q[SliceIndex(steps, |q|)..];
    assert forall x :: x in rest ==> x in q;
    if loop then rest + rest[..SliceIndex(steps, |rest|)] else rest
  }

  /** Skipping at least the whole queue empties it, looping or not. */
  lemma SkipPastEnd(q: seq<VideoInfo>, steps: int, loop: bool)
    requires steps >= |q|
    ensures SkipQueue(q, steps, loop) == []
  {
  }

  /** Without looping, skipping `steps` videos drops exactly the first `steps`. */
  lemma SkipDropsPrefix(q: seq<VideoInfo>, steps: int)
    requires 0 <= steps <= |q|
    ensures SkipQueue(q, steps, false) == q[steps..]
  {
  }

  /** A negative count keeps only the last `-steps` videos, as the slice does. */
  lemma SkipNegative(q: seq<VideoInfo>, steps: int, loop: bool)
    requires steps < 0
    ensures -steps <= |q| ==> SkipQueue(q, steps, loop) == q[|q| + steps..]
    ensures -steps > |q| ==> SkipQueue(q, steps, loop) == q
  {
    assert q[0..] == q;
  }

  /**
   * With looping on, the videos appended are the first `steps` of the
   * remaining queue, not the skipped ones; when fewer than `steps` remain,
   * all of them are appended again.
   */
  lemma SkipLoopAppendsRemaining(q: seq<VideoInfo>, steps: int)
    requires 0 <= steps <= |q|
    ensures SkipQueue(q, steps, true) == q[steps..] + q[steps..(if 2 * steps <= |q| then 2 * steps else |q|)]
  {
    assert q[steps..][..SliceIndex(steps, |q| - steps)] == q[steps..(if 2 * steps <= |q| then 2 * steps else |q|)];
  }

  /** So skipping two of `[a, b, c]` while looping leaves `c` queued twice. */
  lemma SkipLoopDuplicates(a: VideoInfo, b: VideoInfo, c: VideoInfo)
    ensures SkipQueue([a, b, c], 2, true) == [c, c]
  {
    SkipLoopAppendsRemaining([a, b, c], 2);
    assert [a, b, c][2..] == [c];
  }

  /** So skipping one of `[a, b, c]` while looping loses `a` and repeats `b`. */
  lemma SkipLoopLosesSkipped(a: VideoInfo, b: VideoInfo, c: VideoInfo)
    requires a != b && a != c
    ensures SkipQueue([a, b, c], 1, true) == [b, c, b]
    ensures a !in SkipQueue([a, b, c], 1, true)
  {
    SkipLoopAppendsRemaining([a, b, c], 1);
    assert [a, b, c][1..] == [b, c];
  }

  // ---------------------------------------------------------------- volume

  /** `max(0.5, min(2.0, percentage / 100))`. */
  function Clamp(percentage: int): (g: real)
    ensures 0.5 <= g <= 2.0
    ensures 50 <= percentage <= 200 ==> g == percentage as real / 100.0
    ensures percentage < 50 ==> g == 0.5
    ensures percentage > 200 ==> g == 2.0
  {
    var g := percentage as real / 100.0;
    if g > 2.0 then 2.0 else if g < 0.5 then 0.5 else g
  }

  /** A larger percentage never gives a smaller gain. */
  lemma ClampMonotone(p: int, q: int)
    requires p <= q
    ensures Clamp(p) <= Clamp(q)
  {
  }

  /** A gain the cog can leave on a source: the default 1.0 or a clamped setting. */
  predicate GainInRange(g: Option<real>)
  {
    g.None? || 0.5 <= g.value <= 2.0
  }

  // ---------------------------------------------------------------- queue

  /** The "Now playing" field, `[title](yt_url)`. */
  function NowPlayingField(info: VideoInfo): string
  {
    "[" + info.title + "](" + info.ytUrl + ")"
  }

  // ---------------------------------------------------------------- the cog

  /** Any channel of a non-empty set: the visiting order of the tick is not modelled. */
  method PickChannel(s: set<ChannelId>) returns (c: ChannelId)
    requires s != {}
    ensures c in s
  {
    if forall x :: x !in s {
      assert false;
    }
    c :| c in s;
  }

  class PolyPlayer {
    var players: map<ChannelId, ChannelPlayer>

    /** Every audio source the cog installed plays at a gain within the clamp's range. */
    predicate Valid()
      reads this
    {
      forall c :: c in players ==> GainInRange(players[c].gain)
    }

    constructor ()
      ensures Valid() && players == map[]
    {
      players := map[];
    }

    /**
     * `play_queue`: visits every channel of a snapshot of the registry once;
     * `busy` holds the channels whose connection is playing or paused.
     */
    method Tick(busy: set<ChannelId>) returns (commands: map<ChannelId, Command>)
      requires Valid()
      modifies this
      ensures Valid()
      ensures players == Ticked(old(players), busy)
      ensures commands.Keys == old(players).Keys - busy
      ensures forall c :: c in commands ==> commands[c] == CommandFor(old(players)[c])
    {
      var snapshot := players;
      var remaining := snapshot.Keys;
      commands := map[];
      while remaining != {}
        invariant remaining <= snapshot.Keys
        invariant players == Partial(snapshot, busy, snapshot.Keys - remaining)
        invariant commands == Issued(snapshot, busy, snapshot.Keys - remaining)
        invariant Valid()
        decreases remaining
      {
        var c := PickChannel(remaining);
        ghost var done := snapshot.Keys - remaining;
        PartialStep(snapshot, busy, done, c);
        remaining := remaining - {c};
        assert snapshot.Keys - remaining == done + {c};
        var player := snapshot[c];
        if c in busy {
          continue;
        }
        commands := commands[c := CommandFor(player)];
        if player.queue == [] {
          players := players - {c};
        } else {
          players := players[c := Advance(player)];
        }
      }
      assert snapshot.Keys - remaining == snapshot.Keys;
    }

    /**
     * `play`: resumes a paused channel with nothing queued; without a URL
     * that is all it does. With a URL it resolves, fetches and negotiates the
     * video and, only when all of that succeeds, enqueues it.
     */
    method Play(ch: ChannelId, paused: bool, url: Option<string>, resolution: Result<Option<string>>,
                first: VideoReply, second: VideoReply, latest: (string, int) -> AudioReply)
      returns (resumed: bool, reply: Reply)
      requires Valid()
      modifies this
      ensures Valid()
      ensures resumed <==> ch in old(players) && paused && old(players)[ch].queue == []
      ensures url.None? ==> players == old(players) && reply == (if resumed then Silent else UrlRequired)
      ensures url.Some? ==>
        match Fetch(url.value, resolution, first, second, latest)
        case Found(info) => players == Enqueue(old(players), ch, info) && reply == Added(info.title, info.ytUrl)
        case Unresolved => players == old(players) && reply == InvalidUrl
        case Broke(e) => players == old(players) && reply == (if e.BadResponse? then Reported(e.reason) else Raised(e))
    {
      resumed := ch in players && paused && players[ch].queue == [];
      if url.None? {
        reply := if resumed then Silent else UrlRequired;
        return;
      }
      var outcome := Fetch(url.value, resolution, first, second, latest);
      match outcome {
        case Unresolved =>
          reply := InvalidUrl;
        case Broke(e) =>
          reply := if e.BadResponse? then Reported(e.reason) else Raised(e);
        case Found(info) =>
          players := Enqueue(players, ch, info);
          reply := Added(info.title, info.ytUrl);
      }
    }

    /** `loop`: toggles the flag, or sets it to the given value. */
    method SetLoop(ch: ChannelId, value: Option<bool>) returns (reply: Reply)
      requires Valid()
      modifies this
      ensures Valid()
      ensures ch !in old(players) ==> players == old(players) && reply == NothingPlaying
      ensures ch in old(players) ==>
        var enabled := if value.None? then !old(players)[ch].loop else value.value;
        players == old(players)[ch := old(players)[ch].(loop := enabled)] && reply == Looping(enabled)
    {
      if ch !in players {
        return NothingPlaying;
      }
      var player := players[ch];
      var enabled := if value.None? then !player.loop else value.value;
      players := players[ch := player.(loop := enabled)];
      reply := Looping(enabled);
    }

    /** `skip`: changes only the pending queue; the video playing goes on. */
    method Skip(ch: ChannelId, steps: int) returns (reply: Reply)
      requires Valid()
      modifies this
      ensures Valid()
      ensures ch !in old(players) || old(players)[ch].queue == [] ==>
        players == old(players) && reply == NothingPlaying
      ensures ch in old(players) && old(players)[ch].queue != [] ==>
        var p := old(players)[ch];
        players == old(players)[ch := p.(queue := SkipQueue(p.queue, steps, p.loop))] && reply == Skipped(steps)
    {
      if ch !in players || players[ch].queue == [] {
        return NothingPlaying;
      }
      var player := players[ch];
      players := players[ch := player.(queue := SkipQueue(player.queue, steps, player.loop))];
      reply := Skipped(steps);
    }

    /** `volume`: reports or sets the gain; a source without volume control raises. */
    method Volume(ch: ChannelId, percentage: Option<int>) returns (reply: Reply)
      requires Valid()
      modifies this
      ensures Valid()
      ensures ch !in old(players) ==> players == old(players) && reply == NothingPlaying
      ensures ch in old(players) && old(players)[ch].gain.None? ==>
        players == old(players) && reply == Raised(NotVolumeTransformer)
      ensures ch in old(players) && old(players)[ch].gain.Some? && percentage.None? ==>
        players == old(players) && reply == VolumeIs(old(players)[ch].gain.value)
      ensures ch in old(players) && old(players)[ch].gain.Some? && percentage.Some? ==>
        var g := Clamp(percentage.value);
        players == old(players)[ch := old(players)[ch].(gain := Some(g))] && reply == VolumeSetTo(g)
    {
      if ch !in players {
        return NothingPlaying;
      }
      var player := players[ch];
      if player.gain.None? {
        return Raised(NotVolumeTransformer);
      }
      if percentage.None? {
        return VolumeIs(player.gain.value);
      }
      var g := Clamp(percentage.value);
      players := players[ch := player.(gain := Some(g))];
      reply := VolumeSetTo(g);
    }

    /**
     * `queue`: `playing` is whether the connection is playing. The "Up next"
     * field lists the pending videos numbered from 1.
     */
    method QueueView(ch: ChannelId, playing: bool) returns (reply: Reply)
      ensures ch !in players || (players[ch].queue == [] && !playing) ==> reply == NothingPlaying
      ensures ch in players && (players[ch].queue != [] || playing) ==>
        var p := players[ch];
        reply.Listing? &&
        reply.nowPlaying == (if p.nowPlaying.Some? then Some(NowPlayingField(p.nowPlaying.value)) else None) &&
        reply.upNext == (if p.queue == [] then None else Some(Description(Entries(p.queue, 1))))
    {
      if ch !in players || (players[ch].queue == [] && !playing) {
        return NothingPlaying;
      }
      var player := players[ch];
      var nowPlaying := if player.nowPlaying.Some? then Some(NowPlayingField(player.nowPlaying.value)) else None;
      var upNext := None;
      if player.queue != [] {
        var description := BuildDescription(Entries(player.queue, 1));
        upNext := Some(description);
      }
      reply := Listing(nowPlaying, upNext);
    }
  }

}
