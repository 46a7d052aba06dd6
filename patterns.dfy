/**
 * The three URL patterns of the translator, written as string functions with the
 * semantics of Python's `re.match`: anchored at the start, `$` matching at the end of
 * the string or just before a final newline, greedy repetition with backtracking.
 * Each matcher returns the text of the `id` group.
 */
module Patterns {
  import opened Base
  import opened Text

  /** The character classes the patterns repeat. */
  datatype CharClass = IdClass | WordClass | LowerClass | SlashClass

  predicate InClass(k: CharClass, c: char)
  {
    match k
    case IdClass => IsIdChar(c)
    case WordClass => IsWordChar(c)
    case LowerClass => IsLower(c)
    case SlashClass => c == '/'
  }

  /** The longest run of class `k` characters that starts at `p`. */
  function RunFrom(k: CharClass, s: string, p: nat): (n: nat)
    requires p <= |s|
    ensures p + n <= |s|
    ensures p + n == |s| || !InClass(k, s[p + n])
    decreases |s| - p
  {
    if p < |s| && InClass(k, s[p]) then 1 + RunFrom(k, s, p + 1) else 0
  }

  /** Every character of the run belongs to the class. */
  lemma {:induction false} RunFromClass(k: CharClass, s: string, p: nat)
    requires p <= |s|
    ensures forall i :: p <= i < p + RunFrom(k, s, p) ==> InClass(k, s[i])
    decreases |s| - p
  {
    if p < |s| && InClass(k, s[p]) {
      RunFromClass(k, s, p + 1);
    }
  }

  /** The longest run of class `k` characters that ends just before `e`. */
  function RunBefore(k: CharClass, s: string, e: nat): (n: nat)
    requires e <= |s|
    ensures n <= e
    ensures forall i :: e - n <= i < e ==> InClass(k, s[i])
    ensures n == e || !InClass(k, s[e - n - 1])
  {
    if e > 0 && InClass(k, s[e - 1]) then 1 + RunBefore(k, s, e - 1) else 0
  }

  /** The literal `lit` occurs in `s` at position `p`. */
  predicate At(s: string, p: nat, lit: string)
  {
    p + |lit| <= |s| && forall i :: 0 <= i < |lit| ==> s[p + i] == lit[i]
  }

  /** `At` compares a slice of `s` with the literal. */
  lemma AtSlice(s: string, p: nat, lit: string)
    ensures At(s, p, lit) <==> p + |lit| <= |s| && s[p..p + |lit|] == lit
  {
    if p + |lit| <= |s| && s[p..p + |lit|] == lit {
      forall i | 0 <= i < |lit| ensures s[p + i] == lit[i] {
        assert s[p..p + |lit|][i] == lit[i];
      }
    }
  }

  /** Character `k` of an occurrence of `lit` at `p`. */
  lemma AtChar(s: string, p: nat, lit: string, k: nat)
    requires At(s, p, lit) && k < |lit|
    ensures p + k < |s| && s[p + k] == lit[k]
  {
  }

  lemma SliceSplit(s: string, i: nat, j: nat, k: nat)
    requires i <= j <= k <= |s|
    ensures s[i..k] == s[i..j] + s[j..k]
  {
  }

  /** Python's `$` (no MULTILINE flag) matches at `p`. */
  predicate EndAt(s: string, p: nat)
  {
    p == |s| || (p + 1 == |s| && s[p] == '\n')
  }

  /** What `.` matches: any character but a newline. */
  predicate NoNewline(s: string)
  {
    forall i :: 0 <= i < |s| ==> s[i] != '\n'
  }

  // ---------------------------------------------------------------------------
  // INVIDIOUS_ID_RE = `.+watch\?v=(?P<id>[a-zA-Z0-9_-]+)$`
  // ---------------------------------------------------------------------------

  const WatchQuery: string := "watch?v="

  /** The position at which `$` can hold at the end of `s`. */
  function EndPosition(s: string): (e: nat)
    ensures e <= |s| && EndAt(s, e)
  {
    if |s| > 0 && s[|s| - 1] == '\n' then |s| - 1 else |s|
  }

  function InvidiousId(s: string): (r: Option<string>)
    ensures r.Some? ==> |r.value| >= 1 && AllIdChars(r.value)
  {
    var e := EndPosition(s);
    var n := RunBefore(IdClass, s, e);
    var k := e - n;
    if n >= 1 && k >= |WatchQuery| + 1 && s[k - |WatchQuery|..k] == WatchQuery && NoNewline(s[..k - |WatchQuery|])
    then Some(s[k..e])
    else None
  }

  /** A way of reading `s` as the pattern: `pre` for `.+`, then the id, then what `$` leaves. */
  ghost predicate InvidiousSplit(s: string, pre: string, id: string, tail: string)
  {
    && s == pre + WatchQuery + id + tail
    && |pre| >= 1 && NoNewline(pre)
    && |id| >= 1 && AllIdChars(id)
    && (tail == [] || tail == "\n")
  }

  /** The matcher yields `id` exactly when `s` reads as the pattern with that id. */
  lemma {:induction false} InvidiousIdCorrect(s: string, id: string)
    ensures InvidiousId(s) == Some(id) <==> exists pre, tail :: InvidiousSplit(s, pre, id, tail)
  {
    if InvidiousId(s) == Some(id) {
      var e := EndPosition(s);
      var k := e - |id|;
      var pre, tail := s[..k - |WatchQuery|], s[e..];
      assert s == pre + WatchQuery + id + tail;
      assert InvidiousSplit(s, pre, id, tail);
    }
    if pre, tail :| InvidiousSplit(s, pre, id, tail) {
      InvidiousSplitDetermined(s, pre, id, tail);
    }
  }

  lemma {:induction false} InvidiousSplitDetermined(s: string, pre: string, id: string, tail: string)
    requires InvidiousSplit(s, pre, id, tail)
    ensures InvidiousId(s) == Some(id)
  {
    var k := |pre| + |WatchQuery|;
    var e := k + |id|;
    InvidiousSplitParts(s, pre, id, tail);
    InvidiousSplitEnd(s, pre, id, tail);
    RunBeforeIs(IdClass, s, k, e);
  }

  lemma {:induction false} InvidiousSplitParts(s: string, pre: string, id: string, tail: string)
    requires InvidiousSplit(s, pre, id, tail)
    ensures var k := |pre| + |WatchQuery|;
      && s[..|pre|] == pre && s[|pre|..k] == WatchQuery && s[k..k + |id|] == id
      && s[k - 1] == '=' && (forall i :: k <= i < k + |id| ==> InClass(IdClass, s[i]))
  {
    var k := |pre| + |WatchQuery|;
    assert s == pre + WatchQuery + id + tail;
    assert forall i :: k <= i < k + |id| ==> s[i] == id[i - k];
  }

  lemma {:induction false} InvidiousSplitEnd(s: string, pre: string, id: string, tail: string)
    requires InvidiousSplit(s, pre, id, tail)
    ensures EndPosition(s) == |pre| + |WatchQuery| + |id|
  {
    assert s == pre + WatchQuery + id + tail;
    if tail == [] {
      assert s[|s| - 1] == id[|id| - 1];
    } else {
      assert s[|s| - 1] == '\n';
    }
  }

  /** A run of class `k` that ends at `e` and is preceded by a character outside the class is the longest. */
  lemma RunBeforeIs(k: CharClass, s: string, b: nat, e: nat)
    requires 1 <= b <= e <= |s|
    requires !InClass(k, s[b - 1])
    requires forall i :: b <= i < e ==> InClass(k, s[i])
    ensures RunBefore(k, s, e) == e - b
  {
  }

  // ---------------------------------------------------------------------------
  // YOUTUBE_ID_RE, in verbose mode:
  //   https?://(?: (?:www\.)?youtube\.[a-z]+/watch(?:\?v=|/) | youtu\.be(?:/watch/*\?v=|/) )
  //   (?P<id>[0-9a-zA-Z-_]+)(?:$|&)
  // ---------------------------------------------------------------------------

  /** The end of `https?://`, the `s` being tried first. */
  function SchemeEnd(s: string): (r: Option<nat>)
    ensures r.Some? ==> r.value <= |s| && (s[..r.value] == "https://" || s[..r.value] == "http://")
  {
    if At(s, 0, "https://") then Some(8)
    else if At(s, 0, "http://") then Some(7)
    else None
  }

  /** The id group and `(?:$|&)` starting at `c`: the greedy run of id characters must be followed by the end or `&`. */
  function IdTail(s: string, c: nat): (r: Option<string>)
    ensures r.Some? ==> c + |r.value| <= |s| && |r.value| >= 1 && AllIdChars(r.value) && At(s, c, r.value)
    ensures r.Some? ==> IdTerminator(s[c + |r.value|..])
  {
    if c > |s| then None
    else
    var n := RunFrom(IdClass, s, c);
    if n >= 1 && (EndAt(s, c + n) || (c + n < |s| && s[c + n] == '&')) then
      RunFromClass(IdClass, s, c);
      assert s[c..c + n] == s[c..c + n][..];
      Some(s[c..c + n])
    else None
  }

  /** Where the id may start after `(?:www\.)?youtube\.[a-z]+/watch(?:\?v=|/)` begun at `q`, in the order tried. */
  function YoutubeHostStarts(s: string, q: nat): (cs: seq<nat>)
  {
    if !At(s, q, "youtube.") then []
    else
      var r := q + 8;
      var l := RunFrom(LowerClass, s, r);
      if l == 0 || !At(s, r + l, "/watch") then []
      else WatchStarts(s, r + l + 6)
  }

  /** Where the id may start after `(?:\?v=|/)` begun at `w`, in the order tried. */
  function WatchStarts(s: string, w: nat): (cs: seq<nat>)
  {
    (if At(s, w, "?v=") then [w + 3] else []) + (if At(s, w, "/") then [w + 1] else [])
  }

  // Where the id may start after `youtu\.be(?:/watch/*\?v=|/)` begun at `q`, in the order tried.
  function ShortHostStarts(s: string, q: nat): (cs: seq<nat>)
  {
    if !At(s, q, "youtu.be") then []
    else
      var b := q + 8;
      ShortWatchPart(s, b) + (if At(s, b, "/") then [b + 1] else [])
  }

  // Where the id may start after `/watch/*\?v=` begun at `b`.
  function ShortWatchPart(s: string, b: nat): (cs: seq<nat>)
  {
    if !At(s, b, "/watch") then []
    else
      var m := RunFrom(SlashClass, s, b + 6);
      if At(s, b + 6 + m, "?v=") then [b + 6 + m + 3] else []
  }

  /** Every position, in the order the alternatives are tried, at which the id group may start. */
  function YoutubeStarts(s: string, p: nat): (cs: seq<nat>)
  {
    (if At(s, p, "www.") then YoutubeHostStarts(s, p + 4) else [])
    + YoutubeHostStarts(s, p)
    + ShortHostStarts(s, p)
  }

  /** The first start whose id group and terminator match: backtracking into the next alternative. */
  function FirstTail(s: string, cs: seq<nat>): (r: Option<string>)
    ensures r.Some? ==> exists i :: 0 <= i < |cs| && IdTail(s, cs[i]) == r
    ensures r.None? ==> forall i :: 0 <= i < |cs| ==> IdTail(s, cs[i]).None?
  {
    if cs == [] then None
    else
      match IdTail(s, cs[0])
      case Some(id) => Some(id)
      case None =>
        var r := FirstTail(s, cs[1..]);
        assert forall i :: 1 <= i < |cs| ==> cs[1..][i - 1] == cs[i];
        r
  }

  /** The start position whose id `FirstTail` returned. */
  lemma {:induction false} FirstTailStart(s: string, cs: seq<nat>) returns (c: nat)
    requires FirstTail(s, cs).Some?
    ensures c in cs && c <= |s| && IdTail(s, c) == FirstTail(s, cs)
  {
    if IdTail(s, cs[0]).Some? {
      c := cs[0];
    } else {
      c := FirstTailStart(s, cs[1..]);
    }
  }

  function YoutubeId(s: string): (r: Option<string>)
    ensures r.Some? ==> |r.value| >= 1 && AllIdChars(r.value)
  {
    match SchemeEnd(s)
    case None => None
    case Some(p) => FirstTail(s, YoutubeStarts(s, p))
  }

  /** The text the host-and-path part of YOUTUBE_ID_RE accepts, after the scheme. */
  ghost predicate YoutubePath(h: string)
  {
    || (exists www, tld, sep :: YoutubeLongPath(h, www, tld, sep))
    || (exists slashes :: YoutubeShortWatch(h, slashes))
    || h == "youtu.be/"
  }

  predicate YoutubeLongPath(h: string, www: string, tld: string, sep: string)
  {
    && (www == "www." || www == [])
    && |tld| >= 1 && AllLower(tld)
    && (sep == "?v=" || sep == "/")
    && h == www + "youtube." + tld + "/watch" + sep
  }

  predicate YoutubeShortWatch(h: string, slashes: string)
  {
    && (forall i :: 0 <= i < |slashes| ==> slashes[i] == '/')
    && h == "youtu.be/watch" + slashes + "?v="
  }

  /** The text YOUTUBE_ID_RE accepts before the id group. */
  ghost predicate YoutubePrefix(pre: string)
  {
    || ("https://" <= pre && YoutubePath(pre[8..]))
    || ("http://" <= pre && YoutubePath(pre[7..]))
  }

  /** What may follow the id group: the end (`$`) or an `&`. */
  predicate IdTerminator(tail: string)
  {
    tail == [] || tail == "\n" || (|tail| >= 1 && tail[0] == '&')
  }

  /** Every start position the matcher tries lies right after a prefix the pattern accepts. */
  lemma {:induction false} YoutubeStartsSound(s: string, p: nat, c: nat)
    requires SchemeEnd(s) == Some(p)
    requires c in YoutubeStarts(s, p)
    ensures c <= |s| && YoutubePrefix(s[..c])
  {
    var alt := StartsAlternative(s, p, c);
    StartsPath(s, p, c, alt);
    SchemePrefix(s, p, c);
  }

  /** Which of the three alternatives of `YoutubeStarts` proposed `c`. */
  lemma {:induction false} StartsAlternative(s: string, p: nat, c: nat) returns (alt: nat)
    requires c in YoutubeStarts(s, p)
    ensures alt == 0 ==> At(s, p, "www.") && c in YoutubeHostStarts(s, p + 4)
    ensures alt == 1 ==> c in YoutubeHostStarts(s, p)
    ensures alt >= 2 ==> c in ShortHostStarts(s, p)
  {
    var www := if At(s, p, "www.") then YoutubeHostStarts(s, p + 4) else [];
    InConcat(www, YoutubeHostStarts(s, p), ShortHostStarts(s, p), c);
    alt := if c in www then 0 else if c in YoutubeHostStarts(s, p) then 1 else 2;
  }

  lemma InConcat(a: seq<nat>, b: seq<nat>, d: seq<nat>, c: nat)
    requires c in a + b + d
    ensures c in a || c in b || c in d
  {
  }

  /** The text between the scheme and a start position is a path the pattern accepts. */
  lemma {:induction false} StartsPath(s: string, p: nat, c: nat, alt: nat)
    requires alt == 0 ==> At(s, p, "www.") && c in YoutubeHostStarts(s, p + 4)
    requires alt == 1 ==> c in YoutubeHostStarts(s, p)
    requires alt >= 2 ==> c in ShortHostStarts(s, p)
    ensures p <= c <= |s| && YoutubePath(s[p..c])
  {
    if alt == 0 {
      LongHostSound(s, p, p + 4, "www.", c);
    } else if alt == 1 {
      LongHostSound(s, p, p, [], c);
    } else {
      ShortHostSound(s, p, c);
    }
  }

  lemma {:induction false} SchemePrefix(s: string, p: nat, c: nat)
    requires SchemeEnd(s) == Some(p) && p <= c <= |s| && YoutubePath(s[p..c])
    ensures YoutubePrefix(s[..c])
  {
    assert s[..c][p..] == s[p..c];
    if p == 8 {
      assert s[..c][..8] == "https://";
    } else {
      assert s[..c][..7] == "http://";
    }
  }

  /** The shape of every start position `YoutubeHostStarts` proposes. */
  lemma {:induction false} LongHostStart(s: string, q: nat, c: nat) returns (l: nat, sep: string)
    requires c in YoutubeHostStarts(s, q)
    ensures At(s, q, "youtube.") && q + 8 <= |s| && l == RunFrom(LowerClass, s, q + 8) && l >= 1
    ensures At(s, q + 8 + l, "/watch") && c == q + 14 + l + |sep| && At(s, q + 14 + l, sep)
    ensures sep == "?v=" || sep == "/"
  {
    l := HostWatch(s, q, c);
    sep := WatchSep(s, q + 8 + l + 6, c);
  }

  lemma HostWatch(s: string, q: nat, c: nat) returns (l: nat)
    requires c in YoutubeHostStarts(s, q)
    ensures At(s, q, "youtube.") && l == RunFrom(LowerClass, s, q + 8) && l >= 1
    ensures At(s, q + 8 + l, "/watch") && c in WatchStarts(s, q + 8 + l + 6)
  {
    l := RunFrom(LowerClass, s, q + 8);
  }

  /** The separator behind every start position `WatchStarts` proposes. */
  lemma {:induction false} WatchSep(s: string, w: nat, c: nat) returns (sep: string)
    requires c in WatchStarts(s, w)
    ensures (sep == "?v=" || sep == "/") && c == w + |sep| && At(s, w, sep)
  {
    sep := if At(s, w, "?v=") && c == w + 3 then "?v=" else "/";
  }

  lemma {:induction false} LongHostSound(s: string, p: nat, q: nat, www: string, c: nat)
    requires q == p + |www| && (www == "www." || www == []) && At(s, p, www)
    requires c in YoutubeHostStarts(s, q)
    ensures p <= c <= |s| && YoutubePath(s[p..c])
  {
    var l, sep := LongHostStart(s, q, c);
    LongHostText(s, p, q, www, l, sep, c);
  }

  lemma {:induction false} LongHostText(s: string, p: nat, q: nat, www: string, l: nat, sep: string, c: nat)
    requires q == p + |www| && (www == "www." || www == []) && At(s, p, www)
    requires At(s, q, "youtube.") && q + 8 <= |s| && l == RunFrom(LowerClass, s, q + 8) && l >= 1
    requires At(s, q + 8 + l, "/watch") && c == q + 14 + l + |sep| && At(s, q + 14 + l, sep)
    requires sep == "?v=" || sep == "/"
    ensures p <= c <= |s| && YoutubePath(s[p..c])
  {
    var tld := s[q + 8..q + 8 + l];
    LowerTld(s, q + 8);
    LongHostPieces(s, q, l, sep, c);
    assert s[p..c] == www + s[q..c] by {
      AtSlice(s, p, www);
      SliceSplit(s, p, q, c);
    }
    LongPathIntro(s[p..c], www, tld, sep);
  }

  lemma {:induction false} LowerTld(s: string, r: nat)
    requires r <= |s|
    ensures AllLower(s[r..r + RunFrom(LowerClass, s, r)])
  {
    var tld := s[r..r + RunFrom(LowerClass, s, r)];
    RunFromClass(LowerClass, s, r);
    forall i | 0 <= i < |tld| ensures IsLower(tld[i]) {
      assert InClass(LowerClass, s[r + i]);
    }
  }

  lemma {:induction false} LongHostPieces(s: string, q: nat, l: nat, sep: string, c: nat)
    requires At(s, q, "youtube.") && At(s, q + 8 + l, "/watch")
    requires c == q + 14 + l + |sep| && At(s, q + 14 + l, sep)
    ensures s[q..c] == "youtube." + (s[q + 8..q + 8 + l] + ("/watch" + sep))
  {
    var r := q + 8;
    var w := r + l + 6;
    assert s[q..r] == "youtube." && s[r + l..w] == "/watch" && s[w..c] == sep;
    SliceSplit(s, r + l, w, c);
    SliceSplit(s, r, r + l, c);
    SliceSplit(s, q, r, c);
  }

  lemma {:induction false} LongPathIntro(h: string, www: string, tld: string, sep: string)
    requires (www == "www." || www == []) && |tld| >= 1 && AllLower(tld) && (sep == "?v=" || sep == "/")
    requires h == www + ("youtube." + (tld + ("/watch" + sep)))
    ensures YoutubePath(h)
  {
    assert YoutubeLongPath(h, www, tld, sep);
  }

  lemma {:induction false} ShortHostSound(s: string, p: nat, c: nat)
    requires c in ShortHostStarts(s, p)
    ensures p <= c <= |s| && YoutubePath(s[p..c])
  {
    ShortHostStart(s, p, c);
    if c == p + 9 {
      ShortSlashText(s, p);
    } else {
      ShortWatchText(s, p, RunFrom(SlashClass, s, p + 14));
    }
  }

  /** The shape of every start position `ShortHostStarts` proposes. */
  lemma ShortHostStart(s: string, q: nat, c: nat)
    requires c in ShortHostStarts(s, q)
    ensures At(s, q, "youtu.be")
    ensures || (c == q + 9 && At(s, q + 8, "/"))
            || (q + 14 <= |s| && At(s, q + 8, "/watch") && c == q + 17 + RunFrom(SlashClass, s, q + 14)
                && At(s, q + 14 + RunFrom(SlashClass, s, q + 14), "?v="))
  {
  }

  lemma {:induction false} ShortSlashText(s: string, p: nat)
    requires At(s, p, "youtu.be") && At(s, p + 8, "/")
    ensures p + 9 <= |s| && YoutubePath(s[p..p + 9])
  {
    AtSlice(s, p, "youtu.be");
    AtSlice(s, p + 8, "/");
    SliceSplit(s, p, p + 8, p + 9);
    assert s[p..p + 9] == "youtu.be/";
  }

  lemma {:induction false} ShortWatchText(s: string, p: nat, m: nat)
    requires At(s, p, "youtu.be") && At(s, p + 8, "/watch")
    requires p + 14 <= |s| && m == RunFrom(SlashClass, s, p + 14) && At(s, p + 14 + m, "?v=")
    ensures p + 17 + m <= |s| && YoutubePath(s[p..p + 17 + m])
  {
    var b := p + 8;
    var e := b + 6 + m;
    var c := e + 3;
    var slashes := s[b + 6..e];
    assert forall i :: 0 <= i < |slashes| ==> slashes[i] == '/' by {
      RunFromClass(SlashClass, s, b + 6);
      forall i | 0 <= i < |slashes| ensures slashes[i] == '/' {
        assert InClass(SlashClass, s[b + 6 + i]);
      }
    }
    assert s[p..c] == "youtu.be" + "/watch" + slashes + "?v=" by {
      AtSlice(s, p, "youtu.be");
      AtSlice(s, b, "/watch");
      AtSlice(s, e, "?v=");
      SliceSplit(s, b, b + 6, e);
      SliceSplit(s, p, b, e);
      SliceSplit(s, p, e, c);
    }
    assert YoutubeShortWatch(s[p..c], slashes);
  }

  /** A result of the matcher is an id the pattern reads from `s`. */
  lemma {:induction false} YoutubeIdSound(s: string, id: string) returns (pre: string, tail: string)
    requires YoutubeId(s) == Some(id)
    ensures s == pre + id + tail && YoutubePrefix(pre) && IdTerminator(tail)
  {
    YoutubeIdUnfold(s);
    var p := SchemeEnd(s).value;
    var c := FirstTailStart(s, YoutubeStarts(s, p));
    YoutubeStartsSound(s, p, c);
    IdTailSplit(s, c, id);
    pre, tail := s[..c], s[c + |id|..];
  }

  lemma YoutubeIdUnfold(s: string)
    requires YoutubeId(s).Some?
    ensures SchemeEnd(s).Some? && FirstTail(s, YoutubeStarts(s, SchemeEnd(s).value)) == YoutubeId(s)
  {
  }

  lemma {:induction false} IdTailSplit(s: string, c: nat, id: string)
    requires c <= |s| && IdTail(s, c) == Some(id)
    ensures s == s[..c] + id + s[c + |id|..] && IdTerminator(s[c + |id|..])
  {
    SliceSplit(s, 0, c, |s|);
    SliceSplit(s, c, c + |id|, |s|);
    assert s[0..c] == s[..c] && s[0..|s|] == s;
  }

  /** Every string the pattern accepts is matched, with the id the pattern reads. */
  lemma {:induction false} YoutubeSplitDetermined(s: string, pre: string, id: string, tail: string)
    requires s == pre + id + tail && YoutubePrefix(pre) && IdTerminator(tail)
    requires |id| >= 1 && AllIdChars(id)
    ensures YoutubeId(s) == Some(id)
  {
    var p := YoutubeScheme(s, pre, id + tail);
    IdTailAt(s, pre, id, tail);
    PathStarts(s, pre, p, id, tail);
    var cs := YoutubeStarts(s, p);
    assert FirstTail(s, cs) == Some(id);
  }

  /** The scheme the prefix starts with is the one the matcher recognises. */
  lemma {:induction false} YoutubeScheme(s: string, pre: string, rest: string) returns (p: nat)
    requires s == pre + rest && YoutubePrefix(pre)
    ensures p <= |pre| && SchemeEnd(s) == Some(p) && YoutubePath(pre[p..]) && At(s, p, pre[p..])
  {
    AtWhole(s, pre, rest);
    p := if "https://" <= pre && YoutubePath(pre[8..]) then 8 else 7;
    assert pre == pre[..p] + pre[p..];
    AtConcat(s, 0, pre[..p], pre[p..]);
    if p == 7 {
      NotAtChar(s, 0, "https://", 4);
    }
  }

  /** The position right after the prefix is the first start the matcher tries. */
  lemma {:induction false} PathStarts(s: string, pre: string, p: nat, id: string, tail: string)
    requires s == pre + id + tail && p <= |pre| && YoutubePath(pre[p..]) && At(s, p, pre[p..])
    requires |id| >= 1 && AllIdChars(id) && IdTerminator(tail)
    ensures |YoutubeStarts(s, p)| >= 1 && YoutubeStarts(s, p)[0] == |pre|
  {
    var h := pre[p..];
    if www, tld, sep :| YoutubeLongPath(h, www, tld, sep) {
      LongPathStarts(s, p, h, www, tld, sep);
    } else if slashes :| YoutubeShortWatch(h, slashes) {
      ShortWatchStarts(s, p, h, slashes);
    } else {
      IdTailAt(s, pre, id, tail);
      ShortSlashStarts(s, p);
    }
  }

  lemma {:induction false} AtWhole(s: string, a: string, b: string)
    requires s == a + b
    ensures At(s, 0, a)
  {
    AtSlice(s, 0, a);
    assert s[0..|a|] == a;
  }

  /** A literal occurring at `i` splits into its two parts. */
  lemma {:induction false} AtConcat(s: string, i: nat, a: string, b: string)
    requires At(s, i, a + b)
    ensures At(s, i, a) && At(s, i + |a|, b)
  {
    AtSlice(s, i, a + b);
    AtSlice(s, i, a);
    AtSlice(s, i + |a|, b);
    assert s[i..i + |a|] == (a + b)[..|a|];
    assert s[i + |a|..i + |a| + |b|] == (a + b)[|a|..];
  }

  /** One differing character keeps a literal from occurring at `i`. */
  lemma NotAtChar(s: string, i: nat, lit: string, k: nat)
    requires k < |lit| && i + k < |s| && s[i + k] != lit[k]
    ensures !At(s, i, lit)
  {
  }

  /** The greedy run is exactly `n` long when `n` characters of the class are followed by one that is not. */
  lemma {:induction false} RunIs(k: CharClass, s: string, p: nat, n: nat)
    requires p + n <= |s|
    requires forall i :: p <= i < p + n ==> InClass(k, s[i])
    requires p + n == |s| || !InClass(k, s[p + n])
    ensures RunFrom(k, s, p) == n
    decreases n
  {
    if n > 0 {
      RunIs(k, s, p + 1, n - 1);
    }
  }

  /** The id group at `|pre|` reads `id` when `id` is followed by a terminator. */
  lemma {:induction false} IdTailAt(s: string, pre: string, id: string, tail: string)
    requires s == pre + id + tail && IdTerminator(tail)
    requires |id| >= 1 && AllIdChars(id)
    ensures IdTail(s, |pre|) == Some(id)
  {
    var c := |pre|;
    assert forall i :: c <= i < c + |id| ==> s[i] == id[i - c];
    assert tail != [] ==> s[c + |id|] == tail[0];
    RunIs(IdClass, s, c, |id|);
    assert s[c..c + |id|] == id;
  }

  lemma {:induction false} LongPathStarts(s: string, p: nat, h: string, www: string, tld: string, sep: string)
    requires At(s, p, h) && YoutubeLongPath(h, www, tld, sep)
    ensures YoutubeStarts(s, p) == [p + |h|]
  {
    LongPathAt(s, p, h, www, tld, sep);
    var q := p + |www|;
    LongHostStarts(s, q, tld, sep);
    if www == "www." {
      WwwStarts(s, p, p + |h|);
    } else {
      BareStarts(s, p, p + |h|);
    }
  }

  /** The pieces of a `youtube.` path occurring at `p`. */
  lemma {:induction false} LongPathAt(s: string, p: nat, h: string, www: string, tld: string, sep: string)
    requires At(s, p, h) && YoutubeLongPath(h, www, tld, sep)
    ensures var q := p + |www|;
      && |h| == |www| + 14 + |tld| + |sep| && At(s, p, www)
      && At(s, q, "youtube.") && At(s, q + 8, tld) && |tld| >= 1 && AllLower(tld)
      && At(s, q + 8 + |tld|, "/watch") && At(s, q + 14 + |tld|, sep) && (sep == "?v=" || sep == "/")
  {
    AtConcat(s, p, www + "youtube." + tld + "/watch", sep);
    AtConcat(s, p, www + "youtube." + tld, "/watch");
    AtConcat(s, p, www + "youtube.", tld);
    AtConcat(s, p, www, "youtube.");
  }

  lemma {:induction false} WwwStarts(s: string, p: nat, c: nat)
    requires At(s, p, "www.") && YoutubeHostStarts(s, p + 4) == [c]
    ensures YoutubeStarts(s, p) == [c]
  {
    AtChar(s, p, "www.", 0);
    NotAtChar(s, p, "youtube.", 0);
    NotAtChar(s, p, "youtu.be", 0);
    assert YoutubeHostStarts(s, p) == [];
    assert ShortHostStarts(s, p) == [];
  }

  lemma {:induction false} BareStarts(s: string, p: nat, c: nat)
    requires At(s, p, "youtube.") && YoutubeHostStarts(s, p) == [c]
    ensures YoutubeStarts(s, p) == [c]
  {
    AtChar(s, p, "youtube.", 0);
    AtChar(s, p, "youtube.", 5);
    NotAtChar(s, p, "www.", 0);
    NotAtChar(s, p, "youtu.be", 5);
    assert ShortHostStarts(s, p) == [];
  }

  lemma {:induction false} LongHostStarts(s: string, q: nat, tld: string, sep: string)
    requires At(s, q, "youtube.") && At(s, q + 8, tld) && |tld| >= 1 && AllLower(tld)
    requires At(s, q + 8 + |tld|, "/watch") && At(s, q + 14 + |tld|, sep) && (sep == "?v=" || sep == "/")
    ensures YoutubeHostStarts(s, q) == [q + 14 + |tld| + |sep|]
  {
    assert RunFrom(LowerClass, s, q + 8) == |tld| by {
      LowerRun(s, q + 8, tld);
    }
    HostStartsAt(s, q, |tld|);
    WatchStartsSep(s, q + 8 + |tld| + 6, sep);
  }

  /** The separator at `w` decides the single start `WatchStarts` proposes. */
  lemma {:induction false} WatchStartsSep(s: string, w: nat, sep: string)
    requires At(s, w, sep) && (sep == "?v=" || sep == "/")
    ensures WatchStarts(s, w) == [w + |sep|]
  {
    AtChar(s, w, sep, 0);
    if sep == "?v=" {
      NotAtChar(s, w, "/", 0);
    } else {
      NotAtChar(s, w, "?v=", 0);
    }
  }

  /** A lower-case top-level domain followed by `/watch` is exactly the run of letters. */
  lemma {:induction false} LowerRun(s: string, r: nat, tld: string)
    requires At(s, r, tld) && AllLower(tld) && At(s, r + |tld|, "/watch")
    ensures RunFrom(LowerClass, s, r) == |tld|
  {
    RunIs(LowerClass, s, r, |tld|) by {
      forall i | r <= i < r + |tld| ensures InClass(LowerClass, s[i]) {
        AtChar(s, r, tld, i - r);
      }
      AtChar(s, r + |tld|, "/watch", 0);
    }
  }

  /** `YoutubeHostStarts` once the length of the top-level domain is known. */
  lemma {:induction false} HostStartsAt(s: string, q: nat, l: nat)
    requires At(s, q, "youtube.") && l >= 1 && RunFrom(LowerClass, s, q + 8) == l && At(s, q + 8 + l, "/watch")
    ensures YoutubeHostStarts(s, q) == WatchStarts(s, q + 8 + l + 6)
  {
  }

  lemma {:induction false} ShortWatchStarts(s: string, p: nat, h: string, slashes: string)
    requires At(s, p, h) && YoutubeShortWatch(h, slashes)
    ensures |YoutubeStarts(s, p)| >= 1 && YoutubeStarts(s, p)[0] == p + |h|
  {
    assert |h| == 17 + |slashes|;
    AtConcat(s, p, "youtu.be/watch" + slashes, "?v=");
    AtConcat(s, p, "youtu.be/watch", slashes);
    assert "youtu.be" + "/watch" == "youtu.be/watch";
    AtConcat(s, p, "youtu.be", "/watch");
    ShortHostWatch(s, p, slashes);
    ShortOnly(s, p);
  }

  lemma {:induction false} ShortHostWatch(s: string, p: nat, slashes: string)
    requires At(s, p, "youtu.be") && At(s, p + 8, "/watch") && At(s, p + 14, slashes)
    requires (forall i :: 0 <= i < |slashes| ==> slashes[i] == '/') && At(s, p + 14 + |slashes|, "?v=")
    ensures |ShortHostStarts(s, p)| >= 1 && ShortHostStarts(s, p)[0] == p + 17 + |slashes|
  {
    var b := p + 14;
    assert RunFrom(SlashClass, s, b) == |slashes| by {
      RunIs(SlashClass, s, b, |slashes|) by {
        forall i | b <= i < b + |slashes| ensures InClass(SlashClass, s[i]) {
          AtChar(s, b, slashes, i - b);
        }
        AtChar(s, b + |slashes|, "?v=", 0);
      }
    }
    assert ShortWatchPart(s, p + 8) == [p + 8 + 6 + |slashes| + 3];
  }

  /** After `youtu.be` only the short-host alternatives can propose a start. */
  lemma {:induction false} ShortOnly(s: string, p: nat)
    requires At(s, p, "youtu.be")
    ensures YoutubeStarts(s, p) == ShortHostStarts(s, p)
  {
    AtChar(s, p, "youtu.be", 0);
    AtChar(s, p, "youtu.be", 5);
    NotAtChar(s, p, "www.", 0);
    NotAtChar(s, p, "youtube.", 5);
    assert YoutubeHostStarts(s, p) == [];
  }

  lemma {:induction false} ShortSlashStarts(s: string, p: nat)
    requires At(s, p, "youtu.be/") && IdTail(s, p + 9).Some?
    ensures YoutubeStarts(s, p) == [p + 9]
  {
    assert At(s, p, "youtu.be") && At(s, p + 8, "/") by {
      assert "youtu.be" + "/" == "youtu.be/";
      AtConcat(s, p, "youtu.be", "/");
    }
    assert ShortHostStarts(s, p) == [p + 9] by {
      NoWatchAfterSlash(s, p + 8);
      ShortHostSlash(s, p);
    }
    ShortOnly(s, p);
  }

  lemma ShortHostSlash(s: string, p: nat)
    requires At(s, p, "youtu.be") && At(s, p + 8, "/")
    requires !At(s, p + 8, "/watch") || !At(s, p + 8 + 6 + RunFrom(SlashClass, s, p + 8 + 6), "?v=")
    ensures ShortHostStarts(s, p) == [p + 9]
  {
  }

  // When the id group right after `youtu.be/` matches, the `/watch/*?v=` alternative
  // does not apply: its id would be `watch`, followed by `/` or `?`, not a terminator.
  lemma {:induction false} NoWatchAfterSlash(s: string, b: nat)
    requires b + 1 <= |s| && IdTail(s, b + 1).Some?
    ensures !At(s, b, "/watch") || !At(s, b + 6 + RunFrom(SlashClass, s, b + 6), "?v=")
  {
    if At(s, b, "/watch") {
      var m := RunFrom(SlashClass, s, b + 6);
      if At(s, b + 6 + m, "?v=") {
        assert s[b + 6] == '/' || s[b + 6] == '?' by {
          if m == 0 {
            AtChar(s, b + 6 + m, "?v=", 0);
          } else {
            RunFromClass(SlashClass, s, b + 6);
          }
        }
        forall i | b + 1 <= i < b + 6
          ensures s[i] == "/watch"[i - b]
        {
          AtChar(s, b, "/watch", i - b);
        }
        RunIs(IdClass, s, b + 1, 5);
      }
    }
  }

  // ---------------------------------------------------------------------------
  // SPOTIFY_ID_RE = `https?://open\.spotify\.com/track/(?P<id>\w+)`, `\w` taken as ASCII
  // ---------------------------------------------------------------------------

  const TrackPath: string := "open.spotify.com/track/"

  function SpotifyId(s: string): (r: Option<string>)
    ensures r.Some? ==> |r.value| >= 1 && AllWordChars(r.value)
  {
    match SchemeEnd(s)
    case None => None
    case Some(p) =>
      if !At(s, p, TrackPath) then None
      else
        var c := p + |TrackPath|;
        var n := RunFrom(WordClass, s, c);
        if n == 0 then None else RunFromClass(WordClass, s, c); Some(s[c..c + n])
  }

  /** A reading of `s` as the pattern: the greedy id is followed by a non-word character or nothing. */
  ghost predicate SpotifySplit(s: string, scheme: string, id: string, rest: string)
  {
    && (scheme == "https://" || scheme == "http://")
    && s == scheme + TrackPath + id + rest
    && |id| >= 1 && AllWordChars(id)
    && (rest == [] || !IsWordChar(rest[0]))
  }

  /** A result of the matcher is an id the pattern reads from `s`. */
  lemma {:induction false} SpotifyIdSound(s: string, id: string) returns (scheme: string, rest: string)
    requires SpotifyId(s) == Some(id)
    ensures SpotifySplit(s, scheme, id, rest)
  {
    SpotifyIdUnfold(s);
    var p := SchemeEnd(s).value;
    scheme, rest := s[..p], s[p + |TrackPath| + |id|..];
    SpotifySplitAt(s, p, |id|);
  }

  lemma {:induction false} SpotifySplitAt(s: string, p: nat, n: nat)
    requires p <= |s| && (s[..p] == "https://" || s[..p] == "http://") && At(s, p, TrackPath)
    requires n >= 1 && n == RunFrom(WordClass, s, p + |TrackPath|)
    ensures SpotifySplit(s, s[..p], s[p + |TrackPath|..p + |TrackPath| + n], s[p + |TrackPath| + n..])
  {
    var c := p + |TrackPath|;
    var e := c + n;
    var scheme, id, rest := s[..p], s[c..e], s[e..];
    assert AllWordChars(id) by {
      RunFromClass(WordClass, s, c);
      forall i | 0 <= i < |id| ensures IsWordChar(id[i]) {
        assert InClass(WordClass, s[c + i]);
      }
    }
    assert rest == [] || !IsWordChar(rest[0]) by {
      assert e == |s| || !InClass(WordClass, s[e]);
      assert rest != [] ==> rest[0] == s[e];
    }
    SliceSplit(s, 0, p, c);
    SliceSplit(s, 0, c, e);
    SliceSplit(s, 0, e, |s|);
    assert s[0..p] == scheme && s[p..c] == TrackPath && s[0..|s|] == s;
    assert s == scheme + TrackPath + id + rest;
  }

  lemma SpotifyIdUnfold(s: string)
    requires SpotifyId(s).Some?
    ensures SchemeEnd(s).Some? && At(s, SchemeEnd(s).value, TrackPath)
    ensures var c := SchemeEnd(s).value + |TrackPath|;
      var n := RunFrom(WordClass, s, c);
      n == |SpotifyId(s).value| && SpotifyId(s).value == s[c..c + n]
  {
  }

  /** Every reading of `s` as the pattern is the one the matcher finds. */
  lemma {:induction false} SpotifySplitDetermined(s: string, scheme: string, id: string, rest: string)
    requires SpotifySplit(s, scheme, id, rest)
    ensures SpotifyId(s) == Some(id)
    ensures SchemeEnd(s) == Some(|scheme|) && At(s, |scheme|, TrackPath)
  {
    assert s == scheme + (TrackPath + id + rest);
    SchemeOf(s, scheme, TrackPath + id + rest);
    SpotifySplitParts(s, scheme, id, rest);
    RunIs(WordClass, s, |scheme| + |TrackPath|, |id|);
  }

  /** `https?://` ends right after the scheme a string starts with. */
  lemma {:induction false} SchemeOf(s: string, scheme: string, tail: string)
    requires scheme == "https://" || scheme == "http://"
    requires s == scheme + tail
    ensures SchemeEnd(s) == Some(|scheme|)
  {
    assert s[..|scheme|] == scheme;
    if scheme == "http://" {
      assert s[4] == scheme[4];
      NotAtChar(s, 0, "https://", 4);
    }
  }

  /** The pieces of a reading, as positions in `s`. */
  lemma {:induction false} SpotifySplitParts(s: string, scheme: string, id: string, rest: string)
    requires SpotifySplit(s, scheme, id, rest)
    ensures At(s, |scheme|, TrackPath)
    ensures var c := |scheme| + |TrackPath|;
      && c + |id| <= |s| && s[c..c + |id|] == id
      && (forall i :: c <= i < c + |id| ==> InClass(WordClass, s[i]))
      && (c + |id| == |s| || !InClass(WordClass, s[c + |id|]))
  {
    var p := |scheme|;
    var c := p + |TrackPath|;
    var e := c + |id|;
    assert s[p..c] == TrackPath;
    assert s[c..e] == id;
    forall i | c <= i < e
      ensures InClass(WordClass, s[i])
    {
      assert s[i] == id[i - c];
    }
    if rest != [] {
      assert s[e] == rest[0];
    }
  }

}
