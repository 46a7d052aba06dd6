/**
 * The "Up next" text of the `queue` command: numbered lines taken greedily
 * while the text stays within Discord's 2000-character field limit, then a
 * count of the lines left out.
 */
module Listing {
  import opened Text

  /** A queued video: its title, the stream to play, what the user typed and its watch URL. */
  datatype VideoInfo = VideoInfo(title: string, audioUrl: string, inputUrl: string, ytUrl: string)

  /** The largest description the loop accepts. */
  const Limit := 2000

  /** One line of the listing, `f"{i}. [{title}]({yt_url})\n"`. */
  function Entry(position: nat, info: VideoInfo): string
  {
    NatToString(position) + ". [" + info.title + "](" + info.ytUrl + ")\n"
  }

  /** The lines for `queue`, numbered from `first` as `enumerate(..., start=first)` does. */
  function Entries(queue: seq<VideoInfo>, first: nat): (lines: seq<string>)
    ensures |lines| == |queue|
    ensures forall i :: 0 <= i < |queue| ==> lines[i] == Entry(first + i, queue[i])
  {
    if queue == [] then [] else [Entry(first, queue[0])] + Entries(queue[1..], first + 1)
  }

  function Concat(lines: seq<string>): string
  {
    if lines == [] then [] else lines[0] + Concat(lines[1..])
  }

  lemma {:induction false} ConcatAppend(a: seq<string>, b: seq<string>)
    ensures Concat(a + b) == Concat(a) + Concat(b)
  {
    if a == [] {
      assert a + b == b;
    } else {
      assert (a + b)[1..] == a[1..] + b;
      ConcatAppend(a[1..], b);
    }
  }

  /**
   * How many of `lines` the loop appends when the description already holds
   * `used` characters: it stops at the first line that would push it past
   * `Limit`, even if a later, shorter line would still fit.
   */
  function Taken(used: nat, lines: seq<string>): (k: nat)
    ensures k <= |lines|
    decreases |lines|
  {
    if lines == [] || used + |lines[0]| > Limit then 0
    else 1 + Taken(used + |lines[0]|, lines[1..])
  }

  /** The lines `Taken` counts stay within the limit, and the next one would not. */
  lemma {:induction false} TakenBounds(used: nat, lines: seq<string>)
    ensures var k := Taken(used, lines);
      && (used <= Limit ==> used + |Concat(lines[..k])| <= Limit)
      && (k < |lines| ==> used + |Concat(lines[..k])| + |lines[k]| > Limit)
    decreases |lines|
  {
    if lines != [] && used + |lines[0]| <= Limit {
      var k := Taken(used, lines);
      TakenBounds(used + |lines[0]|, lines[1..]);
      assert lines[..k] == [lines[0]] + lines[1..][..k - 1];
      assert Concat(lines[..k]) == lines[0] + Concat(lines[1..][..k - 1]);
    }
  }

  /** The suffix naming how many lines did not fit. */
  function More(count: nat): string
  {
    "and " + NatToString(count) + " more..."
  }

  /** The description the loop produces. */
  function Description(lines: seq<string>): string
  {
    var k := Taken(0, lines);
    Concat(lines[..k]) + (if k < |lines| then More(|lines| - k) else "")
  }

  /**
   * The shape of the description: the first `k` lines in order, within the
   * limit, where line `k` (if any) would not fit, followed by
   * "and <count> more..." exactly when lines were left out.
   */
  lemma DescriptionShape(lines: seq<string>) returns (k: nat)
    ensures k <= |lines|
    ensures |Concat(lines[..k])| <= Limit
    ensures k < |lines| ==> |Concat(lines[..k])| + |lines[k]| > Limit
    ensures k == |lines| ==> Description(lines) == Concat(lines)
    ensures k < |lines| ==> Description(lines) == Concat(lines[..k]) + More(|lines| - k)
  {
    k := Taken(0, lines);
    TakenBounds(0, lines);
    assert lines[..|lines|] == lines;
  }

  /** Lines that fit altogether are never cut: `Taken` takes all of them. */
  lemma {:induction false} AllTaken(used: nat, lines: seq<string>)
    requires used + |Concat(lines)| <= Limit
    ensures Taken(used, lines) == |lines|
    decreases |lines|
  {
    if lines != [] {
      AllTaken(used + |lines[0]|, lines[1..]);
    }
  }

  /** A short queue is listed in full with no "more" suffix. */
  lemma ShortListingComplete(lines: seq<string>)
    requires |Concat(lines)| <= Limit
    ensures Description(lines) == Concat(lines)
  {
    AllTaken(0, lines);
    assert lines[..|lines|] == lines;
  }

  /** Appending line `i` extends the concatenation of the lines before it. */
  lemma ConcatOne(values: seq<string>, i: nat)
    requires i < |values|
    ensures Concat(values[..i]) + values[i] == Concat(values[..i + 1])
  {
    assert values[..i + 1] == values[..i] + [values[i]];
    ConcatAppend(values[..i], [values[i]]);
  }

  /** The next line fits: one more line is taken. */
  lemma TakenNext(values: seq<string>, i: nat, used: nat)
    requires i < |values| && used + |values[i]| <= Limit
    ensures values[i..][1..] == values[i + 1..]
    ensures Taken(used, values[i..]) == 1 + Taken(used + |values[i]|, values[i + 1..])
  {
    assert values[i..][0] == values[i] && values[i..][1..] == values[i + 1..];
    TakenStep(used, values[i..]);
  }

  lemma TakenStep(used: nat, lines: seq<string>)
    requires lines != [] && used + |lines[0]| <= Limit
    ensures Taken(used, lines) == 1 + Taken(used + |lines[0]|, lines[1..])
  {
  }

  /**
   * The loop of the `queue` command: lines are popped from the front while
   * the next one fits, then the count of the rest is appended.
   */
  method BuildDescription(values: seq<string>) returns (description: string)
    ensures description == Description(values)
  {
    description := "";
    var rest := values;
    ghost var i := 0;
    while rest != []
      invariant 0 <= i <= |values| && rest == values[i..]
      invariant description == Concat(values[..i])
      invariant Taken(0, values) == i + Taken(|description|, rest)
    {
      if |description| + |rest[0]| > Limit {
        break;
      }
      ConcatOne(values, i);
      TakenNext(values, i, |description|);
      description := description + rest[0];
      rest := rest[1..];
      i := i + 1;
    }
    assert i == Taken(0, values) && |rest| == |values| - i;
    if rest != [] {
      description := description + More(|rest|);
    }
  }

}
