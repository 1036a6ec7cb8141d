/** The minimum number of SMS segments for a message, by dynamic programming over its words
    (services/notification/src/segmenter.py), and what that number is. */
module SmsSegmenter {
  import opened Wrappers
  import opened Text

  const MAX_SEGMENT_CHARS: nat := 160

  // ----- str.split()

  function Words(s: string): (r: seq<string>)
    ensures s != "" && !IsSpace(s[0]) ==> r != []
  {
    if s == "" then []
    else if IsSpace(s[0]) then Words(s[1..])
    else if |s| == 1 || IsSpace(s[1]) then [[s[0]]] + Words(s[1..])
    else
      var rest := Words(s[1..]);
      [[s[0]] + rest[0]] + rest[1..]
  }

  /** A run without whitespace is one word ... */
  lemma {:induction false} OneWord(s: string)
    requires s != "" && forall k | 0 <= k < |s| :: !IsSpace(s[k])
    ensures Words(s) == [s]
  {
    if |s| > 1 {
      OneWord(s[1..]);
      assert [s[0]] + s[1..] == s;
    } else {
      assert s[1..] == "" && [s[0]] == s;
    }
  }

  /** ... and whitespace separates: together the two say all about `split`. */
  lemma {:induction false} SplitAtSpace(a: string, c: char, b: string)
    requires IsSpace(c)
    ensures Words(a + [c] + b) == Words(a) + Words(b)
  {
    if a == "" {
      assert a + [c] + b == [c] + b && ([c] + b)[1..] == b;
    } else {
      var s := a + [c] + b;
      assert s[1..] == a[1..] + [c] + b;
      SplitAtSpace(a[1..], c, b);
      if |a| == 1 {
        assert a[1..] == "";
      } else {
        assert s[1] == a[1];
      }
    }
  }

  // ----- segments

  /** Words `i` to `j - 1` as they are sent. */
  ghost function Joined(words: seq<string>, i: nat, j: nat): string
    requires i < j <= |words|
  {
    if j == i + 1 then words[i] else Joined(words, i, j - 1) + " " + words[j - 1]
  }

  /** A word has characters, none of them whitespace. */
  ghost predicate IsWord(w: string) {
    w != "" && forall k | 0 <= k < |w| :: !IsSpace(w[k])
  }

  /** Splitting undoes joining: the words of a text written with single spaces are its words. */
  lemma {:induction false} SplitJoins(words: seq<string>, n: nat)
    requires 1 <= n <= |words| && forall k | 0 <= k < n :: IsWord(words[k])
    ensures Words(Joined(words, 0, n)) == words[..n]
    decreases n
  {
    OneWord(words[n - 1]);
    if n > 1 {
      SplitJoins(words, n - 1);
      SpacesAre(' ');
      assert [' '] == " ";
      SplitAtSpace(Joined(words, 0, n - 1), ' ', words[n - 1]);
    }
    assert words[..n] == words[..n - 1] + [words[n - 1]];
  }

  /** Words of printing ASCII characters. */
  ghost predicate Printing(words: seq<string>) {
    words != [] && forall k | 0 <= k < |words| :: words[k] != "" && forall l | 0 <= l < |words[k]| :: '!' <= words[k][l] <= '~'
  }

  /** So for texts in printing ASCII characters. */
  lemma SplitJoinsPrinting(words: seq<string>)
    requires Printing(words)
    ensures Words(Joined(words, 0, |words|)) == words
  {
    forall k, l | 0 <= k < |words| && 0 <= l < |words[k]| ensures !IsSpace(words[k][l]) {
      SpacesAre(words[k][l]);
    }
    SplitJoins(words, |words|);
    assert words[..|words|] == words;
  }

  /** A segment fits, or it is a single word (which is never split). */
  ghost predicate SegmentOk(words: seq<string>, i: nat, j: nat)
    requires i < j <= |words|
  {
    |Joined(words, i, j)| <= MAX_SEGMENT_CHARS || j == i + 1
  }

  /** `sizes` cuts the words from `i` on into consecutive segments. */
  ghost predicate Cuts(words: seq<string>, i: nat, sizes: seq<nat>)
    requires i <= |words|
    decreases |sizes|
  {
    if sizes == [] then i == |words|
    else
      && sizes[0] >= 1 && i + sizes[0] <= |words|
      && SegmentOk(words, i, i + sizes[0]) && Cuts(words, i + sizes[0], sizes[1..])
  }

  /** `k` segments suffice for the words from `i` on, and no way of cutting needs fewer. */
  ghost predicate Optimal(words: seq<string>, i: nat, k: nat)
    requires i <= |words|
  {
    && Suffice(words, i, k)
    && (forall sizes :: Cuts(words, i, sizes) ==> |sizes| >= k)
  }

  ghost predicate Suffice(words: seq<string>, i: nat, k: nat)
    requires i <= |words|
  {
    exists sizes :: Cuts(words, i, sizes) && |sizes| == k
  }

  lemma {:induction false} TextGrows(words: seq<string>, i: nat, j: nat, m: nat)
    requires i < j <= m <= |words|
    ensures |Joined(words, i, j)| <= |Joined(words, i, m)|
  {
    if j < m { TextGrows(words, i, j, m - 1); }
  }

  lemma PrependSegment(words: seq<string>, i: nat, size: nat, sizes: seq<nat>)
    requires 1 <= size && i + size <= |words| && SegmentOk(words, i, i + size) && Cuts(words, i + size, sizes)
    ensures Cuts(words, i, [size] + sizes)
  {
    assert ([size] + sizes)[1..] == sizes;
  }

  // ----- the dynamic program

  /** The words of the first segment. */
  ghost function FirstOf(words: seq<string>, i: nat, sizes: seq<nat>): nat
    requires i < |words| && Cuts(words, i, sizes)
  {
    sizes[0]
  }

  /** No cut whose first segment has at most `most` words needs fewer than `k`. */
  ghost predicate NoneShorter(words: seq<string>, i: nat, most: nat, k: nat)
    requires i < |words|
  {
    forall sizes :: Cuts(words, i, sizes) && FirstOf(words, i, sizes) <= most ==> |sizes| >= k
  }

  /** `best` (None: infinity) is the least count among the cuts whose first segment has at
      most `most` words. */
  ghost predicate BestUpTo(words: seq<string>, i: nat, most: nat, best: Option<nat>)
    requires i < |words|
  {
    && (best.None? <==> most == 0)
    && (best.Some? ==> Suffice(words, i, best.value) && NoneShorter(words, i, most, best.value))
  }

  lemma FirstSegment(words: seq<string>, i: nat, sizes: seq<nat>)
    requires i < |words| && Cuts(words, i, sizes)
    ensures sizes != [] && sizes[0] >= 1 && i + sizes[0] <= |words|
    ensures SegmentOk(words, i, i + sizes[0]) && Cuts(words, i + sizes[0], sizes[1..])
  {
  }

  lemma OptimalSuffices(words: seq<string>, i: nat, k: nat)
    requires i <= |words| && Optimal(words, i, k)
    ensures Suffice(words, i, k)
  {
    hide Cuts;
  }

  /** One more size for the first segment. */
  lemma OneSizeMore(words: seq<string>, i: nat, most: nat, best: Option<nat>, rest: nat)
    requires i < |words| && i + most + 1 <= |words| && BestUpTo(words, i, most, best)
    requires SegmentOk(words, i, i + most + 1) && Optimal(words, i + most + 1, rest)
    ensures BestUpTo(words, i, most + 1, Some(Min(best, 1 + rest)))
  {
    hide Optimal, Cuts, SegmentOk, Suffice, Joined, NoneShorter;
    OptimalSuffices(words, i + most + 1, rest);
    OneMoreSuffices(words, i, most + 1, rest);
    StillNoneShorter(words, i, most, best, rest);
  }

  lemma StillNoneShorter(words: seq<string>, i: nat, most: nat, best: Option<nat>, rest: nat)
    requires i < |words| && i + most + 1 <= |words| && BestUpTo(words, i, most, best) && Optimal(words, i + most + 1, rest)
    ensures NoneShorter(words, i, most + 1, Min(best, 1 + rest))
  {
    hide Optimal, BestUpTo, Cuts, SegmentOk, Suffice, Joined, FirstOf, Min;
    forall sizes | Cuts(words, i, sizes) && FirstOf(words, i, sizes) <= most + 1 ensures |sizes| >= Min(best, 1 + rest) {
      OneCutMore(words, i, most, best, rest, sizes);
    }
  }

  lemma OneCutMore(words: seq<string>, i: nat, most: nat, best: Option<nat>, rest: nat, sizes: seq<nat>)
    requires i < |words| && i + most + 1 <= |words| && BestUpTo(words, i, most, best) && Optimal(words, i + most + 1, rest)
    requires Cuts(words, i, sizes) && FirstOf(words, i, sizes) <= most + 1
    ensures |sizes| >= Min(best, 1 + rest)
  {
    hide SegmentOk, Suffice, Joined, Cuts;
    FirstSegment(words, i, sizes);
    if sizes[0] <= most {
      assert |sizes| >= best.value;
    } else {
      assert Cuts(words, i + most + 1, sizes[1..]);
    }
  }

  lemma OneMoreSuffices(words: seq<string>, i: nat, size: nat, rest: nat)
    requires 1 <= size && i + size <= |words| && SegmentOk(words, i, i + size) && Suffice(words, i + size, rest)
    ensures Suffice(words, i, 1 + rest)
  {
    var tail :| Cuts(words, i + size, tail) && |tail| == rest;
    PrependSegment(words, i, size, tail);
  }

  lemma LongerDoesNotFit(words: seq<string>, i: nat, j: nat, m: nat)
    requires i + 1 < j <= m <= |words| && !SegmentOk(words, i, j)
    ensures !SegmentOk(words, i, m)
  {
    TextGrows(words, i, j, m);
  }

  /** No larger first segment is possible: the best so far is the best. */
  lemma NoLargerSize(words: seq<string>, i: nat, most: nat, best: nat)
    requires i < |words| && 1 <= most && i + most <= |words| && BestUpTo(words, i, most, Some(best))
    requires i + most < |words| ==> !SegmentOk(words, i, i + most + 1)
    ensures Optimal(words, i, best)
  {
    hide SegmentOk, Suffice, Joined, Cuts;
    forall sizes | Cuts(words, i, sizes) ensures |sizes| >= best {
      FirstSegment(words, i, sizes);
      if sizes[0] > most { LongerDoesNotFit(words, i, i + most + 1, i + sizes[0]); }
    }
  }

  function Min(a: Option<nat>, b: nat): nat {
    if a.Some? && a.value <= b then a.value else b
  }

  /** The entries from `i` on hold the optimum of their suffix. */
  ghost predicate Solved(words: seq<string>, dp: array<Option<nat>>, i: nat)
    reads dp
  {
    dp.Length == |words| + 1 && forall k | i <= k <= |words| :: dp[k].Some? && Optimal(words, k, dp[k].value)
  }

  /** The inner loop: every length of the first segment from word `i` on, until one does not fit. */
  method TryFirstSegments(words: seq<string>, dp: array<Option<nat>>, i: nat)
    requires i < |words| && Solved(words, dp, i + 1) && dp[i] == None
    modifies dp
    ensures Solved(words, dp, i)
    ensures forall k | 0 <= k < i :: dp[k] == old(dp[k])
  {
    hide Optimal, BestUpTo, Joined, SegmentOk;
    NothingTried(words, i);
    var length, j := 0, i;
    while j < |words|
      invariant i <= j <= |words|
      invariant if j == i then length == 0 else length == |Joined(words, i, j)| <= MAX_SEGMENT_CHARS
      invariant BestUpTo(words, i, j - i, dp[i]) && (dp[i].None? <==> j == i)
      invariant Solved(words, dp, i + 1)
      invariant forall k | 0 <= k < i :: dp[k] == old(dp[k])
    {
      var add := if j == i then |words[j]| else |words[j]| + 1;
      NextWord(words, i, j);
      if length + add > MAX_SEGMENT_CHARS {
        if j == i {
          OneSizeMore(words, i, 0, None, dp[i + 1].value);
          dp[i] := Some(1 + dp[i + 1].value);
          j := i + 1;
        }
        if j < |words| { TooLong(words, i, j, length + add); }
        break;
      }
      length := length + add;
      OneSizeMore(words, i, j - i, dp[i], dp[j + 1].value);
      dp[i] := Some(Min(dp[i], 1 + dp[j + 1].value));
      j := j + 1;
    }
    NoLargerSize(words, i, j - i, dp[i].value);
  }

  /** `min_sms_segments`: the least number of segments over all ways to cut the words; of a text
      written as words with single spaces, over all ways to cut these. */
  method MinSmsSegments(message: string) returns (segments: nat)
    ensures Optimal(Words(message), 0, segments)
    ensures forall words | Printing(words) && message == Joined(words, 0, |words|) :: Optimal(words, 0, segments)
  {
    var words := Words(message);
    var n := |words|;
    var dp := new Option<nat>[n + 1](_ => None);
    dp[n] := Some(0);
    NoWordsLeft(words);
    hide Words, Optimal;
    var i := n;
    while i > 0
      invariant 0 <= i <= n && Solved(words, dp, i)
      invariant forall k | 0 <= k < i :: dp[k] == None
    {
      i := i - 1;
      TryFirstSegments(words, dp, i);
    }
    segments := dp[0].value;
    forall other | Printing(other) && message == Joined(other, 0, |other|) ensures Optimal(other, 0, segments) {
      SplitJoinsPrinting(other);
    }
  }

  /** One more word on the segment from word `i` on. */
  lemma NextWord(words: seq<string>, i: nat, j: nat)
    requires i <= j < |words|
    ensures |Joined(words, i, j + 1)| == if j == i then |words[i]| else |Joined(words, i, j)| + 1 + |words[j]|
    ensures SegmentOk(words, i, j + 1) <==> |Joined(words, i, j + 1)| <= MAX_SEGMENT_CHARS || j == i
  {
  }

  /** Text that does not fit does not fit with another word either. */
  lemma TooLong(words: seq<string>, i: nat, j: nat, length: nat)
    requires i < j < |words| && length > MAX_SEGMENT_CHARS
    requires length == |Joined(words, i, j)| || length == |Joined(words, i, j + 1)|
    ensures !SegmentOk(words, i, j + 1)
  {
    NextWord(words, i, j);
  }

  lemma NoWordsLeft(words: seq<string>)
    ensures Optimal(words, |words|, 0)
  {
    assert Cuts(words, |words|, []);
  }

  lemma NothingTried(words: seq<string>, i: nat)
    requires i < |words|
    ensures BestUpTo(words, i, 0, None)
  {
  }

  // ----- the same number by one greedy pass

  /** Segments still to be opened for the words from `i` on, when the open one holds `length`
      characters; `MAX_SEGMENT_CHARS` or more means that nothing fits any more. */
  function Greedy(words: seq<string>, i: nat, length: nat): nat
    requires i <= |words|
    decreases |words| - i
  {
    if i == |words| then 0
    else if length + 1 + |words[i]| <= MAX_SEGMENT_CHARS then Greedy(words, i + 1, length + 1 + |words[i]|)
    else 1 + Greedy(words, i + 1, |words[i]|)
  }

  function GreedySegments(words: seq<string>): nat {
    Greedy(words, 0, MAX_SEGMENT_CHARS)
  }

  /** A fuller open segment costs at most one segment more, and never less. */
  lemma {:induction false} FullerIsWorse(words: seq<string>, i: nat, a: nat, b: nat)
    requires i <= |words| && a <= b
    ensures Greedy(words, i, a) <= Greedy(words, i, b) <= 1 + Greedy(words, i, a)
    decreases |words| - i
  {
    if i < |words| {
      var w := |words[i]|;
      if b + 1 + w <= MAX_SEGMENT_CHARS {
        FullerIsWorse(words, i + 1, a + 1 + w, b + 1 + w);
      } else if a + 1 + w <= MAX_SEGMENT_CHARS {
        FullerIsWorse(words, i + 1, w, a + 1 + w);
      }
    }
  }

  /** Greedy keeps a segment open as long as its words fit. */
  lemma {:induction false} GreedyFills(words: seq<string>, i: nat, j: nat)
    requires i < j <= |words| && SegmentOk(words, i, j)
    ensures Greedy(words, i, MAX_SEGMENT_CHARS) == 1 + Greedy(words, j, |Joined(words, i, j)|)
  {
    if j > i + 1 {
      TextGrows(words, i, j - 1, j);
      GreedyFills(words, i, j - 1);
    }
  }

  lemma {:induction false} GreedyIsLeast(words: seq<string>, i: nat, sizes: seq<nat>)
    requires i <= |words| && Cuts(words, i, sizes)
    ensures Greedy(words, i, MAX_SEGMENT_CHARS) <= |sizes|
    decreases |sizes|
  {
    if sizes != [] {
      var j := i + sizes[0];
      GreedyIsLeast(words, j, sizes[1..]);
      GreedyFills(words, i, j);
      var length := |Joined(words, i, j)|;
      if length <= MAX_SEGMENT_CHARS {
        FullerIsWorse(words, j, length, MAX_SEGMENT_CHARS);
      } else {
        FullerIsWorse(words, j, MAX_SEGMENT_CHARS, length);
        NothingFits(words, j, length);
      }
    }
  }

  lemma NothingFits(words: seq<string>, i: nat, length: nat)
    requires i <= |words| && (i < |words| ==> length + 1 + |words[i]| > MAX_SEGMENT_CHARS)
    ensures Greedy(words, i, length) == Greedy(words, i, MAX_SEGMENT_CHARS)
  {
  }

  /** Where the greedy segment that starts at `i` and already holds the words before `j` ends. */
  ghost function SegmentEnd(words: seq<string>, i: nat, j: nat): (e: nat)
    requires i < j <= |words| && SegmentOk(words, i, j)
    ensures j <= e <= |words| && SegmentOk(words, i, e)
    ensures e < |words| ==> |Joined(words, i, e)| + 1 + |words[e]| > MAX_SEGMENT_CHARS
    decreases |words| - j
  {
    if j < |words| && |Joined(words, i, j)| + 1 + |words[j]| <= MAX_SEGMENT_CHARS then SegmentEnd(words, i, j + 1) else j
  }

  lemma {:induction false} GreedyIsACut(words: seq<string>, i: nat) returns (sizes: seq<nat>)
    requires i <= |words|
    ensures Cuts(words, i, sizes) && |sizes| == Greedy(words, i, MAX_SEGMENT_CHARS)
    decreases |words| - i
  {
    sizes := [];
    if i < |words| {
      var e := SegmentEnd(words, i, i + 1);
      var rest := GreedyIsACut(words, e);
      GreedyFills(words, i, e);
      NothingFits(words, e, |Joined(words, i, e)|);
      PrependSegment(words, i, e - i, rest);
      sizes := [e - i] + rest;
    }
  }

  /** One greedy pass computes the optimum, and nothing else is optimal. */
  lemma OptimalIsGreedy(words: seq<string>, k: nat)
    ensures Optimal(words, 0, k) <==> k == GreedySegments(words)
  {
    var sizes := GreedyIsACut(words, 0);
    forall other | Cuts(words, 0, other) ensures GreedySegments(words) <= |other| {
      GreedyIsLeast(words, 0, other);
    }
  }

  // ----- what the number obeys

  lemma {:induction false} GreedyGrows(words: seq<string>, more: seq<string>, i: nat, length: nat)
    requires i <= |words|
    ensures Greedy(words, i, length) <= Greedy(words + more, i, length)
    decreases |words| - i
  {
    if i < |words| {
      GreedyGrows(words, more, i + 1, if length + 1 + |words[i]| <= MAX_SEGMENT_CHARS then length + 1 + |words[i]| else |words[i]|);
    }
  }

  /** Appending to a message, after whitespace, never makes it cheaper to send. */
  lemma AppendingNeverSaves(message: string, c: char, more: string, k: nat, l: nat)
    requires IsSpace(c)
    requires Optimal(Words(message), 0, k) && Optimal(Words(message + [c] + more), 0, l)
    ensures k <= l
  {
    SplitAtSpace(message, c, more);
    OptimalIsGreedy(Words(message), k);
    OptimalIsGreedy(Words(message + [c] + more), l);
    GreedyGrows(Words(message), Words(more), 0, MAX_SEGMENT_CHARS);
  }

  /** Characters of the words from `i` on, each with the space before it. */
  ghost function Weight(words: seq<string>, i: nat): nat
    requires i <= |words|
    decreases |words| - i
  {
    if i == |words| then 0 else 1 + |words[i]| + Weight(words, i + 1)
  }

  lemma {:induction false} WeightOfText(words: seq<string>, i: nat, j: nat)
    requires i < j <= |words|
    ensures Weight(words, i) == 1 + |Joined(words, i, j)| + Weight(words, j)
  {
    if j > i + 1 { WeightOfText(words, i, j - 1); }
  }

  /** Two segments in a row that greedy did not merge hold at least 162 characters with their spaces. */
  lemma {:induction false} GreedyIsHalfFull(words: seq<string>, i: nat, length: nat)
    requires i <= |words|
    ensures var k := Greedy(words, i, length);
      if k % 2 == 0 then Weight(words, i) >= 162 * (k / 2) else length + 1 + Weight(words, i) >= 162 * ((k + 1) / 2)
    decreases |words| - i
  {
    if i < |words| {
      var w := |words[i]|;
      GreedyIsHalfFull(words, i + 1, if length + 1 + w <= MAX_SEGMENT_CHARS then length + 1 + w else w);
    }
  }

  lemma {:induction false} SegmentsHoldAll(words: seq<string>, i: nat, length: nat)
    requires i <= |words| && length <= MAX_SEGMENT_CHARS
    requires forall k | 0 <= k < |words| :: |words[k]| <= MAX_SEGMENT_CHARS
    ensures length + Weight(words, i) <= MAX_SEGMENT_CHARS + 161 * Greedy(words, i, length)
    decreases |words| - i
  {
    if i < |words| {
      var w := |words[i]|;
      SegmentsHoldAll(words, i + 1, if length + 1 + w <= MAX_SEGMENT_CHARS then length + 1 + w else w);
    }
  }

  lemma OpensFirst(words: seq<string>)
    requires words != []
    ensures GreedySegments(words) == Greedy(words, 0, MAX_SEGMENT_CHARS) == 1 + Greedy(words, 1, |words[0]|)
    ensures Weight(words, 0) == 1 + |words[0]| + Weight(words, 1) && Weight(words, |words|) == 0
  {
  }

  lemma HalfOf(total: nat, k: nat)
    requires k >= 1 && total >= 162 * (if k % 2 == 0 then k / 2 else (k - 1) / 2)
    ensures k <= 2 * (total / 162) + 1
  {
  }

  /** The count in terms of the length `L` of the joined text: at most 2 * floor((L + 1) / 162) + 1
      and, when every word fits, at least (L + 1) / 161 rounded up. */
  lemma SegmentBounds(words: seq<string>, k: nat)
    requires words != [] && Optimal(words, 0, k)
    ensures k <= 2 * ((|Joined(words, 0, |words|)| + 1) / 162) + 1
    ensures (forall j | 0 <= j < |words| :: |words[j]| <= MAX_SEGMENT_CHARS) ==> |Joined(words, 0, |words|)| + 1 <= 161 * k
  {
    OptimalIsGreedy(words, k);
    hide Optimal, SegmentOk;
    WeightOfText(words, 0, |words|);
    GreedyIsHalfFull(words, 1, |words[0]|);
    OpensFirst(words);
    hide Joined, Greedy, Weight, GreedySegments;
    HalfOf(|Joined(words, 0, |words|)| + 1, k);
    if forall j | 0 <= j < |words| :: |words[j]| <= MAX_SEGMENT_CHARS {
      SegmentsHoldAll(words, 0, MAX_SEGMENT_CHARS);
    }
  }

  /** What the method answers for such a text is about its words as they are written; for two words,
      one segment exactly if they and the space between them fit 160 characters. */
  lemma TextOfWords(words: seq<string>, k: nat)
    requires Printing(words) && Optimal(Words(Joined(words, 0, |words|)), 0, k)
    ensures Optimal(words, 0, k)
    ensures |words| == 1 ==> k == 1
    ensures |words| == 2 ==> k == if |words[0]| + 1 + |words[1]| <= 160 then 1 else 2
  {
    SplitJoinsPrinting(words);
    OptimalIsGreedy(words, k);
    hide Optimal, Words, Joined;
    if |words| <= 2 { OpensFirst(words); }
  }
}
