/**
 * Splitting a message into transport-sized chunks (`split_message_chunks`
 * in src/bot.rs). Lengths count characters (Unicode scalar values), not
 * bytes; a string is a `seq<char>`.
 */
module Chunking {

  /** The concatenation of a sequence of sequences, in order. */
  function Flatten<T>(ss: seq<seq<T>>): seq<T>
    decreases |ss|
  {
    if |ss| == 0 then [] else ss[0] + Flatten(ss[1..])
  }

  lemma {:induction false} FlattenAppend<T>(a: seq<seq<T>>, b: seq<seq<T>>)
    ensures Flatten(a + b) == Flatten(a) + Flatten(b)
    decreases |a|
  {
    if |a| == 0 {
      assert a + b == b;
    } else {
      assert (a + b)[1..] == a[1..] + b;
      FlattenAppend(a[1..], b);
    }
  }

  lemma FlattenSingleton<T>(s: seq<T>)
    ensures Flatten([s]) == s
  {
  }

  /** Appending one piece at the end appends it to the concatenation. */
  lemma FlattenPush<T>(a: seq<seq<T>>, s: seq<T>)
    ensures Flatten(a + [s]) == Flatten(a) + s
  {
    FlattenAppend(a, [s]);
    FlattenSingleton(s);
  }

  /** A concatenation of non-empty pieces is empty only when there are no pieces. */
  lemma FlattenNonEmpty<T>(ss: seq<seq<T>>)
    requires forall j :: 0 <= j < |ss| ==> |ss[j]| > 0
    ensures Flatten(ss) == [] <==> ss == []
  {
  }

  // ---------------------------------------------------------------------
  // Lines, as `str::split_inclusive('\n')` yields them
  // ---------------------------------------------------------------------

  /** A line: non-empty, and a newline can only be its last character. */
  ghost predicate IsLine(s: seq<char>)
  {
    |s| > 0 && forall i :: 0 <= i < |s| - 1 ==> s[i] != '\n'
  }

  predicate EndsWithNewline(s: seq<char>)
  {
    |s| > 0 && s[|s| - 1] == '\n'
  }

  /**
   * Length of the first line of `s`, its terminating newline included:
   * the position just after the first newline, or all of `s` when it
   * holds none.
   */
  function LineLen(s: seq<char>): (n: nat)
    ensures n <= |s|
    ensures |s| > 0 ==> n > 0
    ensures forall i :: 0 <= i < n - 1 ==> s[i] != '\n'
    ensures n == |s| || s[n - 1] == '\n'
  {
    if |s| == 0 then 0
    else if s[0] == '\n' then 1
    else 1 + LineLen(s[1..])
  }

  /**
   * The pieces of `s` between newlines, each keeping its newline: they
   * concatenate back to `s`, each one is a line, and every piece but the
   * last ends with a newline. The empty string has no pieces.
   */
  function Lines(s: seq<char>): (ls: seq<seq<char>>)
    ensures Flatten(ls) == s
    ensures ls == [] <==> s == []
    ensures forall j :: 0 <= j < |ls| ==> IsLine(ls[j])
    ensures forall j :: 0 <= j < |ls| - 1 ==> EndsWithNewline(ls[j])
    decreases |s|
  {
    if |s| == 0 then []
    else
      var n := LineLen(s);
      var rest := Lines(s[n..]);
      assert ([s[..n]] + rest)[1..] == rest;
      assert s[..n] + s[n..] == s;
      [s[..n]] + rest
  }

  /** A string that is a single line is its own only piece. */
  lemma SingleLine(s: seq<char>)
    requires IsLine(s)
    ensures Lines(s) == [s]
  {
    var n := LineLen(s);
    assert n == |s|;
    assert s[..n] == s;
    assert s[n..] == [];
  }

  // ---------------------------------------------------------------------
  // The packing loop
  // ---------------------------------------------------------------------

  /** The loop state: the chunks emitted so far and the chunk being filled. */
  datatype Packer = Packer(chunks: seq<seq<char>>, current: seq<char>)

  /**
   * The character loop that hard-splits an over-long line: before each
   * character, a buffer that already holds `maxLen` characters is emitted
   * as a chunk and restarted. Returns the chunks and the final buffer.
   */
  function HardSplit(seg: seq<char>, maxLen: nat, chunks: seq<seq<char>>, buffer: seq<char>)
    : (r: (seq<seq<char>>, seq<char>))
    ensures Flatten(r.0) + r.1 == Flatten(chunks) + buffer + seg
    decreases |seg|
  {
    if |seg| == 0 then (chunks, buffer)
    else
      assert [seg[0]] + seg[1..] == seg;
      if |buffer| == maxLen then
        FlattenPush(chunks, buffer);
        HardSplit(seg[1..], maxLen, chunks + [buffer], [seg[0]])
      else
        HardSplit(seg[1..], maxLen, chunks, buffer + [seg[0]])
  }

  /**
   * One iteration of the outer loop, for one line `seg`: append it when it
   * fits; otherwise emit the current chunk (when non-empty) and start a new
   * one with the line, hard-splitting the line when it alone is too long.
   * The state keeps what has been consumed: chunks followed by the current
   * chunk spell the input read so far.
   */
  function PackLine(p: Packer, seg: seq<char>, maxLen: nat): (q: Packer)
    ensures Flatten(q.chunks) + q.current == Flatten(p.chunks) + p.current + seg
  {
    if |p.current| + |seg| <= maxLen then
      Packer(p.chunks, p.current + seg)
    else
      FlattenPush(p.chunks, p.current);
      var flushed := if p.current != [] then p.chunks + [p.current] else p.chunks;
      if |seg| <= maxLen then
        Packer(flushed, seg)
      else
        var split := HardSplit(seg, maxLen, flushed, []);
        // A non-empty final buffer becomes the current chunk; an empty one
        // leaves the current chunk as it was, which is empty here.
        Packer(split.0, split.1)
  }

  /** The outer loop over all lines. */
  function PackLines(lines: seq<seq<char>>, p: Packer, maxLen: nat): (q: Packer)
    ensures Flatten(q.chunks) + q.current == Flatten(p.chunks) + p.current + Flatten(lines)
    decreases |lines|
  {
    if |lines| == 0 then p
    else
      assert Flatten(lines) == lines[0] + Flatten(lines[1..]);
      PackLines(lines[1..], PackLine(p, lines[0], maxLen), maxLen)
  }

  /**
   * `split_message_chunks`: the chunks of `message` for a limit of
   * `maxLen` characters. In order they spell the message exactly; the empty
   * message has no chunks; for a positive limit every chunk is non-empty
   * and at most `maxLen` long.
   */
  function SplitMessageChunks(message: seq<char>, maxLen: nat): (chunks: seq<seq<char>>)
    ensures Flatten(chunks) == message
    ensures message == [] ==> chunks == []
    ensures 1 <= maxLen ==> forall k :: 0 <= k < |chunks| ==> 0 < |chunks[k]| <= maxLen
  {
    if |message| == 0 then []
    else
      var p := PackLines(Lines(message), Packer([], []), maxLen);
      FlattenPush(p.chunks, p.current);
      assert Flatten(p.chunks) + [] == Flatten(p.chunks);
      PackLinesWellSized(Lines(message), Packer([], []), maxLen);
      Finish(p)
  }

  /** After the loop: the emitted chunks, and the current chunk when it is non-empty. */
  function Finish(p: Packer): seq<seq<char>>
  {
    if p.current != [] then p.chunks + [p.current] else p.chunks
  }

  // ---------------------------------------------------------------------
  // Chunk sizes
  // ---------------------------------------------------------------------

  /** Every emitted chunk is non-empty and within the limit, and so is the current one. */
  ghost predicate WellSized(p: Packer, maxLen: nat)
  {
    && (forall k :: 0 <= k < |p.chunks| ==> 0 < |p.chunks[k]| <= maxLen)
    && |p.current| <= maxLen
  }

  /**
   * The hard split with a positive limit keeps the chunks it was given and
   * adds chunks of exactly `maxLen` characters; the final buffer is within
   * the limit and is non-empty once a character was read. The characters
   * read fill the new chunks and the buffer.
   */
  lemma {:induction false} HardSplitPieces(seg: seq<char>, maxLen: nat, chunks: seq<seq<char>>, buffer: seq<char>)
    requires 1 <= maxLen && |buffer| <= maxLen
    ensures var r := HardSplit(seg, maxLen, chunks, buffer);
      && |chunks| <= |r.0|
      && r.0[..|chunks|] == chunks
      && (forall k :: |chunks| <= k < |r.0| ==> |r.0[k]| == maxLen)
      && |r.1| <= maxLen
      && (|seg| > 0 ==> |r.1| > 0)
      && (|r.0| - |chunks|) * maxLen + |r.1| == |buffer| + |seg|
    decreases |seg|
  {
    if |seg| == 0 {
    } else if |buffer| == maxLen {
      var chunks' := chunks + [buffer];
      HardSplitPieces(seg[1..], maxLen, chunks', [seg[0]]);
      var r := HardSplit(seg[1..], maxLen, chunks', [seg[0]]);
      assert HardSplit(seg, maxLen, chunks, buffer) == r;
      assert r.0[..|chunks'|][..|chunks|] == r.0[..|chunks|];
      FlushCount(|r.0| - |chunks|, maxLen, |r.1|, |seg|);
    } else {
      var buffer' := buffer + [seg[0]];
      HardSplitPieces(seg[1..], maxLen, chunks, buffer');
      assert HardSplit(seg, maxLen, chunks, buffer) == HardSplit(seg[1..], maxLen, chunks, buffer');
      assert |buffer'| + |seg[1..]| == |buffer| + |seg|;
    }
  }

  /** One more full chunk of `d` characters adds `d` to the count. */
  lemma FlushCount(m: int, d: int, rest: int, n: int)
    requires (m - 1) * d + rest == n
    ensures m * d + rest == d + n
  {
  }

  lemma PackLineWellSized(p: Packer, seg: seq<char>, maxLen: nat)
    requires 1 <= maxLen && WellSized(p, maxLen)
    ensures WellSized(PackLine(p, seg, maxLen), maxLen)
  {
    if |p.current| + |seg| > maxLen {
      var flushed := if p.current != [] then p.chunks + [p.current] else p.chunks;
      if |seg| > maxLen {
        HardSplitPieces(seg, maxLen, flushed, []);
        var split := HardSplit(seg, maxLen, flushed, []);
        forall k | 0 <= k < |split.0|
          ensures 0 < |split.0[k]| <= maxLen
        {
          if k < |flushed| {
            assert split.0[k] == split.0[..|flushed|][k];
          }
        }
      }
    }
  }

  lemma {:induction false} PackLinesWellSized(lines: seq<seq<char>>, p: Packer, maxLen: nat)
    ensures 1 <= maxLen && WellSized(p, maxLen) ==> WellSized(PackLines(lines, p, maxLen), maxLen)
    decreases |lines|
  {
    if |lines| > 0 && 1 <= maxLen && WellSized(p, maxLen) {
      PackLineWellSized(p, lines[0], maxLen);
      PackLinesWellSized(lines[1..], PackLine(p, lines[0], maxLen), maxLen);
    }
  }

  // ---------------------------------------------------------------------
  // A single over-long line
  // ---------------------------------------------------------------------

  lemma MulAtLeast(k: int, d: int)
    requires 1 <= k && 0 <= d
    ensures k * d >= d
  {
  }

  /** Euclidean division is determined by quotient and remainder. */
  lemma DivUnique(n: int, d: int, q: int, r: int)
    requires 0 < d && 0 <= r < d && n == q * d + r
    ensures n / d == q
  {
    var q' := n / d;
    var r' := n % d;
    assert n == q' * d + r';
    if q' < q {
      MulAtLeast(q - q', d);
    } else if q' > q {
      MulAtLeast(q' - q, d);
    }
  }

  /**
   * A message that is one line longer than the limit is cut into
   * ceil(L / maxLen) chunks, every one but the last exactly `maxLen` long.
   */
  lemma SingleLongLine(message: seq<char>, maxLen: nat)
    requires 1 <= maxLen < |message|
    requires IsLine(message)
    ensures var chunks := SplitMessageChunks(message, maxLen);
      && |chunks| == (|message| + maxLen - 1) / maxLen
      && (forall k :: 0 <= k < |chunks| - 1 ==> |chunks[k]| == maxLen)
  {
    SingleLine(message);
    var split := HardSplit(message, maxLen, [], []);
    HardSplitPieces(message, maxLen, [], []);
    var p0 := Packer([], []);
    assert PackLine(p0, message, maxLen) == Packer(split.0, split.1);
    assert PackLines([message], p0, maxLen) == PackLines([], Packer(split.0, split.1), maxLen);
    var chunks := SplitMessageChunks(message, maxLen);
    assert chunks == split.0 + [split.1];
    DivUnique(|message| + maxLen - 1, maxLen, |split.0| + 1, |split.1| - 1);
  }

  // ---------------------------------------------------------------------
  // Greedy packing of whole lines
  // ---------------------------------------------------------------------

  /** Chunk `k` plus the first line of group `k + 1` would exceed `maxLen`. */
  ghost predicate ClosedByNextLine(chunks: seq<seq<char>>, groups: seq<seq<seq<char>>>, k: int, maxLen: nat)
  {
    && 0 <= k < |chunks|
    && k + 1 < |groups|
    && groups[k + 1] != []
    && |chunks[k]| + |groups[k + 1][0]| > maxLen
  }

  /**
   * `groups` (one per emitted chunk) and `open` (for the current chunk)
   * record which whole lines each chunk is made of, and every emitted
   * chunk could not take the first line of the chunk after it.
   */
  ghost predicate Grouped(p: Packer, groups: seq<seq<seq<char>>>, open: seq<seq<char>>, maxLen: nat)
  {
    && |groups| == |p.chunks|
    && (forall k :: 0 <= k < |groups| ==> groups[k] != [] && p.chunks[k] == Flatten(groups[k]))
    && p.current == Flatten(open)
    && (forall j :: 0 <= j < |open| ==> |open[j]| > 0)
    && (forall k :: 0 <= k < |groups| - 1 ==> ClosedByNextLine(p.chunks, groups, k, maxLen))
    && (|groups| > 0 ==> open != [] && |p.chunks[|groups| - 1]| + |open[0]| > maxLen)
  }

  /** One line that fits the limit keeps the grouping, extended by that line. */
  lemma PackLineGreedy(seg: seq<char>, p: Packer, groups: seq<seq<seq<char>>>, open: seq<seq<char>>, maxLen: nat)
    returns (groups': seq<seq<seq<char>>>, open': seq<seq<char>>)
    requires 0 < |seg| <= maxLen
    requires Grouped(p, groups, open, maxLen)
    ensures Grouped(PackLine(p, seg, maxLen), groups', open', maxLen)
    ensures Flatten(groups') + open' == Flatten(groups) + open + [seg]
  {
    if |p.current| + |seg| <= maxLen {
      groups', open' := groups, open + [seg];
      LineJoinsChunk(seg, p, groups, open, maxLen);
    } else {
      groups', open' := groups + [open], [seg];
      LineOpensChunk(seg, p, groups, open, maxLen);
    }
  }

  /** A line that fits in the current chunk joins its group. */
  lemma LineJoinsChunk(seg: seq<char>, p: Packer, groups: seq<seq<seq<char>>>, open: seq<seq<char>>, maxLen: nat)
    requires 0 < |seg| && |p.current| + |seg| <= maxLen
    requires Grouped(p, groups, open, maxLen)
    ensures Grouped(Packer(p.chunks, p.current + seg), groups, open + [seg], maxLen)
  {
    FlattenPush(open, seg);
    assert open != [] ==> (open + [seg])[0] == open[0];
  }

  /** A line that does not fit closes the current chunk's group and opens a new one. */
  lemma LineOpensChunk(seg: seq<char>, p: Packer, groups: seq<seq<seq<char>>>, open: seq<seq<char>>, maxLen: nat)
    requires 0 < |seg| <= maxLen < |p.current| + |seg|
    requires Grouped(p, groups, open, maxLen)
    ensures p.current != []
    ensures Grouped(Packer(p.chunks + [p.current], seg), groups + [open], [seg], maxLen)
    ensures Flatten(groups + [open]) + [seg] == Flatten(groups) + open + [seg]
  {
    FlattenNonEmpty(open);
    FlattenPush(groups, open);
    FlattenSingleton(seg);
    var q := Packer(p.chunks + [p.current], seg);
    var g := groups + [open];
    forall k | 0 <= k < |g|
      ensures g[k] != [] && q.chunks[k] == Flatten(g[k])
    {
    }
    forall k | 0 <= k < |g| - 1
      ensures ClosedByNextLine(q.chunks, g, k, maxLen)
    {
      if k < |groups| - 1 {
        assert ClosedByNextLine(p.chunks, groups, k, maxLen);
      }
    }
  }

  lemma {:induction false} PackLinesGreedy(lines: seq<seq<char>>, p: Packer, groups: seq<seq<seq<char>>>, open: seq<seq<char>>, maxLen: nat)
    returns (groups': seq<seq<seq<char>>>, open': seq<seq<char>>)
    requires forall j :: 0 <= j < |lines| ==> 0 < |lines[j]| <= maxLen
    requires Grouped(p, groups, open, maxLen)
    ensures Grouped(PackLines(lines, p, maxLen), groups', open', maxLen)
    ensures Flatten(groups') + open' == Flatten(groups) + open + lines
    decreases |lines|
  {
    if |lines| == 0 {
      groups', open' := groups, open;
    } else {
      var q := PackLine(p, lines[0], maxLen);
      var g, o := PackLineGreedy(lines[0], p, groups, open, maxLen);
      groups', open' := PackLinesGreedy(lines[1..], q, g, o, maxLen);
      assert PackLines(lines, p, maxLen) == PackLines(lines[1..], q, maxLen);
      ConsThenRest(Flatten(groups) + open, lines);
    }
  }

  /** Appending the head and then the tail of `ys` appends `ys`. */
  lemma ConsThenRest<T>(xs: seq<T>, ys: seq<T>)
    requires |ys| > 0
    ensures xs + [ys[0]] + ys[1..] == xs + ys
  {
  }

  /**
   * `chunks` are runs of consecutive whole lines: `groups[k]` are the lines
   * of chunk `k`, together the groups are `lines` in order, and each chunk
   * but the last could not take the first line of the chunk after it
   * without going past `maxLen`.
   */
  ghost predicate WholeLineRuns(chunks: seq<seq<char>>, groups: seq<seq<seq<char>>>, lines: seq<seq<char>>, maxLen: nat)
  {
    && |groups| == |chunks|
    && Flatten(groups) == lines
    && (forall k :: 0 <= k < |groups| ==> groups[k] != [] && chunks[k] == Flatten(groups[k]))
    && (forall k :: 0 <= k < |groups| - 1 ==> ClosedByNextLine(chunks, groups, k, maxLen))
  }

  /**
   * Greedy line packing: when every line, its newline included, fits in the
   * limit, no line is split, every chunk is a run of consecutive whole
   * lines, and a chunk is closed only when the next line does not fit.
   */
  lemma GreedyLinePacking(message: seq<char>, maxLen: nat) returns (groups: seq<seq<seq<char>>>)
    requires 1 <= maxLen
    requires forall j :: 0 <= j < |Lines(message)| ==> |Lines(message)[j]| <= maxLen
    ensures WholeLineRuns(SplitMessageChunks(message, maxLen), groups, Lines(message), maxLen)
  {
    var lines := Lines(message);
    if |message| == 0 {
      groups := [];
    } else {
      assert forall j :: 0 <= j < |lines| ==> 0 < |lines[j]| <= maxLen by {
        forall j | 0 <= j < |lines| ensures 0 < |lines[j]| { assert IsLine(lines[j]); }
      }
      groups := GreedyOnLines(lines, maxLen);
    }
  }

  /** The packing loop run over non-empty lines that each fit the limit. */
  lemma GreedyOnLines(lines: seq<seq<char>>, maxLen: nat) returns (groups: seq<seq<seq<char>>>)
    requires lines != []
    requires forall j :: 0 <= j < |lines| ==> 0 < |lines[j]| <= maxLen
    ensures WholeLineRuns(Finish(PackLines(lines, Packer([], []), maxLen)), groups, lines, maxLen)
  {
    var p0 := Packer([], []);
    assert Grouped(p0, [], [], maxLen);
    var g, o := PackLinesGreedy(lines, p0, [], [], maxLen);
    var p := PackLines(lines, p0, maxLen);
    groups := CloseLastGroup(p, g, o, lines, maxLen);
  }

  /** At the end of the loop the current chunk is non-empty and closes the last group. */
  lemma CloseLastGroup(p: Packer, g: seq<seq<seq<char>>>, o: seq<seq<char>>, lines: seq<seq<char>>, maxLen: nat)
    returns (groups: seq<seq<seq<char>>>)
    requires Grouped(p, g, o, maxLen)
    requires Flatten(g) + o == lines && lines != []
    ensures p.current != []
    ensures WholeLineRuns(p.chunks + [p.current], groups, lines, maxLen)
  {
    assert o != [];
    FlattenNonEmpty(o);
    groups := g + [o];
    FlattenPush(g, o);
    var chunks := p.chunks + [p.current];
    forall k | 0 <= k < |groups| - 1
      ensures ClosedByNextLine(chunks, groups, k, maxLen)
    {
      if k < |g| - 1 {
        assert ClosedByNextLine(p.chunks, g, k, maxLen);
      }
    }
  }
}
