/** The segmentation policy of FileUploadHandler.parse_file, as values.

    The loop keeps an accumulator: every kept element is appended to it followed
    by a newline, and before that, whenever the accumulator's length plus the
    element's length plus one exceeds the chunk size, the stripped accumulator is
    emitted as a chunk and the accumulator is emptied. There is no "accumulator
    is non-empty" guard, so the first flush can emit an empty chunk.

    Here the accumulator is described by the group of elements it holds:
    `Pack` replays the loop over the kept elements and `Groups` lists the
    groups in emission order; a chunk's text is its group joined by newlines. */
module Chunking {
  import opened Base

  /** Python's str.isspace() for a single character. */
  predicate IsSpace(c: char)
    ensures c == ' ' || c == '\t' || c == '\n' || c == '\r' ==> IsSpace(c)
    ensures IsSpace(c) ==> !('0' <= c <= '9' || 'a' <= c <= 'z' || 'A' <= c <= 'Z')
  {
    || ('\t' <= c <= '\r')
    || ('\U{001C}' <= c <= ' ')
    || c == '\U{0085}' || c == '\U{00A0}' || c == '\U{1680}'
    || ('\U{2000}' <= c <= '\U{200A}')
    || c == '\U{2028}' || c == '\U{2029}' || c == '\U{202F}'
    || c == '\U{205F}' || c == '\U{3000}'
  }

  /** A non-empty string with no whitespace at either end. */
  predicate Clean(s: string) {
    s != [] && !IsSpace(s[0]) && !IsSpace(s[|s| - 1])
  }

  predicate AllClean(xs: seq<string>) {
    forall i :: 0 <= i < |xs| ==> Clean(xs[i])
  }

  /** s.rstrip() */
  function TrimEnd(s: string): string
    decreases |s|
  {
    if s != [] && IsSpace(s[|s| - 1]) then TrimEnd(s[..|s| - 1]) else s
  }

  /** s.lstrip() */
  function TrimStart(s: string): string
    decreases |s|
  {
    if s != [] && IsSpace(s[0]) then TrimStart(s[1..]) else s
  }

  /** rstrip keeps a prefix, drops only whitespace, and leaves no whitespace
      at the end. */
  lemma {:induction false} TrimEndSpec(s: string)
    ensures var r := TrimEnd(s);
            && |r| <= |s| && r == s[..|r|]
            && (forall k :: |r| <= k < |s| ==> IsSpace(s[k]))
            && (r == [] || !IsSpace(r[|r| - 1]))
    decreases |s|
  {
    if s != [] && IsSpace(s[|s| - 1]) {
      var s' := s[..|s| - 1];
      TrimEndSpec(s');
      var r := TrimEnd(s');
      assert s'[..|r|] == s[..|r|];
    }
  }

  /** lstrip keeps a suffix, drops only whitespace, and leaves no whitespace
      at the start. */
  lemma {:induction false} TrimStartSpec(s: string)
    ensures var r := TrimStart(s);
            && |r| <= |s| && r == s[|s| - |r|..]
            && (forall k :: 0 <= k < |s| - |r| ==> IsSpace(s[k]))
            && (r == [] || !IsSpace(r[0]))
    decreases |s|
  {
    if s != [] && IsSpace(s[0]) {
      var s' := s[1..];
      TrimStartSpec(s');
      var r := TrimStart(s');
      assert s'[|s'| - |r|..] == s[|s| - |r|..];
      forall k | 0 <= k < |s| - |r|
        ensures IsSpace(s[k])
      {
        if k > 0 {
          assert s[k] == s'[k - 1];
        }
      }
    }
  }

  /** `r` is the slice of `s` starting at `i`, and everything outside that
      slice is whitespace. */
  ghost predicate InnerSlice(s: string, r: string, i: int) {
    && 0 <= i <= |s| - |r| && r == s[i..i + |r|]
    && (forall k :: 0 <= k < i ==> IsSpace(s[k]))
    && (forall k :: i + |r| <= k < |s| ==> IsSpace(s[k]))
  }

  /** Python's str.strip() with no argument. */
  function Strip(s: string): (r: string)
    ensures r == [] || Clean(r)
  {
    var e := TrimEnd(s);
    TrimEndSpec(s);
    TrimStartSpec(e);
    assert TrimStart(e) == [] || TrimStart(e)[|TrimStart(e)| - 1] == e[|e| - 1];
    TrimStart(e)
  }

  /** Stripping keeps the slice of `s` left when the whitespace at both ends
      is removed. */
  lemma {:induction false} StripIsInnerSlice(s: string)
    ensures exists i :: InnerSlice(s, Strip(s), i)
  {
    var e := TrimEnd(s);
    var r := TrimStart(e);
    TrimEndSpec(s);
    TrimStartSpec(e);
    assert Strip(s) == r;
    assert r == s[|e| - |r|..|e| - |r| + |r|];
    assert InnerSlice(s, r, |e| - |r|);
  }

  lemma {:induction false} StripOfClean(s: string)
    requires Clean(s)
    ensures Strip(s) == s
  {
    assert TrimEnd(s) == s;
    assert TrimStart(s) == s;
  }

  /** The text elements that the loop keeps: each element stripped, the blank
      ones dropped, in input order. */
  function Kept(elements: seq<string>): (kept: seq<string>)
    ensures |kept| <= |elements|
    ensures AllClean(kept)
    decreases |elements|
  {
    if elements == [] then []
    else
      var t := Strip(elements[|elements| - 1]);
      Kept(elements[..|elements| - 1]) + (if t == [] then [] else [t])
  }

  /** Keeping distributes over concatenation: every element contributes its
      stripped text (or nothing, when blank) exactly once and in place. */
  lemma {:induction false} KeptAppend(a: seq<string>, b: seq<string>)
    ensures Kept(a + b) == Kept(a) + Kept(b)
    decreases |b|
  {
    if b == [] {
      assert a + b == a;
    } else {
      var b' := b[..|b| - 1];
      assert (a + b)[..|a + b| - 1] == a + b';
      assert (a + b)[|a + b| - 1] == b[|b| - 1];
      KeptAppend(a, b');
    }
  }

  /** The accumulator holding group `g`: every element followed by a newline. */
  function Accumulated(g: seq<string>): string
    decreases |g|
  {
    if g == [] then "" else Accumulated(g[..|g| - 1]) + g[|g| - 1] + "\n"
  }

  /** "\n".join(g) */
  function Join(g: seq<string>): string
    decreases |g|
  {
    if g == [] then ""
    else if |g| == 1 then g[0]
    else Join(g[..|g| - 1]) + "\n" + g[|g| - 1]
  }

  lemma {:induction false} AccumulatedIsJoinedLine(g: seq<string>)
    requires g != []
    ensures Accumulated(g) == Join(g) + "\n"
    decreases |g|
  {
    if |g| > 1 {
      AccumulatedIsJoinedLine(g[..|g| - 1]);
    }
  }

  lemma {:induction false} JoinClean(g: seq<string>)
    requires g != []
    requires forall i :: 0 <= i < |g| ==> Clean(g[i])
    ensures Clean(Join(g))
    ensures g[0] <= Join(g)
    decreases |g|
  {
    if |g| > 1 {
      JoinClean(g[..|g| - 1]);
      var j := Join(g[..|g| - 1]);
      assert Join(g) == j + "\n" + g[|g| - 1];
      assert Join(g)[..|j|] == j;
    }
  }

  lemma {:induction false} JoinNonEmpty(g: seq<string>)
    requires forall i :: 0 <= i < |g| ==> g[i] != ""
    ensures Join(g) == "" <==> g == []
    decreases |g|
  {
    if |g| > 1 {
      assert |Join(g)| >= 1;
    }
  }

  lemma {:induction false} JoinAppend(a: seq<string>, b: seq<string>)
    requires a != [] && b != []
    ensures Join(a + b) == Join(a) + "\n" + Join(b)
    decreases |b|
  {
    var b' := b[..|b| - 1];
    assert (a + b)[..|a + b| - 1] == a + b';
    if b' != [] {
      JoinAppend(a, b');
    }
  }

  lemma {:induction false} StripLine(j: string)
    requires Clean(j)
    ensures Strip(j + "\n") == j
  {
    var a := j + "\n";
    assert a[|a| - 1] == '\n';
    assert a[..|a| - 1] == j;
    assert TrimEnd(a) == TrimEnd(j);
    assert TrimEnd(j) == j;
    assert TrimStart(j) == j;
  }

  /** What stripping the accumulator yields: its group joined by newlines. */
  lemma {:induction false} StripAccumulated(g: seq<string>)
    requires forall i :: 0 <= i < |g| ==> Clean(g[i])
    ensures Strip(Accumulated(g)) == Join(g)
  {
    if g != [] {
      AccumulatedIsJoinedLine(g);
      JoinClean(g);
      StripLine(Join(g));
    }
  }

  /** The loop's state after some kept elements: the groups already emitted
      and the group in the accumulator. */
  datatype Packing = Packing(closed: seq<seq<string>>, open: seq<string>)

  function Pack(kept: seq<string>, size: int): (p: Packing)
    ensures |p.closed| <= |kept| && |p.open| <= |kept|
    ensures kept != [] ==> p.open != []
    decreases |kept|
  {
    if kept == [] then Packing([], [])
    else
      var p := Pack(kept[..|kept| - 1], size);
      var e := kept[|kept| - 1];
      if |Accumulated(p.open)| + |e| + 1 > size then Packing(p.closed + [p.open], [e])
      else Packing(p.closed, p.open + [e])
  }

  /** The groups in emission order, the final one included when the
      accumulator still holds something. */
  function Groups(kept: seq<string>, size: int): (gs: seq<seq<string>>)
    ensures |gs| <= |kept| + 1
    ensures gs == [] <==> kept == []
  {
    var p := Pack(kept, size);
    if p.open == [] then p.closed else p.closed + [p.open]
  }

  function JoinEach(gs: seq<seq<string>>): seq<string> {
    seq(|gs|, i requires 0 <= i < |gs| => Join(gs[i]))
  }

  /** The chunk texts, in the order chunk_1, chunk_2, ... */
  function ChunkTexts(kept: seq<string>, size: int): (ts: seq<string>)
    ensures |ts| <= |kept| + 1
    ensures ts == [] <==> kept == []
  {
    JoinEach(Groups(kept, size))
  }

  function Flatten(gs: seq<seq<string>>): seq<string>
    decreases |gs|
  {
    if gs == [] then [] else Flatten(gs[..|gs| - 1]) + gs[|gs| - 1]
  }

  lemma {:induction false} FlattenSnoc(gs: seq<seq<string>>, g: seq<string>)
    ensures Flatten(gs + [g]) == Flatten(gs) + g
  {
    assert (gs + [g])[..|gs|] == gs;
  }

  lemma {:induction false} PackPartition(kept: seq<string>, size: int)
    ensures Flatten(Pack(kept, size).closed) + Pack(kept, size).open == kept
    decreases |kept|
  {
    if kept != [] {
      var k, e := kept[..|kept| - 1], kept[|kept| - 1];
      assert kept == k + [e];
      PackPartition(k, size);
      PackPartitionStep(k, e, size);
    }
  }

  lemma {:induction false} PackPartitionStep(k: seq<string>, e: string, size: int)
    requires Flatten(Pack(k, size).closed) + Pack(k, size).open == k
    ensures Flatten(Pack(k + [e], size).closed) + Pack(k + [e], size).open == k + [e]
  {
    var p := Pack(k, size);
    var q := Pack(k + [e], size);
    if |Accumulated(p.open)| + |e| + 1 > size {
      PackFlush(k, e, size);
      assert q == Packing(p.closed + [p.open], [e]);
      FlattenSnoc(p.closed, p.open);
      assert Flatten(q.closed) == Flatten(p.closed) + p.open;
      assert Flatten(q.closed) + q.open == (Flatten(p.closed) + p.open) + [e];
    } else {
      PackMerge(k, e, size);
      assert q == Packing(p.closed, p.open + [e]);
      assert Flatten(q.closed) + q.open == (Flatten(p.closed) + p.open) + [e];
    }
  }

  /** The chunks partition the kept elements: concatenating the groups gives
      back every kept element, once, in order, none of them split. */
  lemma {:induction false} GroupsPartition(kept: seq<string>, size: int)
    ensures Flatten(Groups(kept, size)) == kept
  {
    var p := Pack(kept, size);
    PackPartition(kept, size);
    FlattenSnoc(p.closed, p.open);
  }

  lemma {:induction false} PackBound(kept: seq<string>, size: int)
    ensures var p := Pack(kept, size);
            && (|p.open| >= 2 ==> |Accumulated(p.open)| <= size)
            && (forall i :: 0 <= i < |p.closed| && |p.closed[i]| >= 2 ==> |Accumulated(p.closed[i])| <= size)
    decreases |kept|
  {
    if kept != [] {
      var k := kept[..|kept| - 1];
      PackBound(k, size);
      var p := Pack(k, size);
      var e := kept[|kept| - 1];
      if |Accumulated(p.open)| + |e| + 1 <= size {
        assert (p.open + [e])[..|p.open|] == p.open;
      }
    }
  }

  /** A chunk built from two or more elements is shorter than the chunk size;
      only a chunk holding a single element can reach or pass it. */
  lemma {:induction false} ChunkSizeBound(kept: seq<string>, size: int, i: nat)
    requires i < |Groups(kept, size)|
    requires |Groups(kept, size)[i]| >= 2
    ensures |ChunkTexts(kept, size)[i]| < size
  {
    var p := Pack(kept, size);
    var gs := Groups(kept, size);
    PackBound(kept, size);
    if i < |p.closed| {
      assert gs[i] == p.closed[i];
    } else {
      assert gs[i] == p.open;
    }
    AccumulatedIsJoinedLine(gs[i]);
    assert ChunkTexts(kept, size)[i] == Join(gs[i]);
  }

  lemma {:induction false} PackShape(kept: seq<string>, size: int)
    requires kept != []
    ensures var p := Pack(kept, size);
            && p.open != []
            && (forall i :: 1 <= i < |p.closed| ==> p.closed[i] != [])
            && ((|p.closed| > 0 && p.closed[0] == []) <==> |kept[0]| >= size)
            && (|p.closed| > 0 && p.closed[0] == [] ==>
                  (if |p.closed| >= 2 then p.closed[1][0] else p.open[0]) == kept[0])
    decreases |kept|
  {
    var k := kept[..|kept| - 1];
    if k != [] {
      PackShape(k, size);
      assert k[0] == kept[0];
      var p := Pack(k, size);
      var e := kept[|kept| - 1];
      if |Accumulated(p.open)| + |e| + 1 > size {
        assert (p.closed + [p.open])[..|p.closed|] == p.closed;
      }
    }
  }

  lemma {:induction false} GroupsShape(kept: seq<string>, size: int)
    requires kept != []
    ensures var gs := Groups(kept, size);
            && gs != []
            && (gs[0] == [] <==> |kept[0]| >= size)
            && (forall i :: 1 <= i < |gs| ==> gs[i] != [])
            && (gs[0] == [] ==> |gs| >= 2 && gs[1][0] == kept[0])
  {
    PackShape(kept, size);
  }

  /** A group's text is empty exactly when the group is, and otherwise is
      stripped already and starts with the group's first element. */
  lemma {:induction false} GroupTexts(kept: seq<string>, size: int)
    requires AllClean(kept)
    ensures var gs := Groups(kept, size);
            forall i :: 0 <= i < |gs| ==>
              && (gs[i] == [] <==> Join(gs[i]) == "")
              && (gs[i] != [] ==> Clean(Join(gs[i])) && gs[i][0] <= Join(gs[i]))
  {
    var gs := Groups(kept, size);
    GroupsPartition(kept, size);
    forall i | 0 <= i < |gs|
      ensures gs[i] == [] <==> Join(gs[i]) == ""
      ensures gs[i] != [] ==> Clean(Join(gs[i])) && gs[i][0] <= Join(gs[i])
    {
      GroupCleanAt(gs, i);
      if gs[i] != [] {
        JoinClean(gs[i]);
      }
    }
  }

  /** The empty-chunk quirk: chunk_1 is empty exactly when the first kept
      element is at least as long as the chunk size; that element then starts
      chunk_2, and no other chunk is ever empty. */
  lemma {:induction false} FirstChunkEmpty(kept: seq<string>, size: int)
    requires kept != []
    requires AllClean(kept)
    ensures var ts := ChunkTexts(kept, size);
            && ts != []
            && (ts[0] == "" <==> |kept[0]| >= size)
            && (forall i :: 1 <= i < |ts| ==> ts[i] != "")
            && (ts[0] == "" ==> |ts| >= 2 && kept[0] <= ts[1])
  {
    GroupsShape(kept, size);
    GroupTexts(kept, size);
  }

  /** Every element of every group is one of the flattened elements. */
  lemma {:induction false} GroupCleanAt(gs: seq<seq<string>>, i: nat)
    requires i < |gs|
    requires forall k :: 0 <= k < |Flatten(gs)| ==> Clean(Flatten(gs)[k])
    ensures forall k :: 0 <= k < |gs[i]| ==> Clean(gs[i][k])
    decreases |gs|
  {
    var init := gs[..|gs| - 1];
    FlattenSnoc(init, gs[|gs| - 1]);
    assert gs == init + [gs[|gs| - 1]];
    if i < |gs| - 1 {
      assert forall k :: 0 <= k < |Flatten(init)| ==> Flatten(init)[k] == Flatten(gs)[k];
      GroupCleanAt(init, i);
    } else {
      assert forall k :: 0 <= k < |gs[i]| ==> gs[i][k] == Flatten(gs)[|Flatten(init)| + k];
    }
  }

  /** Every chunk text is either empty or stripped already. */
  lemma {:induction false} ChunkTextsClean(kept: seq<string>, size: int)
    requires AllClean(kept)
    ensures forall i :: 0 <= i < |ChunkTexts(kept, size)| ==>
              ChunkTexts(kept, size)[i] == "" || Clean(ChunkTexts(kept, size)[i])
  {
    GroupTexts(kept, size);
  }

  /** The group in the accumulator is made of kept elements. */
  lemma {:induction false} OpenClean(kept: seq<string>, size: int)
    requires AllClean(kept)
    ensures AllClean(Pack(kept, size).open)
  {
    PackPartition(kept, size);
    var p := Pack(kept, size);
    var n := |Flatten(p.closed)|;
    assert forall k :: 0 <= k < |p.open| ==> p.open[k] == kept[n + k];
  }

  lemma {:induction false} ClosedMonotone(kept: seq<string>, rest: seq<string>, size: int)
    ensures Pack(kept, size).closed <= Pack(kept + rest, size).closed
    decreases |rest|
  {
    if rest == [] {
      assert kept + rest == kept;
    } else {
      var rest' := rest[..|rest| - 1];
      ClosedMonotone(kept, rest', size);
      assert (kept + rest)[..|kept + rest| - 1] == kept + rest';
    }
  }

  /** Chunks once emitted stay emitted: the groups closed after some kept
      elements begin the groups of any longer run. */
  lemma {:induction false} ClosedIsPrefix(kept: seq<string>, rest: seq<string>, size: int)
    ensures Pack(kept, size).closed <= Groups(kept + rest, size)
  {
    ClosedMonotone(kept, rest, size);
  }

  /** One step of the loop when the element fits: it joins the accumulator. */
  lemma {:induction false} PackMerge(kept: seq<string>, e: string, size: int)
    requires |Accumulated(Pack(kept, size).open)| + |e| + 1 <= size
    ensures var p := Pack(kept, size);
            && Pack(kept + [e], size) == Packing(p.closed, p.open + [e])
            && Accumulated(p.open + [e]) == Accumulated(p.open) + e + "\n"
  {
    var p := Pack(kept, size);
    assert (kept + [e])[..|kept|] == kept;
    assert (p.open + [e])[..|p.open|] == p.open;
  }

  /** One step of the loop when the element does not fit: the accumulator is
      flushed and the element starts the next one. */
  lemma {:induction false} PackFlush(kept: seq<string>, e: string, size: int)
    requires |Accumulated(Pack(kept, size).open)| + |e| + 1 > size
    ensures var p := Pack(kept, size);
            && Pack(kept + [e], size) == Packing(p.closed + [p.open], [e])
            && Accumulated([e]) == e + "\n"
  {
    assert (kept + [e])[..|kept|] == kept;
  }

  /** When an element forces a flush, the group flushed is a chunk of the
      final result, at the position it was emitted in. */
  lemma {:induction false} FlushedGroupIsChunk(kept: seq<string>, e: string, rest: seq<string>, size: int)
    requires |Accumulated(Pack(kept, size).open)| + |e| + 1 > size
    ensures var p := Pack(kept, size);
            && |p.closed| < |Groups(kept + [e] + rest, size)|
            && Groups(kept + [e] + rest, size)[|p.closed|] == p.open
  {
    var p := Pack(kept, size);
    assert (kept + [e])[..|kept|] == kept;
    assert Pack(kept + [e], size).closed == p.closed + [p.open];
    ClosedIsPrefix(kept + [e], rest, size);
  }

  /** No kept elements, no chunks; some kept element, at least one chunk. */
  lemma {:induction false} NoChunksIffNothingKept(kept: seq<string>, size: int)
    ensures ChunkTexts(kept, size) == [] <==> kept == []
  {
    if kept != [] {
      PackShape(kept, size);
    }
  }

  /** The non-empty entries of a list of texts, in order. */
  function NonEmpty(ts: seq<string>): (r: seq<string>)
    ensures forall i :: 0 <= i < |r| ==> r[i] != ""
    decreases |ts|
  {
    if ts == [] then []
    else NonEmpty(ts[..|ts| - 1]) + (if ts[|ts| - 1] == "" then [] else [ts[|ts| - 1]])
  }

  lemma {:induction false} NonEmptySnoc(ts: seq<string>, t: string)
    ensures NonEmpty(ts + [t]) == NonEmpty(ts) + (if t == "" then [] else [t])
  {
    assert (ts + [t])[..|ts|] == ts;
  }

  lemma {:induction false} JoinEachSnoc(gs: seq<seq<string>>, g: seq<string>)
    ensures JoinEach(gs + [g]) == JoinEach(gs) + [Join(g)]
  {
  }

  /** Joining a list of texts and one more. */
  lemma {:induction false} JoinSnoc(a: seq<string>, t: string)
    ensures Join(a + [t]) == if a == [] then t else Join(a) + "\n" + t
  {
    if a != [] {
      assert (a + [t])[..|a|] == a;
    }
  }

  lemma {:induction false} JoinFlatten(gs: seq<seq<string>>)
    requires forall k :: 0 <= k < |Flatten(gs)| ==> Flatten(gs)[k] != ""
    ensures Join(NonEmpty(JoinEach(gs))) == Join(Flatten(gs))
    decreases |gs|
  {
    if gs != [] {
      var init := gs[..|gs| - 1];
      var g := gs[|gs| - 1];
      assert gs == init + [g];
      var a := NonEmpty(JoinEach(init));
      var b := Flatten(init);
      FlattenSnoc(init, g);
      assert forall k :: 0 <= k < |b| ==> b[k] == Flatten(gs)[k];
      assert forall k :: 0 <= k < |g| ==> g[k] == Flatten(gs)[|b| + k];
      JoinFlatten(init);
      JoinEachSnoc(init, g);
      NonEmptySnoc(JoinEach(init), Join(g));
      JoinNonEmpty(g);
      JoinNonEmpty(a);
      JoinNonEmpty(b);
      if g == [] {
        assert Join(g) == "";
        assert NonEmpty(JoinEach(gs)) == a;
        assert Flatten(gs) == b;
      } else {
        JoinSnoc(a, Join(g));
        if b == [] {
          assert b + g == g;
        } else {
          JoinAppend(b, g);
        }
      }
    }
  }

  /** Joining the non-empty chunk texts with newlines gives the kept elements
      joined with newlines: nothing is lost, duplicated or reordered. */
  lemma {:induction false} ChunksJoinToKept(kept: seq<string>, size: int)
    requires AllClean(kept)
    ensures Join(NonEmpty(ChunkTexts(kept, size))) == Join(kept)
  {
    GroupsPartition(kept, size);
    JoinFlatten(Groups(kept, size));
  }

  /** The key under which the n-th chunk is stored. */
  function ChunkKey(n: nat): string {
    "chunk_" + Decimal(n)
  }

  /** Chunk keys never collide, so no chunk overwrites another in the dict. */
  lemma {:induction false} ChunkKeysDistinct(m: nat, n: nat)
    requires m != n
    ensures ChunkKey(m) != ChunkKey(n)
  {
    if ChunkKey(m) == ChunkKey(n) {
      PrefixedDecimalInjective("chunk_", m, n);
    }
  }
}
