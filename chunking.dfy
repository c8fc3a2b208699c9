/**
 * `semantic_chunks`: sentence parts (the result of splitting the text after
 * `.`, `!` or `?`) are accumulated into a buffer; as soon as the buffer holds
 * more than `max_tokens` whitespace-separated words it is emitted as one chunk,
 * joined with single spaces, and a new buffer starts. A non-empty leftover buffer
 * is emitted last.
 */
module Chunking {
  import opened Text

  /** `sum(len(x.split()) for x in buf)`. */
  function WordTotal(buf: seq<string>): nat {
    if buf == [] then 0 else WordTotal(buf[..|buf| - 1]) + WordCount(buf[|buf| - 1])
  }

  lemma WordTotalSnoc(buf: seq<string>, s: string)
    ensures WordTotal(buf + [s]) == WordTotal(buf) + WordCount(s)
  {
    assert (buf + [s])[..|buf|] == buf;
  }

  /** A prefix of a buffer never has more words than the buffer. */
  lemma {:induction false} WordTotalPrefix(buf: seq<string>, j: nat)
    requires j <= |buf|
    ensures WordTotal(buf[..j]) <= WordTotal(buf)
    decreases |buf|
  {
    if j < |buf| {
      var init := buf[..|buf| - 1];
      assert init[..j] == buf[..j];
      WordTotalPrefix(init, j);
      assert WordTotal(buf) == WordTotal(init) + WordCount(buf[|buf| - 1]);
    } else {
      assert buf[..j] == buf;
    }
  }

  /**
   * The groups of parts the loop emits, continuing from buffer `buf` over the
   * remaining `parts`.
   */
  function Groups(buf: seq<string>, parts: seq<string>, maxTokens: int): seq<seq<string>>
    decreases |parts|
  {
    if parts == [] then
      if buf == [] then [] else [buf]
    else
      var next := buf + [parts[0]];
      if WordTotal(next) > maxTokens then [next] + Groups([], parts[1..], maxTokens)
      else Groups(next, parts[1..], maxTokens)
  }

  function Flatten(groups: seq<seq<string>>): seq<string> {
    if groups == [] then [] else groups[0] + Flatten(groups[1..])
  }

  /** Each group joined with single spaces: the chunks. */
  function JoinEach(groups: seq<seq<string>>): (r: seq<string>)
    ensures |r| == |groups|
    ensures forall k | 0 <= k < |groups| :: r[k] == Join(" ", groups[k])
  {
    seq(|groups|, k requires 0 <= k < |groups| => Join(" ", groups[k]))
  }

  /** The chunks `semantic_chunks` returns for `parts`. */
  function Chunks(parts: seq<string>, maxTokens: int): seq<string> {
    JoinEach(Groups([], parts, maxTokens))
  }

  /**
   * The loop of `semantic_chunks` over the already split parts.
   */
  method SemanticChunks(parts: seq<string>, maxTokens: int) returns (out: seq<string>)
    ensures out == Chunks(parts, maxTokens)
  {
    var buf: seq<string> := [];
    out := [];
    ghost var emitted: seq<seq<string>> := [];
    var i := 0;
    while i < |parts|
      invariant 0 <= i <= |parts|
      invariant out == JoinEach(emitted)
      invariant emitted + Groups(buf, parts[i..], maxTokens) == Groups([], parts, maxTokens)
    {
      assert parts[i..][1..] == parts[i + 1..];
      buf := buf + [parts[i]];
      if WordTotal(buf) > maxTokens {
        emitted := emitted + [buf];
        out := out + [Join(" ", buf)];
        buf := [];
      }
      i := i + 1;
    }
    if buf != [] {
      emitted := emitted + [buf];
      out := out + [Join(" ", buf)];
    }
  }

  /** Nothing is lost or reordered: the groups concatenate to the buffer and the parts. */
  lemma {:induction false} GroupsFlatten(buf: seq<string>, parts: seq<string>, maxTokens: int)
    ensures Flatten(Groups(buf, parts, maxTokens)) == buf + parts
    decreases |parts|
  {
    if parts == [] {
      if buf != [] {
        assert Flatten([buf]) == buf + Flatten([]);
      }
    } else {
      var next := buf + [parts[0]];
      assert next + parts[1..] == buf + parts;
      GroupsFlatten(if WordTotal(next) > maxTokens then [] else next, parts[1..], maxTokens);
      if WordTotal(next) > maxTokens {
        assert ([next] + Groups([], parts[1..], maxTokens))[1..] == Groups([], parts[1..], maxTokens);
      }
    }
  }

  /**
   * Every group is non-empty; every group but the last has more than `maxTokens`
   * words, and every proper prefix of a group has at most `maxTokens` words (the
   * buffer is emitted as soon as it overflows, not later).
   */
  ghost predicate GreedyGroups(groups: seq<seq<string>>, maxTokens: int) {
    && (forall k | 0 <= k < |groups| :: groups[k] != [])
    && (forall k | 0 <= k < |groups| - 1 :: WordTotal(groups[k]) > maxTokens)
    && (forall k, j | 0 <= k < |groups| && 1 <= j < |groups[k]| :: WordTotal(groups[k][..j]) <= maxTokens)
  }

  lemma {:induction false} GroupsNonEmpty(buf: seq<string>, parts: seq<string>, maxTokens: int)
    ensures forall k | 0 <= k < |Groups(buf, parts, maxTokens)| :: Groups(buf, parts, maxTokens)[k] != []
    ensures Groups(buf, parts, maxTokens) == [] <==> buf + parts == []
    decreases |parts|
  {
    if parts != [] {
      var next := buf + [parts[0]];
      if WordTotal(next) > maxTokens {
        GroupsNonEmpty([], parts[1..], maxTokens);
        var rest := Groups([], parts[1..], maxTokens);
        assert forall k | 1 <= k < |[next] + rest| :: ([next] + rest)[k] == rest[k - 1];
      } else {
        GroupsNonEmpty(next, parts[1..], maxTokens);
      }
    }
  }

  lemma {:induction false} GroupsOverflow(buf: seq<string>, parts: seq<string>, maxTokens: int)
    ensures forall k | 0 <= k < |Groups(buf, parts, maxTokens)| - 1 ::
      WordTotal(Groups(buf, parts, maxTokens)[k]) > maxTokens
    decreases |parts|
  {
    if parts != [] {
      var next := buf + [parts[0]];
      if WordTotal(next) > maxTokens {
        GroupsOverflow([], parts[1..], maxTokens);
        var rest := Groups([], parts[1..], maxTokens);
        assert forall k | 1 <= k < |[next] + rest| :: ([next] + rest)[k] == rest[k - 1];
      } else {
        GroupsOverflow(next, parts[1..], maxTokens);
      }
    }
  }

  /** A buffer within the limit, with its proper prefixes too. */
  lemma BufferPrefixes(buf: seq<string>, maxTokens: int)
    requires buf == [] || WordTotal(buf) <= maxTokens
    ensures forall j | 1 <= j <= |buf| :: WordTotal(buf[..j]) <= maxTokens
  {
    forall j | 1 <= j <= |buf| ensures WordTotal(buf[..j]) <= maxTokens {
      WordTotalPrefix(buf, j);
    }
  }

  /** Appending a part keeps every proper prefix of the new buffer within the limit. */
  lemma SnocPrefixes(buf: seq<string>, part: string, maxTokens: int)
    requires buf == [] || WordTotal(buf) <= maxTokens
    ensures forall j | 1 <= j < |buf + [part]| :: WordTotal((buf + [part])[..j]) <= maxTokens
  {
    forall j | 1 <= j < |buf + [part]| ensures WordTotal((buf + [part])[..j]) <= maxTokens {
      assert (buf + [part])[..j] == buf[..j];
      WordTotalPrefix(buf, j);
    }
  }

  lemma {:induction false} GroupsPrefixes(buf: seq<string>, parts: seq<string>, maxTokens: int)
    requires buf == [] || WordTotal(buf) <= maxTokens
    ensures forall k, j | 0 <= k < |Groups(buf, parts, maxTokens)| && 1 <= j < |Groups(buf, parts, maxTokens)[k]| ::
      WordTotal(Groups(buf, parts, maxTokens)[k][..j]) <= maxTokens
    decreases |parts|
  {
    if parts == [] {
      BufferPrefixes(buf, maxTokens);
    } else {
      var next := buf + [parts[0]];
      SnocPrefixes(buf, parts[0], maxTokens);
      if WordTotal(next) > maxTokens {
        GroupsPrefixes([], parts[1..], maxTokens);
        GroupsCons(next, Groups([], parts[1..], maxTokens));
      } else {
        GroupsPrefixes(next, parts[1..], maxTokens);
      }
    }
  }

  lemma GroupsCons(g: seq<string>, rest: seq<seq<string>>)
    ensures ([g] + rest)[0] == g
    ensures forall k | 1 <= k < |[g] + rest| :: ([g] + rest)[k] == rest[k - 1]
  {
  }

  lemma GroupsGreedy(buf: seq<string>, parts: seq<string>, maxTokens: int)
    requires buf == [] || WordTotal(buf) <= maxTokens
    ensures GreedyGroups(Groups(buf, parts, maxTokens), maxTokens)
    ensures Groups(buf, parts, maxTokens) == [] <==> buf + parts == []
  {
    GroupsNonEmpty(buf, parts, maxTokens);
    GroupsOverflow(buf, parts, maxTokens);
    GroupsPrefixes(buf, parts, maxTokens);
  }

  /** Joining groups' joins equals joining their concatenation, when no group is empty. */
  lemma {:induction false} JoinOfJoins(groups: seq<seq<string>>)
    requires forall k | 0 <= k < |groups| :: groups[k] != []
    ensures Join(" ", JoinEach(groups)) == Join(" ", Flatten(groups))
    decreases |groups|
  {
    if |groups| > 1 {
      var tail := groups[1..];
      JoinOfJoins(tail);
      assert JoinEach(groups) == [JoinEach(groups)[0]] + JoinEach(tail);
      JoinAppend(" ", [JoinEach(groups)[0]], JoinEach(tail));
      FlattenNonEmpty(tail);
      JoinAppend(" ", groups[0], Flatten(tail));
      assert Join(" ", [JoinEach(groups)[0]]) == Join(" ", groups[0]);
    } else if |groups| == 1 {
      assert Flatten(groups) == groups[0] + Flatten(groups[1..]);
      assert groups[0] + Flatten(groups[1..]) == groups[0];
      assert JoinEach(groups) == [Join(" ", groups[0])];
    }
  }

  lemma FlattenNonEmpty(groups: seq<seq<string>>)
    requires groups != [] && groups[0] != []
    ensures Flatten(groups) != []
  {
  }

  /**
   * Joining the chunks with spaces gives the parts joined with spaces: no text is
   * lost, duplicated or reordered.
   */
  lemma ChunksPreserveText(parts: seq<string>, maxTokens: int)
    ensures Join(" ", Chunks(parts, maxTokens)) == Join(" ", parts)
  {
    GroupsGreedy([], parts, maxTokens);
    GroupsFlatten([], parts, maxTokens);
    assert [] + parts == parts;
    JoinOfJoins(Groups([], parts, maxTokens));
  }

  /**
   * The chunk groups are exactly the greedy split of the parts: they concatenate to
   * the parts, all but the last exceed `maxTokens` words, no proper prefix of a
   * group does, and there is at least one chunk iff there is at least one part.
   */
  lemma ChunksAreGreedy(parts: seq<string>, maxTokens: int)
    ensures Flatten(Groups([], parts, maxTokens)) == parts
    ensures GreedyGroups(Groups([], parts, maxTokens), maxTokens)
    ensures |Chunks(parts, maxTokens)| > 0 <==> |parts| > 0
  {
    GroupsGreedy([], parts, maxTokens);
    GroupsFlatten([], parts, maxTokens);
  }

  /**
   * The leftover buffer is the last chunk: when the final group does not overflow,
   * it is the longest tail of the parts with at most `maxTokens` words that starts
   * after the last overflowing group.
   */
  lemma LastChunkIsLeftover(parts: seq<string>, maxTokens: int)
    requires parts != []
    ensures var g := Groups([], parts, maxTokens);
      && g != [] && |g[|g| - 1]| <= |parts|
      && Join(" ", g[|g| - 1]) == Chunks(parts, maxTokens)[|g| - 1]
      && g[|g| - 1] == parts[|parts| - |g[|g| - 1]|..]
  {
    GroupsGreedy([], parts, maxTokens);
    GroupsFlatten([], parts, maxTokens);
    var g := Groups([], parts, maxTokens);
    assert [] + parts == parts;
    FlattenSnoc(g);
  }

  lemma {:induction false} FlattenSnoc(groups: seq<seq<string>>)
    requires groups != []
    ensures Flatten(groups) == Flatten(groups[..|groups| - 1]) + groups[|groups| - 1]
    decreases |groups|
  {
    if |groups| > 1 {
      FlattenSnoc(groups[1..]);
      assert groups[1..][..|groups[1..]| - 1] == groups[..|groups| - 1][1..];
    } else {
      assert Flatten(groups) == groups[0] + Flatten([]);
    }
  }
}
