/**
 * The greedy packing of file summaries into prompt-sized chunks in `summariseDeep`
 * (src/lib.ts). Each summary joins the current chunk if the summaries template,
 * rendered over the chunk with it, stays within `MAX_PROMPT_LENGTH`; otherwise the
 * current chunk is closed and a new one starts with that summary, unchecked.
 * `renderLen` stands for `summariseSummariesTemplate({summaries}).length`.
 */
module Chunking {

  const MAX_PROMPT_LENGTH: nat := 30000

  /** The loop from a state with chunk `current` open and `rest` still to place, followed by the final push. */
  function Pack<T>(current: seq<T>, rest: seq<T>, renderLen: seq<T> -> nat): seq<seq<T>>
    decreases |rest|
  {
    if rest == [] then [current]
    else if renderLen(current + [rest[0]]) <= MAX_PROMPT_LENGTH then Pack(current + [rest[0]], rest[1..], renderLen)
    else [current] + Pack([rest[0]], rest[1..], renderLen)
  }

  function Chunks<T>(summaries: seq<T>, renderLen: seq<T> -> nat): seq<seq<T>> {
    Pack([], summaries, renderLen)
  }

  function Flatten<T>(chunks: seq<seq<T>>): seq<T> {
    if chunks == [] then [] else chunks[0] + Flatten(chunks[1..])
  }

  /** A chunk the loop vouches for: one of two or more summaries renders within the limit. */
  predicate Checked<T>(chunk: seq<T>, renderLen: seq<T> -> nat) {
    |chunk| >= 2 ==> renderLen(chunk) <= MAX_PROMPT_LENGTH
  }

  lemma {:induction false} FlattenConcat<T>(a: seq<seq<T>>, b: seq<seq<T>>)
    ensures Flatten(a + b) == Flatten(a) + Flatten(b)
  {
    if a == [] {
      assert a + b == b;
    } else {
      assert (a + b)[0] == a[0] && (a + b)[1..] == a[1..] + b;
      FlattenConcat(a[1..], b);
    }
  }

  /**
   * What the loop guarantees from any state: the chunks flatten back to `current + rest`
   * in order, the first chunk extends `current`, every later chunk is non-empty, every
   * chunk is checked, and each closed chunk was closed because the next summary did
   * not fit after it.
   */
  lemma {:induction false} PackShape<T>(current: seq<T>, rest: seq<T>, renderLen: seq<T> -> nat)
    requires Checked(current, renderLen)
    ensures var r := Pack(current, rest, renderLen);
      && |r| >= 1
      && Flatten(r) == current + rest
      && |current| <= |r[0]| && r[0][..|current|] == current
      && (forall i :: 0 < i < |r| ==> r[i] != [])
      && (forall i :: 0 <= i < |r| ==> Checked(r[i], renderLen))
      && (forall i :: 0 <= i < |r| - 1 ==> renderLen(r[i] + [r[i + 1][0]]) > MAX_PROMPT_LENGTH)
    decreases |rest|
  {
    var r := Pack(current, rest, renderLen);
    if rest == [] {
      assert Flatten(r) == current + Flatten([]);
      assert current + rest == current;
    } else if renderLen(current + [rest[0]]) <= MAX_PROMPT_LENGTH {
      PackShape(current + [rest[0]], rest[1..], renderLen);
      assert current + [rest[0]] + rest[1..] == current + rest;
      assert r[0][..|current|] == r[0][..|current| + 1][..|current|];
    } else {
      var tail := Pack([rest[0]], rest[1..], renderLen);
      PackShape([rest[0]], rest[1..], renderLen);
      assert r == [current] + tail;
      FlattenConcat([current], tail);
      assert Flatten([current]) == current + Flatten([]);
      assert [rest[0]] + rest[1..] == rest;
      assert tail[0][..1] == [rest[0]];
      forall i | 0 <= i < |r| - 1
        ensures renderLen(r[i] + [r[i + 1][0]]) > MAX_PROMPT_LENGTH
      {
        if i > 0 {
          assert r[i] == tail[i - 1] && r[i + 1] == tail[i];
        }
      }
    }
  }

  /**
   * The chunks of `summariseDeep`: there is always at least one; concatenated they
   * give back the summaries in their original order; a chunk of two or more summaries
   * renders within the limit; only the first chunk can be empty, and it is empty
   * exactly when there are no summaries or the first summary alone does not fit; and
   * the packing is greedy: each chunk but the last was closed only because the next
   * summary would have overflowed it.
   */
  lemma ChunksProperties<T>(summaries: seq<T>, renderLen: seq<T> -> nat)
    ensures var r := Chunks(summaries, renderLen);
      && |r| >= 1
      && Flatten(r) == summaries
      && (forall i :: 0 <= i < |r| && |r[i]| >= 2 ==> renderLen(r[i]) <= MAX_PROMPT_LENGTH)
      && (forall i :: 0 < i < |r| ==> r[i] != [])
      && (r[0] == [] <==> summaries == [] || renderLen([summaries[0]]) > MAX_PROMPT_LENGTH)
      && (forall i :: 0 <= i < |r| - 1 ==> renderLen(r[i] + [r[i + 1][0]]) > MAX_PROMPT_LENGTH)
  {
    PackShape([], summaries, renderLen);
    var r := Chunks(summaries, renderLen);
    if summaries != [] {
      assert [] + [summaries[0]] == [summaries[0]];
      if renderLen([summaries[0]]) <= MAX_PROMPT_LENGTH {
        PackShape([summaries[0]], summaries[1..], renderLen);
        assert r == Pack([summaries[0]], summaries[1..], renderLen);
      }
    }
  }

  /** The imperative loop of `summariseDeep` that builds `chunks`. */
  method ChunkSummaries<T>(summaries: seq<T>, renderLen: seq<T> -> nat) returns (chunks: seq<seq<T>>)
    ensures chunks == Chunks(summaries, renderLen)
  {
    chunks := [];
    var currentChunk: seq<T> := [];
    for i := 0 to |summaries|
      invariant chunks + Pack(currentChunk, summaries[i..], renderLen) == Chunks(summaries, renderLen)
    {
      var summary := summaries[i];
      assert summaries[i..][0] == summary && summaries[i..][1..] == summaries[i + 1..];
      if renderLen(currentChunk + [summary]) <= MAX_PROMPT_LENGTH {
        currentChunk := currentChunk + [summary];
      } else {
        chunks := chunks + [currentChunk];
        currentChunk := [summary];
      }
    }
    assert summaries[|summaries|..] == [];
    chunks := chunks + [currentChunk];
  }
}
