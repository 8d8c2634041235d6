/** Splitting the symbol universe into one group per feed connection:
    `[pairs[i:i + size] for i in range(0, len(pairs), size)]`. */
module Partition {
  import opened Numbers

  /** The comprehension from start offset `i` on: one slice per value of the
      `range`, each clamped at the end of the list as Python slicing is.
      A zero step makes `range` raise, so `size` must be positive. */
  function ChunksFrom<T>(pairs: seq<T>, size: nat, i: nat): seq<seq<T>>
    requires size > 0
    decreases |pairs| - i
  {
    if i >= |pairs| then []
    else [pairs[i..Min(i + size, |pairs|)]] + ChunksFrom(pairs, size, i + size)
  }

  function Chunks<T>(pairs: seq<T>, size: nat): seq<seq<T>>
    requires size > 0
  {
    ChunksFrom(pairs, size, 0)
  }

  function Flatten<T>(groups: seq<seq<T>>): seq<T>
    decreases |groups|
  {
    if groups == [] then [] else groups[0] + Flatten(groups[1..])
  }

  lemma {:induction false} FlattenFrom<T>(pairs: seq<T>, size: nat, i: nat)
    requires size > 0 && i <= |pairs|
    ensures Flatten(ChunksFrom(pairs, size, i)) == pairs[i..]
    decreases |pairs| - i
  {
    if i < |pairs| {
      var next := Min(i + size, |pairs|);
      FlattenFrom(pairs, size, next);
      if next == |pairs| {
        assert ChunksFrom(pairs, size, i + size) == [];
        assert pairs[next..] == [];
      }
      assert ChunksFrom(pairs, size, i + size) == ChunksFrom(pairs, size, next);
      assert pairs[i..] == pairs[i..next] + pairs[next..];
    }
  }

  /** Concatenating the groups reproduces the symbol list exactly, in order:
      every symbol is assigned to exactly one connection. */
  lemma ChunksConcatenate<T>(pairs: seq<T>, size: nat)
    requires size > 0
    ensures Flatten(Chunks(pairs, size)) == pairs
  {
    FlattenFrom(pairs, size, 0);
  }

  /** Every group is non-empty and at most `size` long, and every group but
      the last is exactly `size` long. */
  predicate WellSized<T>(groups: seq<seq<T>>, size: nat) {
    && (forall k :: 0 <= k < |groups| ==> 1 <= |groups[k]| <= size)
    && (forall k :: 0 <= k < |groups| - 1 ==> |groups[k]| == size)
  }

  lemma {:induction false} ChunkSizesFrom<T>(pairs: seq<T>, size: nat, i: nat)
    requires size > 0
    ensures WellSized(ChunksFrom(pairs, size, i), size)
    decreases |pairs| - i
  {
    if i < |pairs| {
      ChunkSizesFrom(pairs, size, i + size);
      var groups := ChunksFrom(pairs, size, i);
      var rest := ChunksFrom(pairs, size, i + size);
      assert groups == [pairs[i..Min(i + size, |pairs|)]] + rest;
      if rest != [] {
        assert i + size < |pairs|;
      }
      forall k | 1 <= k < |groups| ensures groups[k] == rest[k - 1] { }
    }
  }

  /** Every group is non-empty and holds at most `size` symbols; all groups but
      the last hold exactly `size`; no symbols means no groups. */
  lemma ChunkSizes<T>(pairs: seq<T>, size: nat)
    requires size > 0
    ensures WellSized(Chunks(pairs, size), size)
    ensures Chunks(pairs, size) == [] <==> pairs == []
  {
    ChunkSizesFrom(pairs, size, 0);
  }
}
