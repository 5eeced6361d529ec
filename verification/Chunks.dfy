/** Byte chunks laid end to end, and positions in them. */
module Chunks {
  type Byte = x: int | 0 <= x < 256

  type Bytes = seq<Byte>

  function Flat<T>(chunks: seq<seq<T>>): seq<T> {
    if chunks == [] then [] else chunks[0] + Flat(chunks[1..])
  }

  /** How much comes before chunk `i`. */
  function Offset(chunks: seq<Bytes>, i: nat): nat
    requires i <= |chunks|
  {
    if i == 0 then 0 else |chunks[0]| + Offset(chunks[1..], i - 1)
  }

  /** The unread part of chunk `i` is `current`, and everything before it makes `pos`. */
  ghost predicate Place(chunks: seq<Bytes>, i: nat, current: Bytes, pos: nat) {
    && i < |chunks| && |current| <= |chunks[i]| && current == chunks[i][|chunks[i]| - |current|..]
    && pos == Offset(chunks, i) + |chunks[i]| - |current|
  }

  /** The rest of the chunk that byte `pos` is in. */
  function ChunkAt(chunks: seq<Bytes>, pos: nat): Bytes {
    if chunks == [] then []
    else if pos < |chunks[0]| then chunks[0][pos..]
    else ChunkAt(chunks[1..], pos - |chunks[0]|)
  }

  /** What is left at a place is the unread part of its chunk and all later chunks. */
  lemma {:induction false} PlaceLeaves(chunks: seq<Bytes>, i: nat, current: Bytes, pos: nat)
    requires Place(chunks, i, current, pos)
    ensures pos <= |Flat(chunks)| && Flat(chunks)[pos..] == current + Flat(chunks[i + 1..])
  {
    if i > 0 {
      PlaceLeaves(chunks[1..], i - 1, current, pos - |chunks[0]|);
      assert chunks[1..][i..] == chunks[i + 1..];
      assert Flat(chunks)[pos..] == Flat(chunks[1..])[pos - |chunks[0]|..];
    } else {
      assert Flat(chunks)[pos..] == chunks[0][pos..] + Flat(chunks[1..]);
    }
  }

  /** A place at the end of a chunk is also the place at the start of the next. */
  lemma {:induction false} PlaceNext(chunks: seq<Bytes>, i: nat, pos: nat)
    requires Place(chunks, i, [], pos) && i + 1 < |chunks|
    ensures Place(chunks, i + 1, chunks[i + 1], pos)
  {
    OffsetNext(chunks, i);
  }

  lemma {:induction false} OffsetNext(chunks: seq<Bytes>, i: nat)
    requires i < |chunks|
    ensures Offset(chunks, i + 1) == Offset(chunks, i) + |chunks[i]|
  {
    if i > 0 {
      OffsetNext(chunks[1..], i - 1);
    }
  }

  ghost predicate NoneEmpty(chunks: seq<Bytes>) {
    forall k :: 0 <= k < |chunks| ==> |chunks[k]| > 0
  }

  /** The chunk at a place: its unread part or, at its end, the next chunk. */
  lemma {:induction false} PlaceChunk(chunks: seq<Bytes>, i: nat, current: Bytes, pos: nat)
    requires Place(chunks, i, current, pos) && NoneEmpty(chunks)
    ensures ChunkAt(chunks, pos) == if current != [] then current else if i + 1 < |chunks| then chunks[i + 1] else []
  {
    if i > 0 {
      PlaceChunk(chunks[1..], i - 1, current, pos - |chunks[0]|);
    }
  }

  /** The chunk at a position reaches to the end of the chunk that position is in, and no further. */
  lemma {:induction false} ChunkEnds(chunks: seq<Bytes>, pos: nat) returns (i: nat)
    requires pos <= |Flat(chunks)|
    ensures i <= |chunks| && pos + |ChunkAt(chunks, pos)| == Offset(chunks, i)
    ensures forall j :: 0 <= j <= |chunks| ==>
              Offset(chunks, j) <= pos || pos + |ChunkAt(chunks, pos)| <= Offset(chunks, j)
  {
    if chunks == [] {
      i := 0;
    } else {
      forall j | 0 < j <= |chunks| ensures Offset(chunks, j) == |chunks[0]| + Offset(chunks[1..], j - 1) {
      }
      if pos < |chunks[0]| {
        i := 1;
      } else {
        i := ChunkEnds(chunks[1..], pos - |chunks[0]|);
        i := i + 1;
      }
    }
  }

  /** The chunk at a position begins what is left there, and is empty only when nothing is left. */
  lemma {:induction false} ChunkLeads(chunks: seq<Bytes>, pos: nat)
    requires pos <= |Flat(chunks)|
    ensures ChunkAt(chunks, pos) <= Flat(chunks)[pos..]
    ensures ChunkAt(chunks, pos) == [] ==> pos == |Flat(chunks)|
  {
    if chunks != [] {
      if pos < |chunks[0]| {
        assert Flat(chunks)[pos..] == chunks[0][pos..] + Flat(chunks[1..]);
      } else {
        ChunkLeads(chunks[1..], pos - |chunks[0]|);
        assert Flat(chunks)[pos..] == Flat(chunks[1..])[pos - |chunks[0]|..];
      }
    }
  }
}
