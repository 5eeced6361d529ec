/** Celestia shares, and the two readers of the bytes of a blob. */
module Shares {
  import opened Wrappers
  import opened Basics
  import opened Chunks

  const NS_SIZE: nat := 29
  const INFO_BYTE_LEN: nat := 1
  const SEQUENCE_LENGTH_BYTES: nat := 4
  const RESERVED_BYTES_LEN: nat := 4
  const SHARE_SIZE: nat := 512

  /** Which namespaces Celestia reserves; shares in them carry reserved bytes. */
  type Reserved = Bytes -> bool

  datatype Share = Continuation(raw: Bytes) | Start(raw: Bytes)

  datatype ShareError = NotAStartShare

  /** Only version zero is known; its lowest bit tells a start share. */
  function NewShare(raw: Bytes): (r: Option<Share>)
    requires |raw| == SHARE_SIZE
    ensures r.Some? <==> raw[NS_SIZE] == 0 || raw[NS_SIZE] == 1
    ensures r.Some? ==> r.value.raw == raw && (r.value.Start? <==> raw[NS_SIZE] == 1)
  {
    var info := raw[NS_SIZE];
    if info / 2 != 0 then None else if info % 2 == 0 then Some(Continuation(raw)) else Some(Start(raw))
  }

  /** Four bytes, most significant first. */
  function ReadU32(b: Bytes): nat
    requires |b| == 4
  {
    b[0] as int * 0x100_0000 + b[1] as int * 0x1_0000 + b[2] as int * 0x100 + b[3] as int
  }

  /** The most significant byte comes first: the first byte that differs decides. */
  lemma U32Orders(a: Bytes, b: Bytes, k: nat)
    requires |a| == |b| == 4 && k < 4 && a[..k] == b[..k] && a[k] < b[k]
    ensures ReadU32(a) < ReadU32(b)
  {
    assert forall i :: 0 <= i < k ==> a[i] == a[..k][i] == b[i];
  }

  ghost predicate WellSized(shares: seq<Share>) {
    forall k :: 0 <= k < |shares| ==> |shares[k].raw| == SHARE_SIZE
  }

  function SequenceLength(share: Share): (r: Result<nat, ShareError>)
    requires |share.raw| == SHARE_SIZE
    ensures r.Ok? <==> share.Start?
  {
    if share.Continuation? then Err(NotAStartShare)
    else
      var at := NS_SIZE + INFO_BYTE_LEN;
      Ok(ReadU32(share.raw[at..at + SEQUENCE_LENGTH_BYTES]))
  }

  function DataOffset(reserved: Reserved, share: Share): (r: nat)
    requires |share.raw| == SHARE_SIZE
    ensures r < SHARE_SIZE
  {
    NS_SIZE + INFO_BYTE_LEN
    + (if share.Start? then SEQUENCE_LENGTH_BYTES else 0)
    + (if reserved(share.raw[..NS_SIZE]) then RESERVED_BYTES_LEN else 0)
  }

  function Data(reserved: Reserved, share: Share): (r: Bytes)
    requires |share.raw| == SHARE_SIZE
    ensures r != []
  {
    share.raw[DataOffset(reserved, share)..]
  }

  ghost function Datas(reserved: Reserved, shares: seq<Share>): (r: seq<Bytes>)
    requires WellSized(shares)
    ensures |r| == |shares| && NoneEmpty(r)
    ensures forall i :: 0 <= i < |r| ==> r[i] == Data(reserved, shares[i])
  {
    seq(|shares|, i requires 0 <= i < |shares| => Data(reserved, shares[i]))
  }

  ghost predicate DataAt(reserved: Reserved, shares: seq<Share>, chunks: seq<Bytes>, i: nat)
    requires i < |shares| && i < |chunks|
  {
    |shares[i].raw| == SHARE_SIZE && chunks[i] == Data(reserved, shares[i])
  }

  /** The chunks are the data of the shares. */
  ghost predicate CutAs(reserved: Reserved, shares: seq<Share>, chunks: seq<Bytes>) {
    && |chunks| == |shares|
    && forall i: nat {:trigger DataAt(reserved, shares, chunks, i)} ::
         i < |shares| ==> DataAt(reserved, shares, chunks, i)
  }

  lemma DatasCut(reserved: Reserved, shares: seq<Share>)
    requires WellSized(shares)
    ensures CutAs(reserved, shares, Datas(reserved, shares))
  {
  }

  lemma CutNoneEmpty(reserved: Reserved, shares: seq<Share>, chunks: seq<Bytes>)
    requires CutAs(reserved, shares, chunks)
    ensures NoneEmpty(chunks)
  {
    forall k | 0 <= k < |chunks| ensures |chunks[k]| > 0 {
      assert DataAt(reserved, shares, chunks, k);
    }
  }

  // ----- what a reader may be asked, and what it answers

  /** A blob cut in chunks, its declared length, and how much of it was consumed. */
  datatype View = View(chunks: seq<Bytes>, length: nat, consumed: nat)

  ghost predicate Readable(v: View) {
    v.consumed <= v.length && v.consumed <= |Flat(v.chunks)|
  }

  /** Where reading ends: at the declared length, or before it where a short blob ends. */
  ghost function End(v: View): nat {
    Least(v.length, |Flat(v.chunks)|)
  }

  /** The bytes not consumed yet. */
  ghost function Unread(v: View): Bytes
    requires Readable(v)
  {
    Flat(v.chunks)[v.consumed..End(v)]
  }

  /** The shares hold as much as the blob declares. */
  ghost predicate Complete(v: View) {
    v.length <= |Flat(v.chunks)|
  }

  function Truncated(chunk: Bytes, n: nat): Bytes {
    if |chunk| > n then chunk[..n] else chunk
  }

  datatype Op = Next | Read(n: nat) | Chunk | Advance(n: nat)

  datatype Answer = Ended | Bytes(bytes: Bytes) | Done

  /** What does not run past the shares, where the readers panic. A complete blob allows all but advancing beyond what
      remains. */
  ghost predicate Allowed(v: View, op: Op) {
    match op
    case Next => v.consumed < End(v) || v.consumed == v.length
    case Read(n) => Complete(v) || v.consumed + n <= End(v)
    case Chunk => true
    case Advance(n) => v.consumed + n <= End(v)
  }

  lemma CompleteAllows(v: View, op: Op)
    requires Readable(v) && Complete(v)
    ensures Allowed(v, op) <==> (op.Advance? ==> v.consumed + op.n <= v.length)
  {
  }

  ghost function Consumes(v: View, op: Op): (n: nat)
    requires Readable(v) && Allowed(v, op)
    ensures v.consumed + n <= End(v)
  {
    var left := End(v) - v.consumed;
    match op
    case Next => if left == 0 then 0 else 1
    case Read(n) => Least(n, left)
    case Chunk => 0
    case Advance(n) => n
  }

  ghost function Answers(v: View, op: Op): Answer
    requires Readable(v) && Allowed(v, op)
  {
    match op
    case Next => if Unread(v) == [] then Ended else Bytes([Unread(v)[0]])
    case Read(n) => Bytes(Unread(v)[..Consumes(v, op)])
    case Chunk => Bytes(Truncated(ChunkAt(v.chunks, v.consumed), v.length - v.consumed))
    case Advance(n) => Done
  }

  ghost function After(v: View, op: Op): (r: View)
    requires Readable(v) && Allowed(v, op)
    ensures Readable(r)
  {
    v.(consumed := v.consumed + Consumes(v, op))
  }

  ghost predicate AllAllowed(v: View, ops: seq<Op>)
    requires Readable(v)
    decreases |ops|
  {
    ops == [] || (Allowed(v, ops[0]) && AllAllowed(After(v, ops[0]), ops[1..]))
  }

  /** Any interleaving of requests, answered in order. */
  ghost function AllAnswers(v: View, ops: seq<Op>): seq<Answer>
    requires Readable(v) && AllAllowed(v, ops)
    decreases |ops|
  {
    if ops == [] then [] else [Answers(v, ops[0])] + AllAnswers(After(v, ops[0]), ops[1..])
  }

  /** A chunk begins what is unread, and is empty only at the end. */
  lemma ChunkBeginsUnread(v: View)
    requires Readable(v)
    ensures Answers(v, Chunk).bytes <= Unread(v)
    ensures Answers(v, Chunk).bytes == [] <==> Unread(v) == []
  {
    ChunkLeads(v.chunks, v.consumed);
    assert Unread(v) == Flat(v.chunks)[v.consumed..][..End(v) - v.consumed];
  }

  /** A chunk ends where the blob ends or a share ends, and runs over no end of a share. */
  lemma ChunkIsRestOfShare(v: View)
    requires Readable(v)
    ensures var end := v.consumed + |Answers(v, Chunk).bytes|;
            && (end == End(v) || exists i :: 0 <= i <= |v.chunks| && end == Offset(v.chunks, i))
            && (forall i :: 0 <= i <= |v.chunks| ==> Offset(v.chunks, i) <= v.consumed || end <= Offset(v.chunks, i))
  {
    ChunkLeads(v.chunks, v.consumed);
    var i := ChunkEnds(v.chunks, v.consumed);
  }

  /** All chunks, each advanced over before the next is asked for. */
  ghost function Drained(v: View): Bytes
    requires Readable(v)
    decreases End(v) - v.consumed
  {
    ChunkBeginsUnread(v);
    var c := Answers(v, Chunk).bytes;
    if c == [] then [] else c + Drained(After(v, Advance(|c|)))
  }

  /** Reading chunk after chunk yields what is unread. */
  lemma {:induction false} DrainYieldsAll(v: View)
    requires Readable(v)
    ensures Drained(v) == Unread(v)
    decreases End(v) - v.consumed
  {
    ChunkBeginsUnread(v);
    var c := Answers(v, Chunk).bytes;
    if c != [] {
      DrainYieldsAll(After(v, Advance(|c|)));
      assert Unread(v) == c + Unread(v)[|c|..];
    }
  }

  // ----- moving through the shares

  lemma ByteTaken(v: View, i: nat, current: Bytes)
    requires Readable(v) && Place(v.chunks, i, current, v.consumed) && v.consumed < End(v) && current != []
    ensures Unread(v) != [] && current[0] == Unread(v)[0] && Place(v.chunks, i, current[1..], v.consumed + 1)
  {
    PlaceLeaves(v.chunks, i, current, v.consumed);
    assert Unread(v)[0] == Flat(v.chunks)[v.consumed..][0];
  }

  /** With bytes unread, an exhausted share is not the last. */
  lemma MoreShares(v: View, i: nat)
    requires Readable(v) && Place(v.chunks, i, [], v.consumed) && v.consumed < End(v)
    ensures i + 1 < |v.chunks| && Place(v.chunks, i + 1, v.chunks[i + 1], v.consumed)
  {
    PlaceLeaves(v.chunks, i, [], v.consumed);
    assert Flat(v.chunks[|v.chunks|..]) == [];
    PlaceNext(v.chunks, i, v.consumed);
  }

  /** A buffer whose first `n` bytes are the next unread ones, and whose rest is as it was. */
  ghost predicate Filled(buf: Bytes, was: Bytes, unread: Bytes, n: nat) {
    && |buf| == |was| && n <= |buf| && n <= |unread|
    && buf[..n] == unread[..n] && buf[n..] == was[n..]
  }

  lemma FilledStep(buf: Bytes, was: Bytes, unread: Bytes, n: nat, byte: Byte)
    requires Filled(buf, was, unread, n) && n < |buf| && n < |unread| && byte == unread[n]
    ensures Filled(buf[n := byte], was, unread, n + 1)
  {
    var buf' := buf[n := byte];
    assert buf'[..n + 1] == unread[..n] + [byte];
    assert buf'[n + 1..] == buf[n..][1..];
    assert was[n + 1..] == was[n..][1..];
  }

  /** What is unread after `n` bytes. */
  lemma BytesLeft(v: View, n: nat)
    requires Readable(v) && n <= |Unread(v)|
    ensures var v' := v.(consumed := v.consumed + n);
            && Readable(v') && Unread(v') == Unread(v)[n..] && (Unread(v') == [] <==> n == |Unread(v)|)
            && (v'.consumed < End(v') <==> n < |Unread(v)|)
  {
  }

  /** Skipping bytes of the current share. */
  lemma Skipped(chunks: seq<Bytes>, i: nat, current: Bytes, pos: nat, n: nat)
    requires Place(chunks, i, current, pos) && n <= |current|
    ensures Place(chunks, i, current[n..], pos + n)
  {
  }

  /** Skipping to or past the end of a share leads to the start of the next; past the last, nothing lies. */
  lemma Exhausted(chunks: seq<Bytes>, i: nat, current: Bytes, pos: nat, n: nat)
    requires Place(chunks, i, current, pos) && |current| <= n && pos + n <= |Flat(chunks)|
    ensures if i + 1 < |chunks| then Place(chunks, i + 1, chunks[i + 1], pos + |current|)
            else |current| == n && Place(chunks, i, [], pos + n)
  {
    Skipped(chunks, i, current, pos, |current|);
    if i + 1 < |chunks| {
      PlaceNext(chunks, i, pos + |current|);
    } else {
      PlaceLeaves(chunks, i, current, pos);
      assert Flat(chunks[i + 1..]) == [];
    }
  }

  /** The owned reader. */
  class BlobIterator {
    const reserved: Reserved
    const shares: seq<Share>
    const sequenceLen: nat
    ghost const chunks: seq<Bytes>
    var consumed: nat
    var current: Bytes
    var currentIdx: nat

    ghost predicate Valid()
      reads this
    {
      && CutAs(reserved, shares, chunks)
      && Readable(Model()) && Place(chunks, currentIdx, current, consumed)
    }

    ghost function Model(): View
      reads this
    {
      View(chunks, sequenceLen, consumed)
    }

    constructor (reserved: Reserved, blob: seq<Share>)
      requires WellSized(blob) && blob != [] && SequenceLength(blob[0]).Ok?
      ensures Valid() && Model() == View(Datas(reserved, blob), SequenceLength(blob[0]).value, 0)
    {
      this.reserved, shares, sequenceLen := reserved, blob, SequenceLength(blob[0]).value;
      chunks := Datas(reserved, blob);
      consumed, current, currentIdx := 0, Data(reserved, blob[0]), 0;
      DatasCut(reserved, blob);
    }

    method NextByte() returns (r: Option<Byte>)
      requires Valid() && Allowed(Model(), Next)
      modifies `consumed, `current, `currentIdx
      ensures Valid() && Model() == After(old(Model()), Next)
      ensures Answers(old(Model()), Next) == if r.None? then Ended else Bytes([r.value])
      decreases |shares| - currentIdx
    {
      if consumed == sequenceLen {
        r := None;
      } else if current != [] {
        ByteTaken(Model(), currentIdx, current);
        r := Some(current[0]);
        consumed, current := consumed + 1, current[1..];
      } else {
        MoreShares(Model(), currentIdx);
        currentIdx := currentIdx + 1;
        assert DataAt(reserved, shares, chunks, currentIdx);
        current := Data(reserved, shares[currentIdx]);
        r := NextByte();
      }
    }

    /** Fills `buf` from the front until it is full or the blob ends. */
    method ReadInto(buf: array<Byte>) returns (written: nat)
      requires Valid() && Allowed(Model(), Read(buf.Length))
      modifies `consumed, `current, `currentIdx, buf
      ensures Valid() && Model() == After(old(Model()), Read(buf.Length))
      ensures written <= buf.Length && buf[written..] == old(buf[written..])
      ensures Bytes(buf[..written]) == Answers(old(Model()), Read(buf.Length))
    {
      ghost var v, was := Model(), buf[..];
      written := 0;
      while written < buf.Length
        invariant Valid() && Model() == v.(consumed := v.consumed + written)
        invariant Filled(buf[..], was, Unread(v), written)
      {
        BytesLeft(v, written);
        var byte := NextByte();
        if byte.None? {
          break;
        }
        ghost var before := buf[..];
        buf[written] := byte.value;
        assert buf[..] == before[written := byte.value];
        FilledStep(before, was, Unread(v), written, byte.value);
        written := written + 1;
      }
      BytesLeft(v, written);
    }

    method CurrentChunk() returns (r: Bytes)
      requires Valid()
      ensures Bytes(r) == Answers(Model(), Chunk)
    {
      CutNoneEmpty(reserved, shares, chunks);
      PlaceChunk(chunks, currentIdx, current, consumed);
      var chunk := current;
      if current == [] {
        if currentIdx + 1 >= |shares| {
          return [];
        }
        assert DataAt(reserved, shares, chunks, currentIdx + 1);
        chunk := Data(reserved, shares[currentIdx + 1]);
      }
      return Truncated(chunk, sequenceLen - consumed);
    }

    method Skip(n: nat)
      requires Valid() && Allowed(Model(), Advance(n))
      modifies `consumed, `current, `currentIdx
      ensures Valid() && Model() == After(old(Model()), Advance(n))
    {
      consumed := consumed + n;
      Move(n, consumed - n);
    }

    /** Moves `n` bytes on. Leaves an exhausted share at once, unless it is the last. */
    method Move(n: nat, ghost start: nat)
      requires CutAs(reserved, shares, chunks) && Place(chunks, currentIdx, current, start)
      requires start + n <= |Flat(chunks)|
      modifies `current, `currentIdx
      ensures Place(chunks, currentIdx, current, start + n)
    {
      var cnt := n;
      ghost var pos := start;
      while cnt > 0
        invariant 0 <= cnt && pos + cnt == start + n && Place(chunks, currentIdx, current, pos)
        decreases cnt, |shares| - currentIdx
      {
        var inShare := |current|;
        if inShare > cnt {
          Skipped(chunks, currentIdx, current, pos, cnt);
          current, cnt, pos := current[cnt..], 0, pos + cnt;
          break;
        }
        Exhausted(chunks, currentIdx, current, pos, cnt);
        current, pos := [], pos + inShare;
        if currentIdx + 1 < |shares| {
          currentIdx := currentIdx + 1;
          assert DataAt(reserved, shares, chunks, currentIdx);
          current := Data(reserved, shares[currentIdx]);
        } else {
          assert inShare == cnt;
        }
        cnt := cnt - inShare;
      }
    }

    /** Answers any interleaving of requests. */
    method Serve(ops: seq<Op>) returns (answers: seq<Answer>)
      requires Valid() && AllAllowed(Model(), ops)
      modifies `consumed, `current, `currentIdx
      ensures Valid() && answers == AllAnswers(old(Model()), ops)
      decreases |ops|
    {
      if ops == [] {
        return [];
      }
      var answer;
      match ops[0] {
      case Next =>
        var byte := NextByte();
        answer := if byte.None? then Ended else Bytes([byte.value]);
      case Read(n) =>
        var buf := new Byte[n];
        var written := ReadInto(buf);
        answer := Bytes(buf[..written]);
      case Chunk =>
        var chunk := CurrentChunk();
        answer := Bytes(chunk);
      case Advance(n) =>
        Skip(n);
        answer := Done;
      }
      var rest := Serve(ops[1..]);
      return [answer] + rest;
    }
  }

  /** The borrowed reader. */
  class BlobRefIterator {
    const reserved: Reserved
    const shares: seq<Share>
    const sequenceLen: nat
    ghost const chunks: seq<Bytes>
    var consumed: nat
    var current: Bytes
    var currentIdx: nat

    ghost predicate Valid()
      reads this
    {
      && CutAs(reserved, shares, chunks)
      && Readable(Model()) && Place(chunks, currentIdx, current, consumed)
    }

    ghost function Model(): View
      reads this
    {
      View(chunks, sequenceLen, consumed)
    }

    constructor (reserved: Reserved, blob: seq<Share>)
      requires WellSized(blob) && blob != [] && SequenceLength(blob[0]).Ok?
      ensures Valid() && Model() == View(Datas(reserved, blob), SequenceLength(blob[0]).value, 0)
    {
      this.reserved, shares, sequenceLen := reserved, blob, SequenceLength(blob[0]).value;
      chunks := Datas(reserved, blob);
      consumed, current, currentIdx := 0, Data(reserved, blob[0]), 0;
      DatasCut(reserved, blob);
    }

    /** A share and an offset into its data that together make up what was consumed. */
    method CurrentPosition() returns (share: nat, at: nat)
      requires Valid()
      ensures share < |shares| && Offset(chunks, share) + at == consumed
    {
      assert DataAt(reserved, shares, chunks, currentIdx);
      share, at := currentIdx, |Data(reserved, shares[currentIdx])| - |current|;
    }

    method NextByte() returns (r: Option<Byte>)
      requires Valid() && Allowed(Model(), Next)
      modifies `consumed, `current, `currentIdx
      ensures Valid() && Model() == After(old(Model()), Next)
      ensures Answers(old(Model()), Next) == if r.None? then Ended else Bytes([r.value])
      decreases |shares| - currentIdx
    {
      if consumed == sequenceLen {
        r := None;
      } else if current != [] {
        ByteTaken(Model(), currentIdx, current);
        r := Some(current[0]);
        consumed, current := consumed + 1, current[1..];
      } else {
        MoreShares(Model(), currentIdx);
        currentIdx := currentIdx + 1;
        assert DataAt(reserved, shares, chunks, currentIdx);
        current := Data(reserved, shares[currentIdx]);
        r := NextByte();
      }
    }

    method CurrentChunk() returns (r: Bytes)
      requires Valid()
      ensures Bytes(r) == Answers(Model(), Chunk)
    {
      CutNoneEmpty(reserved, shares, chunks);
      PlaceChunk(chunks, currentIdx, current, consumed);
      var chunk := current;
      if current == [] {
        if currentIdx + 1 >= |shares| {
          return [];
        }
        assert DataAt(reserved, shares, chunks, currentIdx + 1);
        chunk := Data(reserved, shares[currentIdx + 1]);
      }
      return Truncated(chunk, sequenceLen - consumed);
    }

    method Skip(n: nat)
      requires Valid() && Allowed(Model(), Advance(n))
      modifies `consumed, `current, `currentIdx
      ensures Valid() && Model() == After(old(Model()), Advance(n))
    {
      consumed := consumed + n;
      Move(n, consumed - n);
    }

    /** Moves `n` bytes on. Stays at the end of an exhausted share until more is asked for. */
    method Move(n: nat, ghost start: nat)
      requires CutAs(reserved, shares, chunks) && Place(chunks, currentIdx, current, start)
      requires start + n <= |Flat(chunks)|
      modifies `current, `currentIdx
      ensures Place(chunks, currentIdx, current, start + n)
    {
      var cnt := n;
      ghost var pos := start;
      while cnt > 0
        invariant 0 <= cnt && pos + cnt == start + n && Place(chunks, currentIdx, current, pos)
        decreases cnt, |shares| - currentIdx
      {
        if |current| >= cnt {
          Skipped(chunks, currentIdx, current, pos, cnt);
          current, cnt, pos := current[cnt..], 0, pos + cnt;
          break;
        }
        Exhausted(chunks, currentIdx, current, pos, cnt);
        cnt, pos := cnt - |current|, pos + |current|;
        currentIdx := currentIdx + 1;
        assert DataAt(reserved, shares, chunks, currentIdx);
        current := Data(reserved, shares[currentIdx]);
      }
    }

    /** Answers any interleaving of requests; this reader has no `read`. */
    method Serve(ops: seq<Op>) returns (answers: seq<Answer>)
      requires Valid() && AllAllowed(Model(), ops) && forall k :: 0 <= k < |ops| ==> !ops[k].Read?
      modifies `consumed, `current, `currentIdx
      ensures Valid() && answers == AllAnswers(old(Model()), ops)
      decreases |ops|
    {
      if ops == [] {
        return [];
      }
      var answer := Done;
      if ops[0].Next? {
        var byte := NextByte();
        answer := if byte.None? then Ended else Bytes([byte.value]);
      } else if ops[0].Chunk? {
        var chunk := CurrentChunk();
        answer := Bytes(chunk);
      } else {
        Skip(ops[0].n);
      }
      var rest := Serve(ops[1..]);
      return [answer] + rest;
    }
  }
}
