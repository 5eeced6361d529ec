/** Grouping the shares of a namespace into blobs, and laying payloads out in shares. */
module Namespaces {
  import opened Wrappers
  import opened Basics
  import opened Chunks
  import opened Shares

  // ----- grouping

  datatype NamespaceGroup = Compact(shares: seq<Share>) | Sparse(shares: seq<Share>)

  /** The shares of one namespace; an empty group is sparse. */
  function FromShares(reserved: Reserved, shares: seq<Share>): NamespaceGroup
    requires shares != [] ==> |shares[0].raw| == SHARE_SIZE
  {
    if shares != [] && reserved(shares[0].raw[..NS_SIZE]) then Compact(shares) else Sparse(shares)
  }

  /** How many shares come before the next sequence start. */
  function Continuing(shares: seq<Share>): (n: nat)
    ensures n <= |shares|
  {
    if shares == [] || shares[0].Start? then 0 else 1 + Continuing(shares[1..])
  }

  function Runs(shares: seq<Share>): seq<seq<Share>>
    decreases |shares|
  {
    if shares == [] then []
    else
      var n := 1 + Continuing(shares[1..]);
      [shares[..n]] + Runs(shares[n..])
  }

  function Blobs(group: NamespaceGroup): seq<seq<Share>> {
    if group.Sparse? then Runs(group.shares) else if group.shares == [] then [] else [group.shares]
  }

  /** One share followed by continuations only. */
  ghost predicate IsRun(run: seq<Share>) {
    run != [] && forall k :: 1 <= k < |run| ==> run[k].Continuation?
  }

  /** The shares cut, in order, into runs that cannot be made longer. */
  ghost predicate IsGrouping(runs: seq<seq<Share>>, shares: seq<Share>) {
    && Flat(runs) == shares
    && (forall i :: 0 <= i < |runs| ==> IsRun(runs[i]))
    && (forall i :: 1 <= i < |runs| ==> runs[i][0].Start?)
  }

  lemma {:induction false} ContinuingIs(shares: seq<Share>)
    ensures var n := Continuing(shares);
            && (forall k :: 0 <= k < n ==> shares[k].Continuation?)
            && (n < |shares| ==> shares[n].Start?)
  {
    if shares != [] && !shares[0].Start? {
      ContinuingIs(shares[1..]);
      assert forall k :: 0 < k < |shares| ==> shares[k] == shares[1..][k - 1];
    }
  }

  /** The first run: as long as it can be. */
  lemma FirstRun(shares: seq<Share>, n: nat)
    requires shares != [] && n == 1 + Continuing(shares[1..])
    ensures IsRun(shares[..n]) && (n < |shares| ==> shares[n].Start?)
  {
    ContinuingIs(shares[1..]);
    assert forall k :: 1 <= k < |shares| ==> shares[k] == shares[1..][k - 1];
  }

  lemma GroupingGrows(run: seq<Share>, rest: seq<seq<Share>>, shares: seq<Share>)
    requires IsRun(run) && IsGrouping(rest, shares) && (shares != [] ==> shares[0].Start?)
    ensures IsGrouping([run] + rest, run + shares)
  {
    var runs := [run] + rest;
    assert runs[1..] == rest;
    assert forall i :: 1 <= i < |runs| ==> runs[i] == rest[i - 1];
    if rest != [] {
      assert IsRun(rest[0]);
      FirstOfFlat(rest);
    }
  }

  /** Iterating groups the shares. */
  lemma {:induction false} RunsGroup(shares: seq<Share>)
    ensures IsGrouping(Runs(shares), shares)
    decreases |shares|
  {
    if shares != [] {
      var n := 1 + Continuing(shares[1..]);
      FirstRun(shares, n);
      RunsGroup(shares[n..]);
      GroupingGrows(shares[..n], Runs(shares[n..]), shares[n..]);
      assert shares == shares[..n] + shares[n..];
    }
  }

  lemma FirstOfFlat(runs: seq<seq<Share>>)
    requires runs != [] && runs[0] != []
    ensures Flat(runs) != [] && Flat(runs)[0] == runs[0][0]
  {
  }

  lemma {:induction false} ContinuingStops(a: seq<Share>, b: seq<Share>)
    requires (forall k :: 0 <= k < |a| ==> a[k].Continuation?) && (b != [] ==> b[0].Start?)
    ensures Continuing(a + b) == |a|
  {
    if a == [] {
      assert a + b == b;
    } else {
      assert (a + b)[1..] == a[1..] + b;
      ContinuingStops(a[1..], b);
    }
  }

  /** There is only one grouping. */
  lemma {:induction false} GroupingUnique(runs: seq<seq<Share>>, shares: seq<Share>)
    requires IsGrouping(runs, shares)
    ensures runs == Runs(shares)
    decreases |runs|
  {
    if runs != [] {
      var run, rest := runs[0], runs[1..];
      var n := |run|;
      assert IsRun(run) && shares == run + Flat(rest);
      if rest != [] {
        assert rest[0] == runs[1] && IsRun(runs[1]);
        FirstOfFlat(rest);
      }
      assert shares[1..] == run[1..] + Flat(rest);
      ContinuingStops(run[1..], Flat(rest));
      assert shares[..n] == run && shares[n..] == Flat(rest);
      assert IsGrouping(rest, shares[n..]);
      GroupingUnique(rest, shares[n..]);
      assert runs == [run] + rest;
    }
  }

  class NamespaceIterator {
    const group: NamespaceGroup
    var offset: nat

    ghost predicate Valid()
      reads this
    {
      offset <= |group.shares| && (group.Compact? ==> offset == 0 || offset == |group.shares|)
    }

    /** The blobs not yielded yet. */
    ghost function Left(): seq<seq<Share>>
      requires Valid()
      reads this
    {
      Blobs(if group.Sparse? then Sparse(group.shares[offset..]) else Compact(group.shares[offset..]))
    }

    constructor (group: NamespaceGroup)
      ensures Valid() && Left() == Blobs(group)
    {
      this.group, offset := group, 0;
    }

    method Next() returns (r: Option<seq<Share>>)
      requires Valid()
      modifies this
      ensures Valid()
      ensures r.None? ==> old(Left()) == [] && Left() == []
      ensures r.Some? ==> old(Left()) == [r.value] + Left()
    {
      var shares, start := group.shares, offset;
      if start == |shares| {
        r := None;
      } else if group.Compact? {
        offset := |shares|;
        r := Some(shares);
      } else {
        offset := NextStart(shares, start + 1);
        RunsStep(shares, start, offset);
        r := Some(shares[start..offset]);
      }
    }
  }

  /** The first sequence start from `from` on, or the end. */
  method NextStart(shares: seq<Share>, from: nat) returns (i: nat)
    requires from <= |shares|
    ensures from <= i <= |shares| && i - from == Continuing(shares[from..])
  {
    i := from;
    while i < |shares| && !shares[i].Start?
      invariant from <= i <= |shares|
      invariant Continuing(shares[from..]) == i - from + Continuing(shares[i..])
    {
      i := i + 1;
    }
  }

  lemma RunsStep(shares: seq<Share>, start: nat, end: nat)
    requires start < end <= |shares| && end - (start + 1) == Continuing(shares[start + 1..])
    ensures Runs(shares[start..]) == [shares[start..end]] + Runs(shares[end..])
  {
    assert shares[start..][1..] == shares[start + 1..];
    assert shares[start..][..end - start] == shares[start..end];
    assert shares[start..][end - start..] == shares[end..];
  }

  // ----- layout

  const FIRST_CONTENT: nat := SHARE_SIZE - NS_SIZE - INFO_BYTE_LEN - SEQUENCE_LENGTH_BYTES
  const CONTINUATION_CONTENT: nat := SHARE_SIZE - NS_SIZE - INFO_BYTE_LEN

  function SharesNeeded(n: nat): nat {
    if n == 0 then 0
    else if n <= FIRST_CONTENT then 1
    else SaturatingAdd(SaturatingAdd(n - FIRST_CONTENT, CONTINUATION_CONTENT - 1) / CONTINUATION_CONTENT, 1)
  }

  /** How many payload bytes `k` shares of one blob hold. */
  function Capacity(k: nat): nat {
    if k == 0 then 0 else FIRST_CONTENT + (k - 1) * CONTINUATION_CONTENT
  }

  /** The fewest shares that hold the payload, for every length a `usize` can hold: the saturating additions never
      change the count. */
  lemma SharesNeededIsLeast(n: nat, k: nat)
    requires n <= U64_MAX
    ensures k >= SharesNeeded(n) <==> Capacity(k) >= n
  {
    if n > FIRST_CONTENT && k > 0 {
      var rest := n - FIRST_CONTENT;
      assert SaturatingAdd(rest, CONTINUATION_CONTENT - 1) / CONTINUATION_CONTENT
          == (rest + CONTINUATION_CONTENT - 1) / CONTINUATION_CONTENT;
    }
  }

  const GAS_PER_BLOB_BYTE: nat := 8
  const FIXED_COST_SINGLE_BLOB: nat := 10 * 70 + 75_000

  function GasLimit(n: nat): nat {
    SaturatingAdd(SaturatingMul(SaturatingMul(SharesNeeded(n), SHARE_SIZE), GAS_PER_BLOB_BYTE), FIXED_COST_SINGLE_BLOB)
  }

  /** The gas limit pays for every byte of the fewest shares that hold the payload, and larger payloads never get a
      lower limit; it saturates only at the end. */
  lemma GasLimitPays(m: nat, n: nat)
    requires m <= n <= U64_MAX
    ensures GasLimit(m) <= GasLimit(n)
    ensures var cost := SharesNeeded(n) * SHARE_SIZE * GAS_PER_BLOB_BYTE + FIXED_COST_SINGLE_BLOB;
            GasLimit(n) == if cost > U64_MAX then U64_MAX else cost
  {
    SharesNeededIsLeast(m, SharesNeeded(n));
    SharesNeededIsLeast(n, SharesNeeded(n));
  }

  function WriteU32(n: nat): (b: Bytes)
    requires n < 0x1_0000_0000
    ensures |b| == 4
  {
    var high, low := n / 0x1_0000, n % 0x1_0000;
    [high / 0x100, high % 0x100, low / 0x100, low % 0x100]
  }

  lemma U32ReadsBack(n: nat)
    requires n < 0x1_0000_0000
    ensures ReadU32(WriteU32(n)) == n
  {
    var high, low := n / 0x1_0000, n % 0x1_0000;
    assert high == high / 0x100 * 0x100 + high % 0x100;
    assert low == low / 0x100 * 0x100 + low % 0x100;
  }

  function Padded(data: Bytes, size: nat): (r: Bytes)
    requires |data| <= size
    ensures |r| == size && data <= r
  {
    data + seq(size - |data|, _ => 0)
  }

  function Cut(payload: Bytes, size: nat): nat {
    if |payload| < size then |payload| else size
  }

  /** The reserved bytes of each share of a blob. */
  type Marks = nat -> Bytes

  const NO_MARKS: Marks := _ => []

  /** How many reserved bytes the shares of a namespace carry. */
  function Width(reserved: Reserved, ns: Bytes): (w: nat)
    ensures w <= RESERVED_BYTES_LEN
  {
    if reserved(ns) then RESERVED_BYTES_LEN else 0
  }

  ghost predicate Wide(marks: Marks, w: nat) {
    w <= RESERVED_BYTES_LEN && forall k: nat :: |marks(k)| == w
  }

  function FirstShare(ns: Bytes, mark: Bytes, payload: Bytes): Share
    requires |ns| == NS_SIZE && |mark| <= RESERVED_BYTES_LEN && |payload| < 0x1_0000_0000
  {
    var room := FIRST_CONTENT - |mark|;
    Start(ns + [1] + WriteU32(|payload|) + mark + Padded(payload[..Cut(payload, room)], room))
  }

  /** The shares from number `k` on. */
  function LaterShares(ns: Bytes, w: nat, marks: Marks, k: nat, payload: Bytes): seq<Share>
    requires |ns| == NS_SIZE && Wide(marks, w)
    decreases |payload|
  {
    if payload == [] then []
    else
      var room := CONTINUATION_CONTENT - w;
      var n := Cut(payload, room);
      [Continuation(ns + [0] + marks(k) + Padded(payload[..n], room))] + LaterShares(ns, w, marks, k + 1, payload[n..])
  }

  /** A payload laid out in shares: its length first, `w` reserved bytes before the content of each share, and zeros at
      the end. */
  function Encode(ns: Bytes, w: nat, marks: Marks, payload: Bytes): seq<Share>
    requires |ns| == NS_SIZE && Wide(marks, w) && |payload| < 0x1_0000_0000
  {
    [FirstShare(ns, marks(0), payload)] + LaterShares(ns, w, marks, 1, payload[Cut(payload, FIRST_CONTENT - w)..])
  }

  lemma DatasAppend(reserved: Reserved, a: seq<Share>, b: seq<Share>)
    requires WellSized(a) && WellSized(b)
    ensures WellSized(a + b) && Datas(reserved, a + b) == Datas(reserved, a) + Datas(reserved, b)
  {
    assert |Datas(reserved, a + b)| == |a| + |b|;
  }

  lemma ContinuationData(reserved: Reserved, ns: Bytes, mark: Bytes, data: Bytes)
    requires |ns| == NS_SIZE && |mark| == Width(reserved, ns) && |mark| + |data| == CONTINUATION_CONTENT
    ensures var s := Continuation(ns + [0] + mark + data);
            |s.raw| == SHARE_SIZE && Data(reserved, s) == data && NewShare(s.raw) == Some(s)
  {
    assert (ns + [0] + mark + data)[..NS_SIZE] == ns;
  }

  lemma StartData(reserved: Reserved, ns: Bytes, length: Bytes, mark: Bytes, data: Bytes)
    requires |ns| == NS_SIZE && |length| == 4 && |mark| == Width(reserved, ns) && |mark| + |data| == FIRST_CONTENT
    ensures var s := Start(ns + [1] + length + mark + data);
            && |s.raw| == SHARE_SIZE && Data(reserved, s) == data && NewShare(s.raw) == Some(s)
            && SequenceLength(s) == Ok(ReadU32(length)) && s.raw[..NS_SIZE] == ns
  {
    var raw := ns + [1] + length + mark + data;
    assert raw[..NS_SIZE] == ns;
    assert raw[NS_SIZE + INFO_BYTE_LEN..NS_SIZE + INFO_BYTE_LEN + SEQUENCE_LENGTH_BYTES] == length;
  }

  lemma {:induction false} LaterSharesCount(ns: Bytes, marks: Marks, k: nat, payload: Bytes)
    requires |ns| == NS_SIZE && Wide(marks, 0)
    ensures |LaterShares(ns, 0, marks, k, payload)| == (|payload| + CONTINUATION_CONTENT - 1) / CONTINUATION_CONTENT
    decreases |payload|
  {
    if payload != [] {
      LaterSharesCount(ns, marks, k + 1, payload[Cut(payload, CONTINUATION_CONTENT)..]);
    }
  }

  /** The shares hold the payload, padded, and parse back. */
  ghost predicate Hold(reserved: Reserved, shares: seq<Share>, payload: Bytes) {
    && WellSized(shares) && payload <= Flat(Datas(reserved, shares))
    && (forall k :: 0 <= k < |shares| ==> NewShare(shares[k].raw) == Some(shares[k]))
  }

  /** One share more in front holds `n` bytes more. */
  lemma HoldMore(reserved: Reserved, first: Share, data: Bytes, rest: seq<Share>, payload: Bytes, n: nat)
    requires |first.raw| == SHARE_SIZE && Data(reserved, first) == data && NewShare(first.raw) == Some(first)
    requires n <= |payload| && payload[..n] <= data && Hold(reserved, rest, payload[n..])
    requires n == |data| || n == |payload|
    ensures Hold(reserved, [first] + rest, payload)
  {
    DatasAppend(reserved, [first], rest);
    assert Datas(reserved, [first]) == [data];
    FlatFirst(data, Datas(reserved, rest));
    PrefixJoins(payload, n, data, Flat(Datas(reserved, rest)));
  }

  lemma {:induction false} LaterSharesHold(reserved: Reserved, ns: Bytes, w: nat, marks: Marks, k: nat, payload: Bytes)
    requires |ns| == NS_SIZE && Wide(marks, w) && w == Width(reserved, ns)
    ensures var later := LaterShares(ns, w, marks, k, payload);
            && Hold(reserved, later, payload)
            && (forall k :: 0 <= k < |later| ==> later[k].Continuation?)
    decreases |payload|
  {
    if payload != [] {
      var room := CONTINUATION_CONTENT - w;
      var n := Cut(payload, room);
      var data := Padded(payload[..n], room);
      var first, rest := Continuation(ns + [0] + marks(k) + data), LaterShares(ns, w, marks, k + 1, payload[n..]);
      ContinuationData(reserved, ns, marks(k), data);
      LaterSharesHold(reserved, ns, w, marks, k + 1, payload[n..]);
      HoldMore(reserved, first, data, rest, payload, n);
    }
  }

  lemma FlatFirst(data: Bytes, rest: seq<Bytes>)
    ensures Flat([data] + rest) == data + Flat(rest)
  {
    assert ([data] + rest)[1..] == rest;
  }

  /** A payload is spread over padded data: the padding is the end. */
  lemma PrefixJoins(payload: Bytes, n: nat, data: Bytes, rest: Bytes)
    requires n <= |payload| && payload[..n] <= data && payload[n..] <= rest
    requires n == |data| || n == |payload|
    ensures payload <= data + rest
  {
    if n == |payload| {
      assert payload[..n] == payload;
    } else {
      assert payload == payload[..n] + payload[n..];
    }
  }

  /** What a blob reads as: its data up to the declared length. */
  ghost function Readback(reserved: Reserved, blob: seq<Share>): Option<Bytes>
    requires WellSized(blob)
  {
    if blob == [] || SequenceLength(blob[0]).Err? then None
    else
      var data, n := Flat(Datas(reserved, blob)), SequenceLength(blob[0]).value;
      if n > |data| then None else Some(data[..n])
  }

  lemma EncodeHolds(reserved: Reserved, ns: Bytes, w: nat, marks: Marks, payload: Bytes)
    requires |ns| == NS_SIZE && Wide(marks, w) && w == Width(reserved, ns) && |payload| < 0x1_0000_0000
    ensures var shares := Encode(ns, w, marks, payload);
            Hold(reserved, shares, payload)
  {
    var room := FIRST_CONTENT - w;
    var n := Cut(payload, room);
    var length, data := WriteU32(|payload|), Padded(payload[..n], room);
    var first, later := FirstShare(ns, marks(0), payload), LaterShares(ns, w, marks, 1, payload[n..]);
    StartData(reserved, ns, length, marks(0), data);
    LaterSharesHold(reserved, ns, w, marks, 1, payload[n..]);
    HoldMore(reserved, first, data, later, payload, n);
  }

  lemma EncodeShape(reserved: Reserved, ns: Bytes, w: nat, marks: Marks, payload: Bytes)
    requires |ns| == NS_SIZE && Wide(marks, w) && w == Width(reserved, ns) && |payload| < 0x1_0000_0000
    ensures var shares := Encode(ns, w, marks, payload);
            && IsRun(shares) && shares[0].Start? && |shares[0].raw| == SHARE_SIZE && shares[0].raw[..NS_SIZE] == ns
            && SequenceLength(shares[0]) == Ok(|payload|)
  {
    var room := FIRST_CONTENT - w;
    var n := Cut(payload, room);
    U32ReadsBack(|payload|);
    StartData(reserved, ns, WriteU32(|payload|), marks(0), Padded(payload[..n], room));
    LaterSharesHold(reserved, ns, w, marks, 1, payload[n..]);
  }

  lemma EncodeCount(ns: Bytes, marks: Marks, payload: Bytes)
    requires |ns| == NS_SIZE && Wide(marks, 0) && |payload| < 0x1_0000_0000 && payload != []
    ensures |Encode(ns, 0, marks, payload)| == SharesNeeded(|payload|)
  {
    LaterSharesCount(ns, marks, 1, payload[Cut(payload, FIRST_CONTENT)..]);
  }

  /** A payload laid out in the shares of any namespace reads back. */
  lemma EncodeReads(reserved: Reserved, ns: Bytes, w: nat, marks: Marks, payload: Bytes)
    requires |ns| == NS_SIZE && Wide(marks, w) && w == Width(reserved, ns) && |payload| < 0x1_0000_0000
    ensures var shares := Encode(ns, w, marks, payload);
            && WellSized(shares) && Readback(reserved, shares) == Some(payload)
            && (forall k :: 0 <= k < |shares| ==> NewShare(shares[k].raw) == Some(shares[k]))
  {
    EncodeHolds(reserved, ns, w, marks, payload);
    EncodeShape(reserved, ns, w, marks, payload);
    assert Flat(Datas(reserved, Encode(ns, w, marks, payload)))[..|payload|] == payload;
  }

  /** In a reserved namespace all shares are one blob, and it reads back, whatever the reserved bytes are. */
  lemma CompactRoundTrip(reserved: Reserved, ns: Bytes, marks: Marks, payload: Bytes)
    requires |ns| == NS_SIZE && reserved(ns) && Wide(marks, RESERVED_BYTES_LEN) && |payload| < 0x1_0000_0000
    ensures var shares := Encode(ns, RESERVED_BYTES_LEN, marks, payload);
            && WellSized(shares) && shares != []
            && (forall k :: 0 <= k < |shares| ==> NewShare(shares[k].raw) == Some(shares[k]))
            && FromShares(reserved, shares) == Compact(shares) && Blobs(FromShares(reserved, shares)) == [shares]
            && Readback(reserved, shares) == Some(payload)
  {
    EncodeShape(reserved, ns, RESERVED_BYTES_LEN, marks, payload);
    EncodeReads(reserved, ns, RESERVED_BYTES_LEN, marks, payload);
  }

  ghost predicate Fits(payloads: seq<Bytes>) {
    forall k :: 0 <= k < |payloads| ==> |payloads[k]| < 0x1_0000_0000
  }

  ghost function EncodeAll(ns: Bytes, payloads: seq<Bytes>): seq<seq<Share>>
    requires |ns| == NS_SIZE && Fits(payloads)
  {
    seq(|payloads|, k requires 0 <= k < |payloads| => Encode(ns, 0, NO_MARKS, payloads[k]))
  }

  /** Any payloads, laid out in shares one after the other, read back through grouping, each from the fewest shares
      that hold it. */
  lemma RoundTrip(reserved: Reserved, ns: Bytes, payloads: seq<Bytes>)
    requires |ns| == NS_SIZE && !reserved(ns) && Fits(payloads)
    ensures var shares := Flat(EncodeAll(ns, payloads));
            && (shares != [] ==> |shares[0].raw| == SHARE_SIZE)
            && var blobs := Blobs(FromShares(reserved, shares));
            && |blobs| == |payloads|
            && (forall k :: 0 <= k < |blobs| ==>
                  && WellSized(blobs[k]) && Readback(reserved, blobs[k]) == Some(payloads[k])
                  && (payloads[k] != [] ==> |blobs[k]| == SharesNeeded(|payloads[k]|)))
  {
    var runs := EncodeAll(ns, payloads);
    forall k | 0 <= k < |payloads|
      ensures IsRun(runs[k]) && runs[k][0].Start? && |runs[k][0].raw| == SHARE_SIZE && runs[k][0].raw[..NS_SIZE] == ns
    {
      EncodeShape(reserved, ns, 0, NO_MARKS, payloads[k]);
    }
    if runs != [] {
      FirstOfFlat(runs);
    }
    GroupingUnique(runs, Flat(runs));
    forall k | 0 <= k < |payloads|
      ensures WellSized(runs[k]) && Readback(reserved, runs[k]) == Some(payloads[k])
              && (payloads[k] != [] ==> |runs[k]| == SharesNeeded(|payloads[k]|))
    {
      EncodeReads(reserved, ns, 0, NO_MARKS, payloads[k]);
      if payloads[k] != [] {
        EncodeCount(ns, NO_MARKS, payloads[k]);
      }
    }
  }

  // ----- reading with the iterators

  /** The blob starts a sequence, and its shares hold as much as it declares. */
  ghost predicate Intact(reserved: Reserved, blob: seq<Share>) {
    WellSized(blob) && Readback(reserved, blob).Some?
  }

  /** The reader of a blob, before its first byte. */
  ghost function Unopened(reserved: Reserved, blob: seq<Share>): View
    requires Intact(reserved, blob)
  {
    View(Datas(reserved, blob), SequenceLength(blob[0]).value, 0)
  }

  lemma ReadbackIsUnread(reserved: Reserved, blob: seq<Share>)
    requires Intact(reserved, blob)
    ensures var v := Unopened(reserved, blob);
            Readable(v) && Complete(v) && Readback(reserved, blob) == Some(Unread(v))
  {
  }

  /** What a blob reads as is what its readers yield, chunk after chunk. */
  lemma ReadbackIsDrained(reserved: Reserved, blob: seq<Share>)
    requires Intact(reserved, blob)
    ensures Readable(Unopened(reserved, blob))
    ensures Readback(reserved, blob) == Some(Drained(Unopened(reserved, blob)))
  {
    ReadbackIsUnread(reserved, blob);
    DrainYieldsAll(Unopened(reserved, blob));
  }

  /** Asking for the declared length at the start of a complete blob yields all of it. */
  lemma ReadsWhole(v: View)
    requires Readable(v) && Complete(v) && v.consumed == 0
    ensures Answers(v, Read(v.length)) == Shares.Bytes(Unread(v))
  {
    assert Unread(v)[..|Unread(v)|] == Unread(v);
  }

  ghost predicate ReadsAs(reserved: Reserved, blob: seq<Share>, payload: Bytes) {
    WellSized(blob) && Readback(reserved, blob) == Some(payload)
  }

  lemma CutIsDatas(reserved: Reserved, blob: seq<Share>, chunks: seq<Bytes>)
    requires WellSized(blob) && CutAs(reserved, blob, chunks)
    ensures chunks == Datas(reserved, blob)
  {
    forall k | 0 <= k < |chunks| ensures chunks[k] == Datas(reserved, blob)[k] {
      assert DataAt(reserved, blob, chunks, k);
    }
  }

  lemma UnreadReadsAs(reserved: Reserved, blob: seq<Share>, v: View, payload: Bytes)
    requires Intact(reserved, blob) && CutAs(reserved, blob, v.chunks)
    requires v.length == SequenceLength(blob[0]).value && v.consumed == 0
    requires Readable(v) && payload == Unread(v)
    ensures ReadsAs(reserved, blob, payload)
  {
    CutIsDatas(reserved, blob, v.chunks);
    ReadbackIsUnread(reserved, blob);
  }

  /** The owned reader of a blob. */
  method Open(reserved: Reserved, blob: seq<Share>) returns (reader: BlobIterator)
    requires Intact(reserved, blob)
    ensures fresh(reader) && reader.Valid() && Complete(reader.Model()) && reader.consumed == 0
    ensures CutAs(reserved, blob, reader.chunks) && reader.sequenceLen == SequenceLength(blob[0]).value
  {
    ReadbackIsUnread(reserved, blob);
    DatasCut(reserved, blob);
    reader := new BlobIterator(reserved, blob);
  }

  /** Reads a whole blob with the owned reader. */
  method ReadBlob(reserved: Reserved, blob: seq<Share>) returns (payload: Bytes)
    requires Intact(reserved, blob)
    ensures ReadsAs(reserved, blob, payload)
  {
    var reader := Open(reserved, blob);
    ghost var v := reader.Model();
    payload := ReadToEnd(reader);
    UnreadReadsAs(reserved, blob, v, payload);
  }

  /** Reads a complete blob from its start, in one buffer. */
  method ReadToEnd(reader: BlobIterator) returns (payload: Bytes)
    requires reader.Valid() && Complete(reader.Model()) && reader.consumed == 0
    modifies reader
    ensures payload == Unread(old(reader.Model()))
  {
    ReadsWhole(reader.Model());
    var buf := new Byte[reader.sequenceLen];
    var written := reader.ReadInto(buf);
    payload := buf[..written];
  }

  /** The blobs and what they read as, in order. */
  ghost predicate AllReadAs(reserved: Reserved, blobs: seq<seq<Share>>, payloads: seq<Bytes>) {
    |blobs| == |payloads| && forall k :: 0 <= k < |payloads| ==> ReadsAs(reserved, blobs[k], payloads[k])
  }

  /** The first blobs are read, and `left` are not. */
  ghost predicate Reading(reserved: Reserved, blobs: seq<seq<Share>>, payloads: seq<Bytes>, left: seq<seq<Share>>) {
    |payloads| <= |blobs| && blobs[|payloads|..] == left && AllReadAs(reserved, blobs[..|payloads|], payloads)
  }

  lemma ReadingNext(reserved: Reserved, blobs: seq<seq<Share>>, payloads: seq<Bytes>, blob: seq<Share>,
                    rest: seq<seq<Share>>)
    requires Reading(reserved, blobs, payloads, [blob] + rest)
    ensures |payloads| < |blobs| && blob in blobs
    ensures forall payload :: ReadsAs(reserved, blob, payload) ==> Reading(reserved, blobs, payloads + [payload], rest)
  {
    var n := |payloads|;
    assert |blobs[n..]| == 1 + |rest|;
    assert blobs[n] == blobs[n..][0] == blob;
    assert blobs[n + 1..] == blobs[n..][1..] == rest;
    forall payload | ReadsAs(reserved, blob, payload)
      ensures Reading(reserved, blobs, payloads + [payload], rest)
    {
      assert forall k :: 0 <= k < n ==> blobs[..n + 1][k] == blobs[..n][k];
    }
  }

  lemma ReadingDone(reserved: Reserved, blobs: seq<seq<Share>>, payloads: seq<Bytes>)
    requires Reading(reserved, blobs, payloads, [])
    ensures AllReadAs(reserved, blobs, payloads)
  {
    assert |blobs[|payloads|..]| == 0;
    assert blobs[..|payloads|] == blobs;
  }

  /** Reads every blob of a group. */
  method ReadAll(reserved: Reserved, group: NamespaceGroup) returns (payloads: seq<Bytes>)
    requires forall blob :: blob in Blobs(group) ==> Intact(reserved, blob)
    ensures AllReadAs(reserved, Blobs(group), payloads)
  {
    ghost var blobs := Blobs(group);
    payloads := [];
    var iter := new NamespaceIterator(group);
    assert blobs[0..] == blobs;
    while true
      invariant iter.Valid() && Reading(reserved, blobs, payloads, iter.Left())
      decreases |blobs| - |payloads|
    {
      var blob := iter.Next();
      if blob.None? {
        break;
      }
      ReadingNext(reserved, blobs, payloads, blob.value, iter.Left());
      var payload := ReadBlob(reserved, blob.value);
      payloads := payloads + [payload];
    }
    ReadingDone(reserved, blobs, payloads);
  }

  /** End to end: payloads laid out in shares come back out of the iterators. */
  method ReadBack(reserved: Reserved, shares: seq<Share>, ghost ns: Bytes, ghost payloads: seq<Bytes>)
    returns (read: seq<Bytes>)
    requires |ns| == NS_SIZE && !reserved(ns) && Fits(payloads) && shares == Flat(EncodeAll(ns, payloads))
    ensures read == payloads
  {
    RoundTrip(reserved, ns, payloads);
    ghost var blobs := Blobs(FromShares(reserved, shares));
    assert forall k :: 0 <= k < |blobs| ==> ReadsAs(reserved, blobs[k], payloads[k]);
    read := ReadAll(reserved, FromShares(reserved, shares));
    assert forall k :: 0 <= k < |blobs| ==> ReadsAs(reserved, blobs[k], read[k]) && read[k] == payloads[k];
  }

  /** End to end in a reserved namespace. */
  method ReadBackCompact(reserved: Reserved, shares: seq<Share>, ghost ns: Bytes, ghost marks: Marks,
                         ghost payload: Bytes)
    returns (read: seq<Bytes>)
    requires |ns| == NS_SIZE && reserved(ns) && Wide(marks, RESERVED_BYTES_LEN) && |payload| < 0x1_0000_0000
    requires shares == Encode(ns, RESERVED_BYTES_LEN, marks, payload)
    ensures read == [payload]
  {
    CompactRoundTrip(reserved, ns, marks, payload);
    read := ReadAll(reserved, FromShares(reserved, shares));
    assert ReadsAs(reserved, shares, read[0]);
  }
}
