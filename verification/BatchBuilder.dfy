/** The batch builder: walks the mempool with a cursor that jumps over what cannot fit. */
module BatchBuilder {
  import opened Wrappers
  import opened Basics
  import opened Mempool
  import opened Batches

  function Later(a: Cursor, b: Cursor): Cursor {
    if Before(a, b) then b else a
  }

  /** The transactions of `txs` after the cursor are those from `k` on. */
  ghost predicate CutAt(txs: seq<Tx>, cursor: Cursor, k: nat) {
    && k <= |txs|
    && (forall i :: 0 <= i < k ==> !Before(cursor, CursorOf(txs[i])))
    && (forall i :: k <= i < |txs| ==> Before(cursor, CursorOf(txs[i])))
  }

  /** An ordered sequence is cut by every cursor. */
  lemma {:induction false} Cut(txs: seq<Tx>, cursor: Cursor) returns (k: nat)
    requires Ordered(txs)
    ensures CutAt(txs, cursor, k)
  {
    if txs == [] || Before(cursor, CursorOf(txs[0])) {
      k := 0;
      forall i | 0 < i < |txs| ensures Before(cursor, CursorOf(txs[i])) {
        assert Ahead(txs[0], txs[i]);
      }
    } else {
      k := Cut(txs[1..], cursor);
      k := k + 1;
      assert forall i :: 0 < i < |txs| ==> txs[i] == txs[1..][i - 1];
    }
  }

  /** Between two positions of the cursor lies what is larger than the space the later one stands for. */
  lemma JumpedAreLarge(txs: seq<Tx>, cursor: Cursor, k: nat, free: nat, k': nat)
    requires CutAt(txs, cursor, k) && CutAt(txs, Later(cursor, Cursor(free, 0)), k')
    requires forall t :: t in txs ==> t.id >= 1
    ensures k <= k' && forall t :: t in txs[k..k'] ==> |t.bytes| > free
  {
    assert k' < |txs| ==> Before(Later(cursor, Cursor(free, 0)), CursorOf(txs[k']));
    forall i | k <= i < k' ensures |txs[i].bytes| > free {
      assert txs[i] in txs && Before(cursor, CursorOf(txs[i]));
    }
  }

  /** Moving the cursor forward passes over transactions that are larger than the space it stands for. */
  lemma Jump(run: Processor, txs: seq<Tx>, cursor: Cursor, k: nat, p: Progress) returns (k': nat)
    requires Ordered(txs) && CutAt(txs, cursor, k)
    requires forall t :: t in txs ==> t.id >= 1
    ensures k <= k' && CutAt(txs, Later(cursor, Cursor(p.free, 0)), k')
    ensures Fill(run, p, txs[k..]) == Fill(run, p.(passed := p.passed + txs[k..k']), txs[k'..])
  {
    k' := Cut(txs, Later(cursor, Cursor(p.free, 0)));
    JumpedAreLarge(txs, cursor, k, p.free, k');
    SliceApart(txs, k, k');
    PassAll(run, p, txs[k..k'], txs[k'..]);
  }

  lemma SliceApart<T>(s: seq<T>, i: nat, j: nat)
    requires i <= j <= |s|
    ensures s[i..] == s[i..j] + s[j..]
  {
  }

  /** What the cursor yields is the next transaction of the fair order. */
  lemma YieldsNext(txs: seq<Tx>, pool: Pool, byId: map<nat, Tx>, byFit: map<Cursor, Tx>, cursor: Cursor, k: nat,
                   c: Cursor)
    requires FairOrder(txs, pool) && Indexed(pool, byId, byFit) && CutAt(txs, cursor, k)
    requires c in byFit && Before(cursor, c) && forall d :: d in byFit && Before(cursor, d) ==> !Before(d, c)
    ensures k < |txs| && txs[k] == byFit[c] && CursorOf(txs[k]) == c
  {
    FitHasAll(txs, pool, byId, byFit);
    assert Held(pool, byFit[c]);
    var m :| 0 <= m < |txs| && txs[m] == byFit[c];
    forall i | 0 <= i < m ensures Ahead(txs[i], txs[m]) {
    }
  }

  lemma FitHasAll(txs: seq<Tx>, pool: Pool, byId: map<nat, Tx>, byFit: map<Cursor, Tx>)
    requires FairOrder(txs, pool) && Indexed(pool, byId, byFit)
    ensures forall i :: 0 <= i < |txs| ==> CursorOf(txs[i]) in byFit
  {
    forall i | 0 <= i < |txs| ensures CursorOf(txs[i]) in byFit {
      assert txs[i] in txs && Held(pool, txs[i]);
      assert HashAt(pool, byId, byFit, txs[i].hash);
    }
  }

  lemma YieldsNothing(txs: seq<Tx>, pool: Pool, byId: map<nat, Tx>, byFit: map<Cursor, Tx>, cursor: Cursor, k: nat)
    requires FairOrder(txs, pool) && Indexed(pool, byId, byFit) && CutAt(txs, cursor, k)
    requires forall c :: c in byFit ==> !Before(cursor, c)
    ensures k == |txs|
  {
    FitHasAll(txs, pool, byId, byFit);
    if |txs| > 0 {
      assert !Before(cursor, CursorOf(txs[|txs| - 1]));
    }
  }

  lemma Advance(txs: seq<Tx>, cursor: Cursor, k: nat)
    requires Ordered(txs) && k < |txs| && CutAt(txs, cursor, k)
    ensures CutAt(txs, CursorOf(txs[k]), k + 1)
  {
    forall i | 0 <= i < k ensures !Before(CursorOf(txs[k]), CursorOf(txs[i])) {
      assert Ahead(txs[i], txs[k]);
    }
    forall i | k < i < |txs| ensures Before(CursorOf(txs[k]), CursorOf(txs[i])) {
      assert Ahead(txs[k], txs[i]);
    }
  }

  lemma IdsPositive(txs: seq<Tx>, pool: Pool, byId: map<nat, Tx>, byFit: map<Cursor, Tx>, next: nat)
    requires FairOrder(txs, pool) && Indexed(pool, byId, byFit) && InUse(byId.Keys, next)
    ensures forall t :: t in txs ==> t.id >= 1
  {
    IndexedPersisted(pool, byId, byFit, next);
    assert forall t :: t in txs ==> Held(pool, t);
  }

  /** The first cursor stands before the first transaction that fits at all. */
  lemma Begin(run: Processor, txs: seq<Tx>, maxSize: nat, state: Checkpoint) returns (p: Progress, k: nat)
    requires Ordered(txs) && forall t :: t in txs ==> t.id >= 1
    ensures CutAt(txs, Cursor(maxSize, 0), k) && p == Start(maxSize, state).(passed := p.passed)
    ensures Fill(run, p, txs[k..]) == Fill(run, Start(maxSize, state), txs)
  {
    k := Cut(txs, Cursor(maxSize, 0));
    p := Start(maxSize, state).(passed := txs[..k]);
    forall t | t in txs[..k] ensures |t.bytes| > maxSize {
      var i :| 0 <= i < k && txs[i] == t;
      assert !Before(Cursor(maxSize, 0), CursorOf(txs[i]));
    }
    assert txs[..k] + txs[k..] == txs && [] + txs[..k] == txs[..k];
    PassAll(run, Start(maxSize, state), txs[..k], txs[k..]);
  }

  /** One turn of the loop: the transaction at the cursor fits, and after it is tried, the cursor stands before the
      next transaction that could fit. */
  lemma Turn(run: Processor, txs: seq<Tx>, cursor: Cursor, k: nat, p: Progress, receipt: Receipt, q: Progress)
    returns (p': Progress, k': nat)
    requires Ordered(txs) && k < |txs| && CutAt(txs, cursor, k) && forall t :: t in txs ==> t.id >= 1
    requires |txs[k].bytes| <= p.free && !Before(cursor, Cursor(p.free, 0))
    requires Attempted(run, p, txs[k]) == Ok(q) && q.log == p.log + [Attempt(txs[k], receipt)]
    ensures var c := CursorOf(txs[k]);
            var cursor' := if receipt == Successful then Later(c, Cursor(q.free, 0)) else c;
            k < k' && CutAt(txs, cursor', k') && !Before(cursor', Cursor(p'.free, 0))
    ensures p' == q.(passed := p'.passed) && Fill(run, p, txs[k..]) == Fill(run, p', txs[k'..])
    ensures Included(p'.log) == Included(p.log) + if receipt == Successful then [txs[k]] else []
  {
    Advance(txs, cursor, k);
    LogGrows(p.log, Attempt(txs[k], receipt));
    assert txs[k..][0] == txs[k] && txs[k..][1..] == txs[k + 1..];
    if receipt == Successful {
      k' := Jump(run, txs, CursorOf(txs[k]), k + 1, q);
      p' := q.(passed := q.passed + txs[k + 1..k']);
    } else {
      p', k' := q, k + 1;
    }
  }

  function HashesOf(txs: seq<Tx>): (r: seq<Hash>)
    ensures |r| == |txs| && forall i :: 0 <= i < |txs| ==> r[i] == txs[i].hash
  {
    seq(|txs|, i requires 0 <= i < |txs| => txs[i].hash)
  }

  lemma DistinctHashes(txs: seq<Tx>, pool: Pool)
    requires Ordered(txs) && forall t :: t in txs ==> Held(pool, t)
    ensures var hs := HashesOf(txs);
            && (forall h :: h in hs ==> h in pool)
            && (forall i, j :: 0 <= i < j < |hs| ==> hs[i] != hs[j])
  {
    forall i, j | 0 <= i < j < |txs| ensures txs[i].hash != txs[j].hash {
      assert Ahead(txs[i], txs[j]) && Held(pool, txs[i]) && Held(pool, txs[j]);
    }
    forall i | 0 <= i < |txs| ensures txs[i].hash in pool {
      assert Held(pool, txs[i]);
    }
  }

  /** What a call for the next batch owes, for the fair order `txs` of the pool it started from. */
  ghost predicate BatchOf(run: Processor, maxSize: nat, state: Checkpoint, txs: seq<Tx>, pool: Pool, pool': Pool,
                          r: Result<seq<Tx>, BatchError>)
  {
    match Fill(run, Start(maxSize, state), txs)
    case Err(e) => r == Err(e) && pool' == pool && exists k: nat :: BreaksAt(run, maxSize, state, txs, k, e)
    case Ok(p) =>
      var batch := Included(p.log);
      r == (if batch == [] then Err(NoValidTxs) else Ok(batch)) && pool' == pool - Elements(HashesOf(batch))
  }

  /** What the loop keeps up to date. */
  datatype Context = Context(size: nat, state: Checkpoint, reward: nat)

  ghost predicate Matches(maxSize: nat, ctx: Context, p: Progress) {
    && ctx.size <= maxSize && p.free == maxSize - ctx.size && p.state == ctx.state && p.reward == ctx.reward
  }

  /** How far the walk got: the cursor, the context and the batch so far. */
  datatype Walk = Walk(cursor: Cursor, ctx: Context, included: seq<Tx>)

  ghost predicate Walking(maxSize: nat, txs: seq<Tx>, w: Walk, k: nat, p: Progress) {
    && Matches(maxSize, w.ctx, p) && Included(p.log) == w.included
    && CutAt(txs, w.cursor, k) && !Before(w.cursor, Cursor(p.free, 0))
  }

  /** After an attempt: a successful one takes space, and the cursor moves to what can still fit. */
  function Moved(maxSize: nat, w: Walk, item: (Cursor, Tx), ctx: Context, receipt: Receipt): Walk
    requires ctx.size + |item.1.bytes| <= maxSize
  {
    if receipt == Successful then
      var size := ctx.size + |item.1.bytes|;
      Walk(Later(item.0, Cursor(maxSize - size, 0)), ctx.(size := size), w.included + [item.1])
    else Walk(item.0, ctx, w.included)
  }

  /** The transaction right after a cursor that stands for the free space fits in it. */
  lemma CandidateFits(txs: seq<Tx>, cursor: Cursor, k: nat, free: nat)
    requires k < |txs| && CutAt(txs, cursor, k) && !Before(cursor, Cursor(free, 0))
    ensures |txs[k].bytes| <= free
  {
  }

  lemma FillNext(run: Processor, txs: seq<Tx>, k: nat, p: Progress)
    requires k < |txs| && |txs[k].bytes| <= p.free
    ensures match Attempted(run, p, txs[k])
            case Err(e) => Fill(run, p, txs[k..]) == Err(e)
            case Ok(q) => Fill(run, p, txs[k..]) == Fill(run, q, txs[k + 1..])
  {
    assert txs[k..][0] == txs[k] && txs[k..][1..] == txs[k + 1..];
  }

  class FairBatchBuilder {
    const mempool: FairMempool
    const maxSize: nat

    constructor (mempool: FairMempool, maxSize: nat)
      ensures this.mempool == mempool && this.maxSize == maxSize
    {
      this.mempool, this.maxSize := mempool, maxSize;
    }

    /** Rejects what could never fit in a batch. */
    method AcceptTx(raw: seq<bv8>, hash: Hash) returns (r: Result<Hash, BatchError>)
      requires mempool.Valid()
      modifies mempool
      ensures mempool.Valid()
      ensures r == if |raw| > maxSize then Err(TxTooBig) else Ok(hash)
      ensures r.Err? || hash in old(mempool.byHash) ==> mempool.byHash == old(mempool.byHash)
      ensures r.Ok? && mempool.maxCount > 0 ==> hash in mempool.byHash
      ensures r.Ok? && hash !in old(mempool.byHash) ==>
                IsNewest(old(mempool.byHash)[hash := Tx(raw, hash, old(mempool.nextId))], mempool.maxCount,
                         mempool.byHash)
    {
      if |raw| > maxSize {
        return Err(TxTooBig);
      }
      var t := mempool.AddNewTx(hash, raw);
      return Ok(hash);
    }

    /** Nothing if the transaction does not fit; otherwise its receipt and the new context. */
    method TryAddTxToBatch(run: Processor, t: Tx, ctx: Context, ghost p: Progress)
      returns (r: Result<Option<Receipt>, BatchError>, ctx': Context)
      requires Matches(maxSize, ctx, p)
      ensures r == Ok(None) <==> |t.bytes| > p.free
      ensures |t.bytes| <= p.free ==>
                match Attempted(run, p, t)
                case Err(e) => r == Err(e)
                case Ok(q) =>
                  && r.Ok? && r.value.Some? && q.log == p.log + [Attempt(t, r.value.value)]
                  && ctx' == Context(ctx.size, q.state, q.reward)
      ensures |t.bytes| <= p.free ==>
                (r.Err? <==> run(ctx.state, t).Rejected? || ctx.reward + run(ctx.state, t).reward > U64_MAX)
      ensures r.Ok? && r.value.Some? ==>
                var done := run(ctx.state, t);
                r.value.value == done.receipt && ctx' == Context(ctx.size, done.next, ctx.reward + done.reward)
    {
      ctx' := ctx;
      if ctx.size + |t.bytes| > maxSize {
        return Ok(None), ctx;
      }
      match run(ctx.state, t)
      case Rejected =>
        return Err(ProcessingFailed), ctx;
      case Applied(next, receipt, reward) =>
        ctx' := ctx.(state := next);
        if ctx.reward + reward > U64_MAX {
          return Err(RewardOverflow), ctx';
        }
        return Ok(Some(receipt)), ctx'.(reward := ctx.reward + reward);
    }

    /** The cursor yields the transactions in the fair order. */
    method Peek(cursor: Cursor, ghost txs: seq<Tx>, ghost k: nat) returns (item: Option<(Cursor, Tx)>)
      requires mempool.Agrees() && FairOrder(txs, mempool.byHash) && CutAt(txs, cursor, k)
      ensures item.None? ==> k == |txs|
      ensures item.Some? ==> k < |txs| && item.value == (CursorOf(txs[k]), txs[k])
    {
      item := mempool.Next(cursor);
      if item.Some? {
        YieldsNext(txs, mempool.byHash, mempool.byId, mempool.byFit, cursor, k, item.value.0);
      } else {
        YieldsNothing(txs, mempool.byHash, mempool.byId, mempool.byFit, cursor, k);
      }
    }

    /** One turn of the walk. The transaction at the cursor fits, so there is always an attempt. */
    method TryNext(run: Processor, item: (Cursor, Tx), w: Walk, ghost txs: seq<Tx>, ghost k: nat, ghost p: Progress)
      returns (r: Result<Option<Walk>, BatchError>, ghost p': Progress, ghost k': nat)
      requires Ordered(txs) && (forall t :: t in txs ==> t.id >= 1)
      requires k < |txs| && item == (CursorOf(txs[k]), txs[k]) && Walking(maxSize, txs, w, k, p)
      ensures r != Ok(None)
      ensures r.Err? ==> Fill(run, p, txs[k..]) == Err(r.error)
      ensures r.Ok? ==> k < k' && Walking(maxSize, txs, r.value.value, k', p')
      ensures r.Ok? ==> Fill(run, p, txs[k..]) == Fill(run, p', txs[k'..])
    {
      p', k' := p, k;
      var t := item.1;
      CandidateFits(txs, w.cursor, k, p.free);
      FillNext(run, txs, k, p);
      var receipt, ctx := TryAddTxToBatch(run, t, w.ctx, p);
      if receipt.Err? {
        r := Err(receipt.error);
      } else if receipt.value.None? {
        r := Ok(None);
      } else {
        p', k' := Turn(run, txs, w.cursor, k, p, receipt.value.value, Attempted(run, p, t).value);
        r := Ok(Some(Moved(maxSize, w, item, ctx, receipt.value.value)));
      }
    }

    /** Walks the mempool, and yields exactly the batch of the pool: offering every transaction in the fair order. */
    method Collect(run: Processor, state: Checkpoint, ghost txs: seq<Tx>)
      returns (r: Result<seq<Tx>, BatchError>)
      requires mempool.Valid() && FairOrder(txs, mempool.byHash)
      ensures match Fill(run, Start(maxSize, state), txs)
              case Err(e) => r == Err(e)
              case Ok(p) => r == Ok(Included(p.log))
    {
      IdsPositive(txs, mempool.byHash, mempool.byId, mempool.byFit, mempool.nextId);
      var w := Walk(Cursor(maxSize, 0), Context(0, state, 0), []);
      ghost var p, k := Begin(run, txs, maxSize, state);
      var item := Peek(w.cursor, txs, k);
      while item.Some?
        invariant Walking(maxSize, txs, w, k, p)
        invariant Fill(run, p, txs[k..]) == Fill(run, Start(maxSize, state), txs)
        invariant item.None? ==> k == |txs|
        invariant item.Some? ==> k < |txs| && item.value == (CursorOf(txs[k]), txs[k])
        decreases |txs| - k
      {
        var attempt;
        attempt, p, k := TryNext(run, item.value, w, txs, k, p);
        if attempt.Err? {
          return Err(attempt.error);
        }
        if attempt.value.None? {
          break;
        }
        w := attempt.value.value;
        item := Peek(w.cursor, txs, k);
      }
      return Ok(w.included);
    }

    /** The next batch is the batch of the pool, and exactly its transactions leave the mempool. An error leaves the
        mempool as it was. */
    method GetNextBlob(run: Processor, state: Checkpoint) returns (r: Result<seq<Tx>, BatchError>)
      requires mempool.Valid()
      modifies mempool
      ensures mempool.Valid()
      ensures forall txs :: FairOrder(txs, old(mempool.byHash)) ==>
                BatchOf(run, maxSize, state, txs, old(mempool.byHash), mempool.byHash, r)
    {
      ghost var pool := mempool.byHash;
      IndexedPersisted(pool, mempool.byId, mempool.byFit, mempool.nextId);
      ghost var txs := FairOrderExists(pool);
      forall other | FairOrder(other, pool) ensures other == txs {
        assert forall t :: t in other <==> Held(pool, t);
        FairOrderUnique(other, txs);
      }
      r := Collect(run, state, txs);
      if r.Err? {
        FillErrsIff(run, maxSize, state, txs, r.error);
      } else {
        BatchFromPool(run, maxSize, state, pool, txs, Fill(run, Start(maxSize, state), txs).value);
        DistinctHashes(r.value, pool);
        mempool.RemoveAtomically(HashesOf(r.value));
        if r.value == [] {
          r := Err(NoValidTxs);
        }
      }
    }
  }
}
