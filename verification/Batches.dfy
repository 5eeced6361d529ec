/** What a batch should be: offer every transaction of the pool in the fair order, pass over those that do not
    fit in the space left, and include those that execute successfully. */
module Batches {
  import opened Wrappers
  import opened Basics
  import opened Mempool

  /** The checkpoint the transactions execute on. */
  type Checkpoint = nat

  datatype Receipt = Successful | Reverted | Skipped

  /** What processing one transaction yields. */
  datatype Processed = Applied(next: Checkpoint, receipt: Receipt, reward: nat) | Rejected

  /** The state transition function's treatment of a single transaction, of any kind. */
  type Processor = (Checkpoint, Tx) -> Processed

  datatype BatchError = ProcessingFailed | RewardOverflow | NoValidTxs | TxTooBig

  datatype Attempt = Attempt(tx: Tx, receipt: Receipt)

  /** A batch under construction: the attempts made, the transactions passed over, and what is left. */
  datatype Progress = Progress(log: seq<Attempt>, passed: seq<Tx>, free: nat, state: Checkpoint, reward: nat)

  function Start(maxSize: nat, state: Checkpoint): Progress {
    Progress([], [], maxSize, state, 0)
  }

  /** Executes a transaction that fits. */
  function Attempted(run: Processor, p: Progress, t: Tx): Result<Progress, BatchError>
    requires |t.bytes| <= p.free
  {
    match run(p.state, t)
    case Rejected => Err(ProcessingFailed)
    case Applied(next, receipt, reward) =>
      if p.reward + reward > U64_MAX then Err(RewardOverflow)
      else Ok(Progress(p.log + [Attempt(t, receipt)], p.passed,
                       if receipt == Successful then p.free - |t.bytes| else p.free, next, p.reward + reward))
  }

  function Offered(run: Processor, p: Progress, t: Tx): Result<Progress, BatchError> {
    if |t.bytes| > p.free then Ok(p.(passed := p.passed + [t])) else Attempted(run, p, t)
  }

  function Fill(run: Processor, p: Progress, txs: seq<Tx>): Result<Progress, BatchError>
    decreases |txs|
  {
    if txs == [] then Ok(p)
    else
      match Offered(run, p, txs[0])
      case Err(e) => Err(e)
      case Ok(p') => Fill(run, p', txs[1..])
  }

  function Included(log: seq<Attempt>): seq<Tx> {
    if log == [] then []
    else
      var last := log[|log| - 1];
      Included(log[..|log| - 1]) + if last.receipt == Successful then [last.tx] else []
  }

  function Failed(log: seq<Attempt>): seq<Tx> {
    if log == [] then []
    else
      var last := log[|log| - 1];
      Failed(log[..|log| - 1]) + if last.receipt == Successful then [] else [last.tx]
  }

  function SizeOf(txs: seq<Tx>): nat {
    if txs == [] then 0 else SizeOf(txs[..|txs| - 1]) + |txs[|txs| - 1].bytes|
  }

  // ----- the fair order

  ghost predicate Ahead(a: Tx, b: Tx) {
    Before(CursorOf(a), CursorOf(b))
  }

  ghost predicate Ordered(txs: seq<Tx>) {
    forall i, j :: 0 <= i < j < |txs| ==> Ahead(txs[i], txs[j])
  }

  /** All transactions of the pool, largest first and then oldest first. */
  ghost predicate FairOrder(txs: seq<Tx>, pool: Pool) {
    Ordered(txs) && forall t :: t in txs <==> Held(pool, t)
  }

  lemma {:induction false} FairOrderExists(pool: Pool) returns (txs: seq<Tx>)
    requires Persisted(pool)
    ensures FairOrder(txs, pool)
    decreases |pool|
  {
    if pool == map[] {
      txs := [];
    } else {
      var t := FirstOf(pool);
      var rest := pool - {t.hash};
      assert Persisted(rest) by {
        forall g, h | g in rest && h in rest && g != h ensures IdsDiffer(rest, g, h) {
          assert IdsDiffer(pool, g, h);
        }
      }
      var tail := FairOrderExists(rest);
      txs := [t] + tail;
      forall u ensures u in txs <==> Held(pool, u) {
        assert u in txs <==> u == t || u in tail;
        assert u in tail <==> Held(rest, u);
      }
      forall j | 0 < j < |txs| ensures Ahead(t, txs[j]) {
        assert txs[j] in tail && Held(rest, txs[j]);
        assert IdsDiffer(pool, t.hash, txs[j].hash);
      }
    }
  }

  lemma FirstOf(pool: Pool) returns (t: Tx)
    requires Persisted(pool) && pool != map[]
    ensures Held(pool, t) && forall h :: h in pool ==> !Ahead(pool[h], t)
  {
    var cursors := set h | h in pool :: CursorOf(pool[h]);
    var h :| h in pool;
    assert CursorOf(pool[h]) in cursors;
    var c := First(cursors);
    var k :| k in pool && CursorOf(pool[k]) == c;
    t := pool[k];
  }

  lemma HeadLeads(a: seq<Tx>, t: Tx)
    requires Ordered(a) && t in a
    ensures t == a[0] || Ahead(a[0], t)
  {
    var i :| 0 <= i < |a| && a[i] == t;
  }

  lemma NothingIn(a: seq<Tx>, b: seq<Tx>)
    requires forall t :: t in b ==> t in a
    ensures a == [] ==> b == []
  {
    if b != [] {
      assert b[0] in a;
    }
  }

  /** There is only one fair order. */
  lemma {:induction false} FairOrderUnique(a: seq<Tx>, b: seq<Tx>)
    requires Ordered(a) && Ordered(b) && forall t :: t in a <==> t in b
    ensures a == b
  {
    if a == [] || b == [] {
      NothingIn(a, b);
      NothingIn(b, a);
    } else {
      HeadLeads(a, b[0]);
      HeadLeads(b, a[0]);
      forall t ensures t in a[1..] <==> t in b[1..] {
        TailHas(a, t);
        TailHas(b, t);
      }
      FairOrderUnique(a[1..], b[1..]);
      assert a == [a[0]] + a[1..] && b == [b[0]] + b[1..];
    }
  }

  lemma TailHas(a: seq<Tx>, t: Tx)
    requires Ordered(a) && a != []
    ensures t in a[1..] <==> t in a && t != a[0]
  {
    if t in a && t != a[0] {
      var k :| 0 <= k < |a| && a[k] == t;
      assert a[1..][k - 1] == t;
    }
    if t in a[1..] {
      var k :| 0 <= k < |a[1..]| && a[1..][k] == t;
      assert Ahead(a[0], a[k + 1]);
    }
  }

  // ----- what a filled batch is

  /** Where executing the attempted transactions one after the other leads, if each has the receipt on record. */
  function Reached(run: Processor, state: Checkpoint, log: seq<Attempt>): Option<Checkpoint> {
    if log == [] then Some(state)
    else
      var last, mid := log[|log| - 1], Reached(run, state, log[..|log| - 1]);
      if mid.None? then None
      else
        var r := run(mid.value, last.tx);
        if r.Applied? && r.receipt == last.receipt then Some(r.next) else None
  }

  /** The rewards of executing the attempted transactions one after the other, all together. */
  function Rewards(run: Processor, state: Checkpoint, log: seq<Attempt>): nat {
    if log == [] then 0
    else
      var last, before := log[|log| - 1], log[..|log| - 1];
      var mid := Reached(run, state, before);
      Rewards(run, state, before)
      + if mid.Some? && run(mid.value, last.tx).Applied? then run(mid.value, last.tx).reward else 0
  }

  /** The three sequences together are `done`, in some order. */
  ghost predicate Parts(a: seq<Tx>, b: seq<Tx>, c: seq<Tx>, done: seq<Tx>) {
    multiset(a) + multiset(b) + multiset(c) == multiset(done)
  }

  lemma PartsGrow(a: seq<Tx>, b: seq<Tx>, c: seq<Tx>, done: seq<Tx>, t: Tx)
    requires Parts(a, b, c, done)
    ensures Parts(a + [t], b, c, done + [t]) && Parts(a, b + [t], c, done + [t]) && Parts(a, b, c + [t], done + [t])
    ensures multiset(a) <= multiset(done)
  {
  }

  /** Each transaction offered was included, failed or passed over; the included ones are in order, and those passed
      over are larger than the space left. */
  ghost predicate Divided(maxSize: nat, done: seq<Tx>, included: seq<Tx>, failed: seq<Tx>, passed: seq<Tx>, free: nat) {
    && Parts(included, failed, passed, done) && Ordered(included) && SizeOf(included) + free == maxSize
    && (forall t :: t in passed ==> |t.bytes| > free)
  }

  /** Executing the attempts leads to `now`, and earns `reward`. */
  ghost predicate Ran(run: Processor, state: Checkpoint, log: seq<Attempt>, now: Checkpoint, reward: nat) {
    Reached(run, state, log) == Some(now) && reward == Rewards(run, state, log) <= U64_MAX
  }

  /** Of a batch under construction that was offered `done`: its attempts are what executing them yields, and the
      transactions offered are divided as they should be. */
  ghost predicate Sound(run: Processor, maxSize: nat, state: Checkpoint, done: seq<Tx>, p: Progress) {
    && Ran(run, state, p.log, p.state, p.reward)
    && Divided(maxSize, done, Included(p.log), Failed(p.log), p.passed, p.free)
  }

  lemma InMultiset(a: seq<Tx>, b: seq<Tx>)
    requires multiset(a) <= multiset(b)
    ensures forall t :: t in a ==> t in b
  {
    forall t | t in a ensures t in b {
      assert t in multiset(a);
    }
  }

  lemma OrderedLast(a: seq<Tx>, done: seq<Tx>, t: Tx)
    requires Ordered(a) && Ordered(done + [t]) && multiset(a) <= multiset(done)
    ensures Ordered(a + [t])
  {
    InMultiset(a, done);
    forall i | 0 <= i < |a| ensures Ahead(a[i], t) {
      assert a[i] in a;
      var k :| 0 <= k < |done| && done[k] == a[i];
      assert (done + [t])[k] == a[i] && (done + [t])[|done|] == t;
    }
  }

  lemma LogGrows(log: seq<Attempt>, last: Attempt)
    ensures last.receipt == Successful ==>
              && Included(log + [last]) == Included(log) + [last.tx] && Failed(log + [last]) == Failed(log)
              && SizeOf(Included(log + [last])) == SizeOf(Included(log)) + |last.tx.bytes|
    ensures last.receipt != Successful ==>
              Included(log + [last]) == Included(log) && Failed(log + [last]) == Failed(log) + [last.tx]
  {
    assert (log + [last])[..|log|] == log;
    var included := Included(log);
    assert (included + [last.tx])[..|included|] == included;
  }

  lemma ReachedGrows(run: Processor, state: Checkpoint, log: seq<Attempt>, last: Attempt)
    requires Reached(run, state, log).Some?
    ensures var r := run(Reached(run, state, log).value, last.tx);
            && (r.Applied? && r.receipt == last.receipt ==> Reached(run, state, log + [last]) == Some(r.next))
            && (r.Applied? ==> Rewards(run, state, log + [last]) == Rewards(run, state, log) + r.reward)
  {
    assert (log + [last])[..|log|] == log;
  }

  lemma IncludedDivides(maxSize: nat, done: seq<Tx>, included: seq<Tx>, failed: seq<Tx>, passed: seq<Tx>,
    free: nat, t: Tx)
    requires Divided(maxSize, done, included, failed, passed, free) && Ordered(done + [t]) && |t.bytes| <= free
    ensures Divided(maxSize, done + [t], included + [t], failed, passed, free - |t.bytes|)
  {
    PartsGrow(included, failed, passed, done, t);
    OrderedLast(included, done, t);
    assert (included + [t])[..|included|] == included;
  }

  lemma FailedDivides(maxSize: nat, done: seq<Tx>, included: seq<Tx>, failed: seq<Tx>, passed: seq<Tx>,
    free: nat, t: Tx)
    requires Divided(maxSize, done, included, failed, passed, free)
    ensures Divided(maxSize, done + [t], included, failed + [t], passed, free)
  {
    PartsGrow(included, failed, passed, done, t);
  }

  lemma PassedDivides(maxSize: nat, done: seq<Tx>, included: seq<Tx>, failed: seq<Tx>, passed: seq<Tx>,
    free: nat, t: Tx)
    requires Divided(maxSize, done, included, failed, passed, free) && |t.bytes| > free
    ensures Divided(maxSize, done + [t], included, failed, passed + [t], free)
  {
    PartsGrow(included, failed, passed, done, t);
  }

  lemma RanMore(run: Processor, state: Checkpoint, log: seq<Attempt>, now: Checkpoint, reward: nat, last: Attempt)
    requires Ran(run, state, log, now, reward)
    requires var r := run(now, last.tx); r.Applied? && r.receipt == last.receipt && reward + r.reward <= U64_MAX
    ensures var r := run(now, last.tx); Ran(run, state, log + [last], r.next, reward + r.reward)
  {
    ReachedGrows(run, state, log, last);
  }

  lemma AttemptDivides(maxSize: nat, done: seq<Tx>, log: seq<Attempt>, passed: seq<Tx>, free: nat, last: Attempt)
    requires Divided(maxSize, done, Included(log), Failed(log), passed, free)
    requires Ordered(done + [last.tx]) && |last.tx.bytes| <= free
    ensures Divided(maxSize, done + [last.tx], Included(log + [last]), Failed(log + [last]), passed,
                    if last.receipt == Successful then free - |last.tx.bytes| else free)
  {
    LogGrows(log, last);
    if last.receipt == Successful {
      IncludedDivides(maxSize, done, Included(log), Failed(log), passed, free, last.tx);
    } else {
      FailedDivides(maxSize, done, Included(log), Failed(log), passed, free, last.tx);
    }
  }

  lemma AttemptedSound(run: Processor, maxSize: nat, state: Checkpoint, done: seq<Tx>, p: Progress, t: Tx)
    requires Sound(run, maxSize, state, done, p) && Ordered(done + [t]) && |t.bytes| <= p.free
    requires Attempted(run, p, t).Ok?
    ensures Sound(run, maxSize, state, done + [t], Attempted(run, p, t).value)
  {
    var last := Attempt(t, run(p.state, t).receipt);
    RanMore(run, state, p.log, p.state, p.reward, last);
    AttemptDivides(maxSize, done, p.log, p.passed, p.free, last);
  }

  lemma PassedSound(run: Processor, maxSize: nat, state: Checkpoint, done: seq<Tx>, p: Progress, t: Tx)
    requires Sound(run, maxSize, state, done, p) && |t.bytes| > p.free
    ensures Sound(run, maxSize, state, done + [t], p.(passed := p.passed + [t]))
  {
    PassedDivides(maxSize, done, Included(p.log), Failed(p.log), p.passed, p.free, t);
  }

  lemma OfferedSound(run: Processor, maxSize: nat, state: Checkpoint, done: seq<Tx>, p: Progress, t: Tx)
    requires Sound(run, maxSize, state, done, p) && Ordered(done + [t]) && Offered(run, p, t).Ok?
    ensures Sound(run, maxSize, state, done + [t], Offered(run, p, t).value)
  {
    if |t.bytes| > p.free {
      PassedSound(run, maxSize, state, done, p, t);
    } else {
      AttemptedSound(run, maxSize, state, done, p, t);
    }
  }

  lemma OrderedPart(done: seq<Tx>, rest: seq<Tx>)
    requires Ordered(done + rest) && rest != []
    ensures Ordered(done + [rest[0]]) && done + rest == (done + [rest[0]]) + rest[1..]
  {
    assert forall k :: 0 <= k <= |done| ==> (done + [rest[0]])[k] == (done + rest)[k];
  }

  lemma {:induction false} FillSound(run: Processor, maxSize: nat, state: Checkpoint, done: seq<Tx>, p: Progress,
                                     rest: seq<Tx>)
    requires Sound(run, maxSize, state, done, p) && Ordered(done + rest) && Fill(run, p, rest).Ok?
    ensures Sound(run, maxSize, state, done + rest, Fill(run, p, rest).value)
    decreases |rest|
  {
    if rest == [] {
      assert done + rest == done;
    } else {
      var t := rest[0];
      OrderedPart(done, rest);
      OfferedSound(run, maxSize, state, done, p, t);
      FillSound(run, maxSize, state, done + [t], Offered(run, p, t).value, rest[1..]);
    }
  }

  lemma {:induction false} OrderedOnce(txs: seq<Tx>, t: Tx)
    requires Ordered(txs) && t in txs
    ensures multiset(txs)[t] == 1
  {
    assert txs == [txs[0]] + txs[1..];
    TailHas(txs, t);
    if t == txs[0] {
      assert t !in multiset(txs[1..]);
    } else {
      OrderedOnce(txs[1..], t);
    }
  }

  lemma StartSound(run: Processor, maxSize: nat, state: Checkpoint)
    ensures Sound(run, maxSize, state, [], Start(maxSize, state))
  {
    var none: seq<Attempt> := [];
    assert Included(none) == [] && Failed(none) == [];
  }

  lemma FilledSound(run: Processor, maxSize: nat, state: Checkpoint, txs: seq<Tx>)
    requires Ordered(txs) && Fill(run, Start(maxSize, state), txs).Ok?
    ensures Sound(run, maxSize, state, txs, Fill(run, Start(maxSize, state), txs).value)
  {
    StartSound(run, maxSize, state);
    assert [] + txs == txs;
    FillSound(run, maxSize, state, [], Start(maxSize, state), txs);
  }

  lemma SoundOnce(run: Processor, maxSize: nat, state: Checkpoint, txs: seq<Tx>, p: Progress, t: Tx)
    requires Sound(run, maxSize, state, txs, p) && Ordered(txs) && t in txs
    ensures multiset(Included(p.log))[t] + multiset(Failed(p.log))[t] + multiset(p.passed)[t] == 1
  {
    OrderedOnce(txs, t);
  }

  /** The batch of a pool. Every transaction of the pool is exactly one of: included, tried and failed, or larger
      than the space left. The included ones are in the fair order and within the size limit, and the attempts are
      those of executing them one after the other. */
  lemma BatchIsMaximal(run: Processor, maxSize: nat, state: Checkpoint, pool: Pool, txs: seq<Tx>, p: Progress, t: Tx)
    requires FairOrder(txs, pool) && Fill(run, Start(maxSize, state), txs) == Ok(p) && Held(pool, t)
    ensures multiset(Included(p.log))[t] + multiset(Failed(p.log))[t] + multiset(p.passed)[t] == 1
    ensures t in p.passed ==> |t.bytes| > p.free
    ensures SizeOf(Included(p.log)) + p.free == maxSize
    ensures Ordered(Included(p.log)) && Reached(run, state, p.log) == Some(p.state)
    ensures p.reward == Rewards(run, state, p.log) <= U64_MAX
  {
    FilledSound(run, maxSize, state, txs);
    SoundOnce(run, maxSize, state, txs, p, t);
  }

  /** Nothing is in a batch that was not in the pool. */
  lemma BatchFromPool(run: Processor, maxSize: nat, state: Checkpoint, pool: Pool, txs: seq<Tx>, p: Progress)
    requires FairOrder(txs, pool) && Fill(run, Start(maxSize, state), txs) == Ok(p)
    ensures forall t :: t in Included(p.log) ==> Held(pool, t)
    ensures Ordered(Included(p.log))
  {
    FilledSound(run, maxSize, state, txs);
    InMultiset(Included(p.log), txs);
  }

  // ----- when there is no batch

  /** After the attempts `log`, a transaction that fits is the end of the batch: it is rejected, or its reward makes
      the sum overflow. */
  ghost predicate Breaks(run: Processor, maxSize: nat, state: Checkpoint, log: seq<Attempt>, t: Tx, e: BatchError) {
    && SizeOf(Included(log)) + |t.bytes| <= maxSize && Reached(run, state, log).Some?
    && var r := run(Reached(run, state, log).value, t);
    match e
    case ProcessingFailed => r.Rejected?
    case RewardOverflow => r.Applied? && Rewards(run, state, log) + r.reward > U64_MAX
    case _ => false
  }

  /** Offering the `k` first transactions works, and the next one breaks the batch. */
  ghost predicate BreaksAt(run: Processor, maxSize: nat, state: Checkpoint, txs: seq<Tx>, k: nat, e: BatchError) {
    && k < |txs|
    && var before := Fill(run, Start(maxSize, state), txs[..k]);
    before.Ok? && Breaks(run, maxSize, state, before.value.log, txs[k], e)
  }

  lemma {:induction false} FillAppend(run: Processor, p: Progress, a: seq<Tx>, b: seq<Tx>)
    ensures match Fill(run, p, a)
            case Err(e) => Fill(run, p, a + b) == Err(e)
            case Ok(q) => Fill(run, p, a + b) == Fill(run, q, b)
    decreases |a|
  {
    if a == [] {
      assert a + b == b;
    } else {
      assert (a + b)[0] == a[0] && (a + b)[1..] == a[1..] + b;
      if Offered(run, p, a[0]).Ok? {
        FillAppend(run, Offered(run, p, a[0]).value, a[1..], b);
      }
    }
  }

  /** A transaction is refused exactly if it breaks the batch. */
  lemma OfferedErrsIff(run: Processor, maxSize: nat, state: Checkpoint, done: seq<Tx>, p: Progress, t: Tx,
                       e: BatchError)
    requires Sound(run, maxSize, state, done, p)
    ensures Offered(run, p, t) == Err(e) <==> Breaks(run, maxSize, state, p.log, t, e)
  {
  }

  lemma OrderedPrefix(txs: seq<Tx>, k: nat)
    requires Ordered(txs) && k <= |txs|
    ensures Ordered(txs[..k])
  {
  }

  /** Offering one transaction after those before it. */
  lemma FillOne(run: Processor, maxSize: nat, state: Checkpoint, txs: seq<Tx>, k: nat)
    requires k < |txs| && Fill(run, Start(maxSize, state), txs[..k]).Ok?
    ensures Fill(run, Start(maxSize, state), txs[..k + 1]) ==
            Offered(run, Fill(run, Start(maxSize, state), txs[..k]).value, txs[k])
  {
    assert txs[..k + 1] == txs[..k] + [txs[k]];
    FillAppend(run, Start(maxSize, state), txs[..k], [txs[k]]);
    var p := Fill(run, Start(maxSize, state), txs[..k]).value;
    assert [txs[k]][0] == txs[k] && [txs[k]][1..] == [];
    assert Fill(run, p, [txs[k]]) == Offered(run, p, txs[k]);
  }

  /** Which transaction breaks the batch, if any of the `n` first does. */
  lemma {:induction false} FillBreaks(run: Processor, maxSize: nat, state: Checkpoint, txs: seq<Tx>, n: nat)
    returns (k: nat)
    requires Ordered(txs) && n <= |txs| && Fill(run, Start(maxSize, state), txs[..n]).Err?
    ensures BreaksAt(run, maxSize, state, txs, k, Fill(run, Start(maxSize, state), txs[..n]).error)
    decreases n
  {
    k := n - 1;
    var before := Fill(run, Start(maxSize, state), txs[..k]);
    if before.Err? {
      assert txs[..n] == txs[..k] + [txs[k]];
      FillAppend(run, Start(maxSize, state), txs[..k], [txs[k]]);
      k := FillBreaks(run, maxSize, state, txs, k);
    } else {
      OrderedPrefix(txs, k);
      FilledSound(run, maxSize, state, txs[..k]);
      FillOne(run, maxSize, state, txs, k);
      OfferedErrsIff(run, maxSize, state, txs[..k], before.value, txs[k],
                     Fill(run, Start(maxSize, state), txs[..n]).error);
    }
  }

  /** Exactly when a pool has no batch, and why: some transaction, offered after those before it and small enough, is
      rejected in the state they reached, or its reward and theirs exceed 64 bits. Transactions that fail otherwise
      never stand in the way. */
  lemma FillErrsIff(run: Processor, maxSize: nat, state: Checkpoint, txs: seq<Tx>, e: BatchError)
    requires Ordered(txs)
    ensures Fill(run, Start(maxSize, state), txs) == Err(e) <==>
            exists k: nat :: BreaksAt(run, maxSize, state, txs, k, e)
  {
    assert txs[..|txs|] == txs;
    if Fill(run, Start(maxSize, state), txs) == Err(e) {
      var k := FillBreaks(run, maxSize, state, txs, |txs|);
    }
    forall k: nat | BreaksAt(run, maxSize, state, txs, k, e) ensures Fill(run, Start(maxSize, state), txs) == Err(e) {
      OrderedPrefix(txs, k);
      FilledSound(run, maxSize, state, txs[..k]);
      var p := Fill(run, Start(maxSize, state), txs[..k]).value;
      OfferedErrsIff(run, maxSize, state, txs[..k], p, txs[k], e);
      FillOne(run, maxSize, state, txs, k);
      assert txs == txs[..k + 1] + txs[k + 1..];
      FillAppend(run, Start(maxSize, state), txs[..k + 1], txs[k + 1..]);
    }
  }

  function Tried(log: seq<Attempt>): (r: seq<Tx>)
    ensures |r| == |log| && forall k {:trigger r[k]} :: 0 <= k < |log| ==> r[k] == log[k].tx
  {
    seq(|log|, k requires 0 <= k < |log| => log[k].tx)
  }

  /** The attempts are of some of the transactions, in their order. */
  ghost predicate TriedFrom(log: seq<Attempt>, txs: seq<Tx>) {
    Ordered(Tried(log)) && forall t :: t in Tried(log) ==> t in txs
  }

  lemma TriedMore(log: seq<Attempt>, done: seq<Tx>, t: Tx, receipt: Receipt)
    requires TriedFrom(log, done) && Ordered(done + [t])
    ensures TriedFrom(log, done + [t]) && TriedFrom(log + [Attempt(t, receipt)], done + [t])
  {
    var a, b := Tried(log), Tried(log + [Attempt(t, receipt)]);
    assert b == a + [t];
    forall i | 0 <= i < |a| ensures Ahead(a[i], t) {
      assert a[i] in done;
      var k :| 0 <= k < |done| && done[k] == a[i];
      assert (done + [t])[k] == a[i] && (done + [t])[|done|] == t;
    }
  }

  lemma {:induction false} FillTried(run: Processor, maxSize: nat, state: Checkpoint, txs: seq<Tx>, k: nat)
    requires Ordered(txs) && k <= |txs| && Fill(run, Start(maxSize, state), txs[..k]).Ok?
    ensures TriedFrom(Fill(run, Start(maxSize, state), txs[..k]).value.log, txs[..k])
    decreases k
  {
    if k > 0 {
      var before := Fill(run, Start(maxSize, state), txs[..k - 1]);
      assert txs[..k] == txs[..k - 1] + [txs[k - 1]];
      FillAppend(run, Start(maxSize, state), txs[..k - 1], [txs[k - 1]]);
      FillTried(run, maxSize, state, txs, k - 1);
      FillOne(run, maxSize, state, txs, k - 1);
      OrderedPrefix(txs, k);
      var r := run(before.value.state, txs[k - 1]);
      TriedMore(before.value.log, txs[..k - 1], txs[k - 1], if r.Applied? then r.receipt else Skipped);
    }
  }

  /** A pool has a batch if none of its transactions is ever rejected and no transactions of it, tried in their order,
      earn more than 64 bits can hold. */
  lemma BatchExists(run: Processor, maxSize: nat, state: Checkpoint, pool: Pool, txs: seq<Tx>)
    requires FairOrder(txs, pool) && forall c, t :: Held(pool, t) ==> run(c, t).Applied?
    requires forall log :: TriedFrom(log, txs) && Reached(run, state, log).Some? ==> Rewards(run, state, log) <= U64_MAX
    ensures Fill(run, Start(maxSize, state), txs).Ok?
  {
    var r := Fill(run, Start(maxSize, state), txs);
    if r.Err? {
      FillErrsIff(run, maxSize, state, txs, r.error);
      var k: nat :| BreaksAt(run, maxSize, state, txs, k, r.error);
      var log, t := Fill(run, Start(maxSize, state), txs[..k]).value.log, txs[k];
      assert t in txs && Held(pool, t);
      var receipt := run(Reached(run, state, log).value, t).receipt;
      FillTried(run, maxSize, state, txs, k);
      assert txs[..k] + [t] == txs[..k + 1];
      OrderedPrefix(txs, k + 1);
      TriedMore(log, txs[..k], t, receipt);
      ReachedGrows(run, state, log, Attempt(t, receipt));
      assert TriedFrom(log + [Attempt(t, receipt)], txs);
      assert false;
    }
  }

  /** Transactions larger than the space left are all passed over. */
  lemma {:induction false} PassAll(run: Processor, p: Progress, large: seq<Tx>, rest: seq<Tx>)
    requires forall t :: t in large ==> |t.bytes| > p.free
    ensures Fill(run, p, large + rest) == Fill(run, p.(passed := p.passed + large), rest)
    decreases |large|
  {
    if large == [] {
      assert large + rest == rest && p.passed + large == p.passed;
    } else {
      assert (large + rest)[1..] == large[1..] + rest;
      assert p.passed + large == (p.passed + [large[0]]) + large[1..];
      PassAll(run, p.(passed := p.passed + [large[0]]), large[1..], rest);
    }
  }
}
