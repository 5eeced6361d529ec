/** The sequencer's mempool: one set of transactions, kept in three indices and a database. */
module Mempool {
  import opened Wrappers
  import opened Basics

  type Hash = nat

  datatype Tx = Tx(bytes: seq<bv8>, hash: Hash, id: nat)

  type Pool = map<Hash, Tx>

  /** A position in the order transactions are offered in. Id 0 is before every transaction of its size. */
  datatype Cursor = Cursor(size: nat, id: nat)

  /** From largest to smallest, and by least recent to most recent after that. */
  predicate Before(a: Cursor, b: Cursor) {
    a.size > b.size || (a.size == b.size && a.id < b.id)
  }

  function CursorOf(t: Tx): Cursor {
    Cursor(|t.bytes|, t.id)
  }

  ghost predicate IdsDiffer(pool: Pool, g: Hash, h: Hash) {
    g in pool && h in pool && pool[g].id != pool[h].id
  }

  /** Transactions under their hash, with distinct ids; id 0 is reserved. */
  ghost predicate Persisted(pool: Pool) {
    && (forall h :: h in pool ==> pool[h].hash == h && pool[h].id >= 1)
    && (forall g, h {:trigger IdsDiffer(pool, g, h)} :: g in pool && h in pool && g != h ==> IdsDiffer(pool, g, h))
  }

  // ----- eviction

  ghost predicate Within(kept: Pool, all: Pool) {
    forall h :: h in kept ==> h in all && kept[h] == all[h]
  }

  ghost predicate Older(all: Pool, h: Hash, g: Hash) {
    h in all && g in all && all[h].id < all[g].id
  }

  /** `kept` are the `k` newest transactions of `all`, or all of them when there are fewer. */
  ghost predicate IsNewest(all: Pool, k: nat, kept: Pool) {
    && Within(kept, all) && |kept| == (if |all| < k then |all| else k)
    && (forall g, h {:trigger Older(all, h, g)} :: g in kept && h in all && h !in kept ==> Older(all, h, g))
  }

  lemma SubPool(all: Pool, kept: Pool)
    requires Within(kept, all)
    ensures |kept| <= |all| && (|kept| == |all| ==> kept == all)
  {
    SubsetSize(kept.Keys, all.Keys);
  }

  lemma {:induction false} SubsetSize<T>(a: set<T>, b: set<T>)
    requires a <= b
    ensures |a| <= |b| && (|a| == |b| ==> a == b)
  {
    if a != {} {
      var x :| x in a;
      SubsetSize(a - {x}, b - {x});
    }
  }

  /** The newest transactions are one set, however they were found. */
  lemma NewestUnique(all: Pool, k: nat, a: Pool, b: Pool)
    requires IsNewest(all, k, a) && IsNewest(all, k, b)
    ensures a == b
  {
    if forall h :: h in a ==> h in b {
      SubPool(b, a);
    } else {
      var h :| h in a && h !in b;
      forall g | g in b ensures g in a {
        assert g !in a ==> Older(all, g, h);
        assert Older(all, h, g);
      }
      SubPool(a, b);
    }
  }

  /** Keeping the newest of what is there, then adding one and keeping the newest again, is keeping the newest of
      everything. */
  lemma NewestStep(all: Pool, k: nat, kept: Pool, t: Tx, kept': Pool)
    requires t.hash !in all && IsNewest(all, k, kept) && IsNewest(kept[t.hash := t], k, kept')
    ensures IsNewest(all[t.hash := t], k, kept')
  {
    SubPool(all, kept);
    forall g, h | g in kept' && h in all[t.hash := t] && h !in kept'
      ensures Older(all[t.hash := t], h, g)
    {
      NewestOrder(all, k, kept, t, kept', g, h);
    }
  }

  lemma NewestOrder(all: Pool, k: nat, kept: Pool, t: Tx, kept': Pool, g: Hash, h: Hash)
    requires t.hash !in all && IsNewest(all, k, kept) && IsNewest(kept[t.hash := t], k, kept')
    requires g in kept' && h in all[t.hash := t] && h !in kept'
    ensures Older(all[t.hash := t], h, g)
  {
    var mid := kept[t.hash := t];
    assert g in mid;
    assert h in mid ==> Older(mid, h, g);
    assert h in all && h !in kept && g in kept ==> Older(all, h, g);
    if h !in mid && g == t.hash {
      if |kept| < k {
        SubPool(all, kept);
        assert false;
      }
      var x := OldestLeaves(kept, k, t, kept');
      assert Older(all, h, x) && Older(mid, x, g);
    }
  }

  /** When the pool was full, adding one drops one. */
  lemma OldestLeaves(kept: Pool, k: nat, t: Tx, kept': Pool) returns (x: Hash)
    requires t.hash !in kept && |kept| == k && IsNewest(kept[t.hash := t], k, kept') && t.hash in kept'
    ensures x in kept && x !in kept'
  {
    assert kept[t.hash := t].Keys == kept.Keys + {t.hash};
    if kept.Keys + {t.hash} <= kept'.Keys {
      SubsetSize(kept.Keys + {t.hash}, kept'.Keys);
      assert false;
    }
    x :| x in kept && x !in kept';
  }

  /** A transaction newer than all others is kept, unless nothing may be. */
  lemma NewestKept(all: Pool, k: nat, kept: Pool, h: Hash)
    requires IsNewest(all, k, kept) && k > 0 && h in all
    requires forall g :: g in all && g != h ==> all[g].id < all[h].id
    ensures h in kept
  {
    assert all.Keys != {} && kept.Keys != {};
    var g :| g in kept;
    assert h !in kept ==> Older(all, h, g);
  }

  lemma NewestOfAll(all: Pool, k: nat, kept: Pool, t: Tx)
    requires IsNewest(all, k, kept) && t.hash in all && all[t.hash] == t
    requires forall g :: g in all && g != t.hash ==> all[g].id < t.id
    ensures k > 0 ==> t.hash in kept && kept[t.hash] == t
    ensures all - (all.Keys - kept.Keys) == kept && |kept| <= k
  {
    if k > 0 {
      NewestKept(all, k, kept, t.hash);
    }
    KeptIs(all, kept);
  }

  lemma {:induction false} LeastOf(s: set<nat>) returns (m: nat)
    requires s != {}
    ensures m in s && forall x :: x in s ==> m <= x
  {
    var a :| a in s;
    m := a;
    if s != {a} {
      var rest := LeastOf(s - {a});
      m := if rest < a then rest else a;
      assert forall x :: x in s ==> x == a || x in s - {a};
    }
  }

  lemma {:induction false} GreatestOf(s: set<nat>) returns (m: nat)
    requires s != {}
    ensures m in s && forall x :: x in s ==> x <= m
  {
    var a :| a in s;
    m := a;
    if s != {a} {
      var rest := GreatestOf(s - {a});
      m := if rest > a then rest else a;
      assert forall x :: x in s ==> x == a || x in s - {a};
    }
  }

  /** The first of some cursors. */
  lemma {:induction false} First(s: set<Cursor>) returns (c: Cursor)
    requires s != {}
    ensures c in s && forall d :: d in s ==> !Before(d, c)
  {
    var a :| a in s;
    c := a;
    if s != {a} {
      var rest := First(s - {a});
      c := if Before(rest, a) then rest else a;
      assert forall d :: d in s ==> d == a || d in s - {a};
    }
  }

  // ----- the mempool

  /** One turn of a restart: what was read so far, what is kept of it, and what the database still holds. */
  lemma OneMoreAdded(all: Pool, todo: set<Hash>, done: Pool, k: nat, kept: Pool, kept': Pool, h: Hash)
    requires h in todo && todo <= all.Keys && done == all - todo && IsNewest(done, k, kept)
    requires IsNewest(kept[h := all[h]], k, kept') && all[h].hash == h
    ensures var done', db := done[h := all[h]], all - (done.Keys - kept.Keys);
            && done' == all - (todo - {h}) && IsNewest(done', k, kept')
            && db[h := all[h]] - (kept[h := all[h]].Keys - kept'.Keys) == all - (done'.Keys - kept'.Keys)
  {
    NewestStep(done, k, kept, all[h], kept');
    Rest(all, todo, h);
    Dropped(all, done, kept, kept', h);
  }

  ghost predicate InUse(ids: set<nat>, next: nat) {
    forall i :: i in ids ==> 1 <= i < next
  }

  lemma KeptIs(all: Pool, kept: Pool)
    requires Within(kept, all)
    ensures all - (all.Keys - kept.Keys) == kept
  {
  }

  lemma DropOne(db: Pool, all: Pool, kept: Pool, h: Hash)
    requires h in all && h in kept && Within(kept, all)
    ensures (db - (all.Keys - kept.Keys)) - {h} == db - (all.Keys - (kept - {h}).Keys)
  {
  }

  /** The database after one more transaction was read and some were evicted. */
  lemma Dropped(all: Pool, done: Pool, kept: Pool, kept': Pool, h: Hash)
    requires h in all && h !in done && Within(kept, done) && Within(done, all)
    requires forall g :: g in kept' ==> g in kept || g == h
    ensures var db := all - (done.Keys - kept.Keys);
            db[h := all[h]] - (kept[h := all[h]].Keys - kept'.Keys) == all - (done[h := all[h]].Keys - kept'.Keys)
  {
  }

  lemma Rest(all: Pool, todo: set<Hash>, h: Hash)
    requires h in todo && h in all
    ensures all - (todo - {h}) == (all - todo)[h := all[h]]
  {
  }

  lemma InUseMore(ids: set<nat>, next: nat, ids': set<nat>)
    requires InUse(ids, next) && ids' <= ids + {next} && next >= 1
    ensures InUse(ids', next + 1)
  {
  }

  ghost predicate HashAt(byHash: Pool, byId: map<nat, Tx>, byFit: map<Cursor, Tx>, h: Hash)
    requires h in byHash
  {
    var t := byHash[h];
    && t.hash == h && t.id in byId && byId[t.id] == t && CursorOf(t) in byFit && byFit[CursorOf(t)] == t
  }

  ghost predicate Held(byHash: Pool, t: Tx) {
    t.hash in byHash && byHash[t.hash] == t
  }

  /** The indices hold the same transactions, each under its own key. */
  ghost predicate Indexed(byHash: Pool, byId: map<nat, Tx>, byFit: map<Cursor, Tx>) {
    && (forall h {:trigger HashAt(byHash, byId, byFit, h)} :: h in byHash ==> HashAt(byHash, byId, byFit, h))
    && (forall i {:trigger Held(byHash, byId[i])} :: i in byId ==> byId[i].id == i && Held(byHash, byId[i]))
    && (forall c {:trigger Held(byHash, byFit[c])} ::
          c in byFit ==> CursorOf(byFit[c]) == c && Held(byHash, byFit[c]))
  }

  lemma IndexedRemove(byHash: Pool, byId: map<nat, Tx>, byFit: map<Cursor, Tx>, h: Hash)
    requires Indexed(byHash, byId, byFit) && h in byHash
    ensures var t := byHash[h]; Indexed(byHash - {h}, byId - {t.id}, byFit - {CursorOf(t)})
  {
    var t := byHash[h];
    assert HashAt(byHash, byId, byFit, h);
    var byHash', byId', byFit' := byHash - {h}, byId - {t.id}, byFit - {CursorOf(t)};
    forall g | g in byHash' ensures HashAt(byHash', byId', byFit', g) {
      assert HashAt(byHash, byId, byFit, g);
    }
    forall i | i in byId' ensures byId'[i].id == i && Held(byHash', byId'[i]) {
      assert Held(byHash, byId[i]);
    }
    forall c | c in byFit' ensures CursorOf(byFit'[c]) == c && Held(byHash', byFit'[c]) {
      assert Held(byHash, byFit[c]);
    }
  }

  lemma IndexedAdd(byHash: Pool, byId: map<nat, Tx>, byFit: map<Cursor, Tx>, t: Tx)
    requires Indexed(byHash, byId, byFit) && t.hash !in byHash && t.id !in byId
    ensures Indexed(byHash[t.hash := t], byId[t.id := t], byFit[CursorOf(t) := t])
  {
    var byHash', byId', byFit' := byHash[t.hash := t], byId[t.id := t], byFit[CursorOf(t) := t];
    forall g | g in byHash' ensures HashAt(byHash', byId', byFit', g) {
      assert g in byHash ==> HashAt(byHash, byId, byFit, g);
    }
    forall i | i in byId' ensures byId'[i].id == i && Held(byHash', byId'[i]) {
      assert i in byId ==> Held(byHash, byId[i]);
    }
    forall c | c in byFit' ensures CursorOf(byFit'[c]) == c && Held(byHash', byFit'[c]) {
      assert c in byFit ==> Held(byHash, byFit[c]);
    }
  }

  /** The transaction with the least id is older than all others. */
  lemma OldestIs(byHash: Pool, byId: map<nat, Tx>, byFit: map<Cursor, Tx>, id: nat)
    requires Indexed(byHash, byId, byFit) && id in byId && forall j :: j in byId ==> id <= j
    ensures Held(byHash, byId[id]) && byId[id].id == id
    ensures forall g :: g in byHash && g != byId[id].hash ==> id < byHash[g].id
  {
    assert Held(byHash, byId[id]);
    forall g | g in byHash && g != byId[id].hash ensures id < byHash[g].id {
      assert HashAt(byHash, byId, byFit, g);
    }
  }

  lemma SomeId(byHash: Pool, byId: map<nat, Tx>, byFit: map<Cursor, Tx>)
    requires Indexed(byHash, byId, byFit) && byHash != map[]
    ensures byId.Keys != {}
  {
    var h :| h in byHash;
    assert HashAt(byHash, byId, byFit, h);
  }

  lemma UnusedId(byHash: Pool, byId: map<nat, Tx>, byFit: map<Cursor, Tx>, all: Pool, h: Hash)
    requires Indexed(byHash, byId, byFit) && Persisted(all) && h in all && h !in byHash
    requires Within(byHash, all)
    ensures all[h].id !in byId
  {
    forall g | g in byHash ensures byHash[g].id != all[h].id {
      assert IdsDiffer(all, g, h);
    }
    assert all[h].id in byId ==> Held(byHash, byId[all[h].id]);
  }

  /** What a mempool holds could be its database. */
  lemma IndexedPersisted(byHash: Pool, byId: map<nat, Tx>, byFit: map<Cursor, Tx>, next: nat)
    requires Indexed(byHash, byId, byFit) && InUse(byId.Keys, next)
    ensures Persisted(byHash) && forall h :: h in byHash ==> byHash[h].id < next
  {
    forall h | h in byHash
      ensures byHash[h].hash == h && byHash[h].id in byId && byId[byHash[h].id] == byHash[h]
    {
      assert HashAt(byHash, byId, byFit, h);
    }
  }

  /** The database holds the same transactions, at most `maxCount`, with ids in use so far. */
  ghost predicate Stored(db: Pool, byHash: Pool, byId: map<nat, Tx>, next: nat, maxCount: nat) {
    db == byHash && |byHash| <= maxCount && next >= 1 && InUse(byId.Keys, next)
  }

  /** Adding a transaction under the next id and keeping the newest. */
  lemma Admitted(pool: Pool, byId: map<nat, Tx>, byFit: map<Cursor, Tx>, next: nat, t: Tx, maxCount: nat, db': Pool,
                 pool': Pool, byId': map<nat, Tx>)
    requires Indexed(pool, byId, byFit) && Stored(pool, pool, byId, next, maxCount) && t.hash !in pool && t.id == next
    requires IsNewest(pool[t.hash := t], maxCount, pool') && byId'.Keys <= byId.Keys + {next}
    requires db' == pool[t.hash := t] - (pool[t.hash := t].Keys - pool'.Keys)
    ensures Stored(db', pool', byId', next + 1, maxCount) && (maxCount > 0 ==> Held(pool', t))
  {
    IndexedPersisted(pool, byId, byFit, next);
    NewestOfAll(pool[t.hash := t], maxCount, pool', t);
    InUseMore(byId.Keys, next, byId'.Keys);
  }

  class FairMempool {
    const maxCount: nat
    var db: Pool
    var nextId: nat
    var byFit: map<Cursor, Tx>
    var byId: map<nat, Tx>
    var byHash: Pool

    /** The indices hold the same transactions. */
    ghost predicate Agrees()
      reads this
    {
      Indexed(byHash, byId, byFit)
    }

    /** The indices and the database hold the same transactions, at most `maxCount`, with ids in use so far. */
    ghost predicate Valid()
      reads this
    {
      Agrees() && Stored(db, byHash, byId, nextId, maxCount)
    }

    /** Rebuilds the mempool from its database, read in any order. */
    constructor (db: Pool, maxCount: nat)
      requires Persisted(db)
      ensures Valid() && IsNewest(db, maxCount, byHash) && this.maxCount == maxCount
      ensures if byId == map[] then nextId == 1 else nextId - 1 in byId
    {
      this.maxCount, this.db, nextId := maxCount, db, 0;
      byFit, byId, byHash := map[], map[], map[];
      new;
      AddAll(db);
      nextId := FirstUnused();
    }

    /** One above the largest id in use, or 1: 0 is reserved. */
    method FirstUnused() returns (n: nat)
      requires 0 !in byId
      ensures n >= 1 && InUse(byId.Keys, n) && (if byId == map[] then n == 1 else n - 1 in byId)
    {
      if byId == map[] {
        return 1;
      }
      ghost var last := GreatestOf(byId.Keys);
      var id :| id in byId && forall j :: j in byId ==> j <= id;
      return id + 1;
    }

    /** Adds what the database holds to an empty mempool, in any order. */
    method AddAll(txs: Pool)
      requires Persisted(txs) && db == txs && Agrees() && byHash == map[] && byId == map[]
      modifies `db, `byFit, `byId, `byHash
      ensures Agrees() && IsNewest(txs, maxCount, byHash) && db == byHash
      ensures 0 !in byId
    {
      var todo := txs.Keys;
      ghost var done: Pool := map[];
      while todo != {}
        invariant todo <= txs.Keys && done == txs - todo && Agrees() && Within(byHash, done)
        invariant 0 !in byId
        invariant IsNewest(done, maxCount, byHash) && db == txs - (done.Keys - byHash.Keys)
        decreases todo
      {
        var h :| h in todo;
        ghost var before := byHash;
        UnusedId(byHash, byId, byFit, txs, h);
        Add(txs[h]);
        OneMoreAdded(txs, todo, done, maxCount, before, byHash, h);
        todo, done := todo - {h}, done[h := txs[h]];
      }
      assert done == txs;
      KeptIs(txs, byHash);
    }

    /** The first transaction after the cursor. */
    method Next(cursor: Cursor) returns (r: Option<(Cursor, Tx)>)
      ensures r.None? ==> forall c :: c in byFit ==> !Before(cursor, c)
      ensures r.Some? ==>
                && r.value.0 in byFit && byFit[r.value.0] == r.value.1 && Before(cursor, r.value.0)
                && forall c :: c in byFit && Before(cursor, c) ==> !Before(c, r.value.0)
    {
      var range := set c | c in byFit && Before(cursor, c);
      if range == {} {
        assert forall c :: c in byFit && Before(cursor, c) ==> c in range;
        return None;
      }
      ghost var first := First(range);
      var c :| c in range && forall d :: d in range ==> !Before(d, c);
      return Some((c, byFit[c]));
    }

    method RemoveFromMemory(hash: Hash)
      requires Agrees() && hash in byHash
      modifies `byFit, `byId, `byHash
      ensures Agrees() && byHash == old(byHash) - {hash} && byId.Keys <= old(byId).Keys
    {
      var t := byHash[hash];
      IndexedRemove(byHash, byId, byFit, hash);
      byHash := byHash - {hash};
      byId := byId - {t.id};
      byFit := byFit - {CursorOf(t)};
    }

    /** Drops the oldest transactions above the limit, from the database too. */
    method Evict()
      requires Agrees()
      modifies `db, `byFit, `byId, `byHash
      ensures Agrees() && IsNewest(old(byHash), maxCount, byHash) && byId.Keys <= old(byId).Keys
      ensures db == old(db) - (old(byHash).Keys - byHash.Keys)
    {
      while |byHash| > maxCount
        invariant Agrees() && byId.Keys <= old(byId).Keys
        invariant Within(byHash, old(byHash))
        invariant forall g, h {:trigger Older(old(byHash), h, g)} ::
                    g in byHash && h in old(byHash) && h !in byHash ==> Older(old(byHash), h, g)
        invariant |byHash| >= maxCount || byHash == old(byHash)
        invariant db == old(db) - (old(byHash).Keys - byHash.Keys)
        decreases |byHash|
      {
        SomeId(byHash, byId, byFit);
        ghost var least := LeastOf(byId.Keys);
        var id :| id in byId && forall j :: j in byId ==> id <= j;
        OldestIs(byHash, byId, byFit, id);
        var hash := byId[id].hash;
        DropOne(old(db), old(byHash), byHash, hash);
        db := db - {hash};
        RemoveFromMemory(hash);
      }
      SubPool(old(byHash), byHash);
    }

    /** Adds a transaction, and keeps the newest. */
    method Add(t: Tx)
      requires Agrees() && t.hash !in byHash && t.id !in byId
      modifies `db, `byFit, `byId, `byHash
      ensures Agrees() && IsNewest(old(byHash)[t.hash := t], maxCount, byHash)
      ensures byId.Keys <= old(byId).Keys + {t.id}
      ensures db == old(db)[t.hash := t] - (old(byHash)[t.hash := t].Keys - byHash.Keys)
    {
      IndexedAdd(byHash, byId, byFit, t);
      db := db[t.hash := t];
      byId := byId[t.id := t];
      byFit := byFit[CursorOf(t) := t];
      byHash := byHash[t.hash := t];
      Evict();
    }

    /** Accepts a transaction once; it stays, and makes room for itself, unless the limit is zero. */
    method AddNewTx(hash: Hash, raw: seq<bv8>) returns (t: Tx)
      requires Valid()
      modifies `db, `nextId, `byFit, `byId, `byHash
      ensures Valid() && t.hash == hash
      ensures hash in old(byHash) ==> t == old(byHash)[hash] && byHash == old(byHash)
      ensures hash !in old(byHash) ==>
                t == Tx(raw, hash, old(nextId)) && IsNewest(old(byHash)[hash := t], maxCount, byHash)
      ensures maxCount > 0 ==> hash in byHash && byHash[hash] == t
      ensures nextId == if hash in old(byHash) then old(nextId) else old(nextId) + 1
    {
      if hash in byHash {
        assert HashAt(byHash, byId, byFit, hash);
        t := byHash[hash];
      } else {
        t := AddUnknownTx(hash, raw);
      }
    }

    method AddUnknownTx(hash: Hash, raw: seq<bv8>) returns (t: Tx)
      requires Valid() && hash !in byHash
      modifies `db, `nextId, `byFit, `byId, `byHash
      ensures Valid() && t == Tx(raw, hash, old(nextId)) && IsNewest(old(byHash)[hash := t], maxCount, byHash)
      ensures maxCount > 0 ==> Held(byHash, t)
      ensures nextId == old(nextId) + 1
    {
      t := Tx(raw, hash, nextId);
      ghost var pool, ids, fit := byHash, byId, byFit;
      Add(t);
      Admitted(pool, ids, fit, nextId, t, maxCount, db, byHash, byId);
      nextId := nextId + 1;
    }

    /** Removes transactions that are there, each named once. */
    method RemoveAtomically(hashes: seq<Hash>)
      requires Valid() && (forall h :: h in hashes ==> h in byHash)
      requires forall i, j :: 0 <= i < j < |hashes| ==> hashes[i] != hashes[j]
      modifies `db, `byFit, `byId, `byHash
      ensures Valid() && byHash == old(byHash) - Elements(hashes)
    {
      db := db - Elements(hashes);
      var k := 0;
      while k < |hashes|
        invariant 0 <= k <= |hashes| && Agrees() && byId.Keys <= old(byId).Keys
        invariant byHash == old(byHash) - Elements(hashes[..k]) && db == old(db) - Elements(hashes)
      {
        assert Elements(hashes[..k + 1]) == Elements(hashes[..k]) + {hashes[k]};
        MinusMinus(old(byHash), Elements(hashes[..k]), hashes[k]);
        RemoveFromMemory(hashes[k]);
        k := k + 1;
      }
      assert hashes[..k] == hashes;
      SubPool(old(byHash), byHash);
    }
  }

  lemma MinusMinus(pool: Pool, gone: set<Hash>, h: Hash)
    ensures (pool - gone) - {h} == pool - (gone + {h})
    ensures h in pool && h !in gone ==> h in pool - gone
  {
  }

  /** Restarting with the same limit changes nothing. */
  lemma RestartKeepsAll(pool: Pool, k: nat, kept: Pool)
    requires |pool| <= k && IsNewest(pool, k, kept)
    ensures kept == pool
  {
    SubPool(pool, kept);
  }

  /** A restart, with any limit: the database of a mempool is one that can be rebuilt from, and exactly its newest
      transactions come back. */
  method Restart(before: FairMempool, maxCount: nat) returns (after: FairMempool)
    requires before.Valid()
    ensures after.Valid() && after.maxCount == maxCount && IsNewest(before.byHash, maxCount, after.byHash)
    ensures before.maxCount <= maxCount ==> after.byHash == before.byHash
  {
    IndexedPersisted(before.byHash, before.byId, before.byFit, before.nextId);
    after := new FairMempool(before.db, maxCount);
    if before.maxCount <= maxCount {
      RestartKeepsAll(before.byHash, maxCount, after.byHash);
    }
  }
}
