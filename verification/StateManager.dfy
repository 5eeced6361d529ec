/** The state manager and the runner, with their state updated in place, against the functions of Rollup. */
module StateManager {
  import opened Wrappers
  import opened Containers
  import opened Forest
  import opened ForestProofs
  import opened StorageManager
  import opened Rollup
  import opened ReorgProofs
  import opened TrackingProofs
  import opened RollupProofs
  import opened RunSafety

  /** If the storage tracks the block of `h`, it is under the parent that `h` names. */
  ghost predicate KnownAt(parent: map<Hash, Hash>, snap: map<Hash, SnapshotId>, h: Header) {
    h.hash in snap ==> h.hash in parent && parent[h.hash] == h.prev
  }

  ghost predicate Known(parent: map<Hash, Hash>, snap: map<Hash, SnapshotId>, ts: seq<Transition>) {
    forall t {:trigger KnownAt(parent, snap, t.header)} :: t in ts ==> KnownAt(parent, snap, t.header)
  }

  ghost predicate Knows(f: Forest, ts: seq<Transition>) {
    Known(f.parent, f.snap, ts)
  }

  lemma SettledKnows(f: Forest, h: Header, ts: seq<Transition>)
    requires Knows(f, ts) && Settled(f, h).Ok?
    ensures Knows(Settled(f, h).value, ts)
  {
    var f' := Settled(f, h).value;
    forall t | t in ts ensures KnownAt(f'.parent, f'.snap, t.header) {
      assert KnownAt(f.parent, f.snap, t.header);
    }
  }

  // ----- what an error leaves behind

  lemma {:induction false} RewindStops(tip: Header, root: Root, ts: seq<Transition>, chain: Chain)
    requires Chained(tip, root, ts) && Rewind(ts, chain).Ok?
    ensures var p := Rewind(ts, chain).value; p.kept <= ts && p.preRoot == RootAt(root, p.kept, |p.kept|)
    decreases |ts|
  {
    var last := |ts| - 1;
    assert Continues(tip, root, ts, last);
    if chain(ts[last].header.height).prev != ts[last].header.prev {
      ChainedSplit(tip, root, ts, last);
      RewindStops(tip, root, ts[..last], chain);
    }
  }

  /** A preparation that a storage error ends leaves a shorter deque, and the root in step with it. */
  lemma PrepareLeaves(m: Manager, chain: Chain, block: Header, tip: Header, root: Root)
    requires Chained(tip, root, m.seen) && m.root == RootAt(root, m.seen, |m.seen|)
    requires var r := Prepare(m, chain, block); r.Err? && r.error != NoCommonBlock
    ensures var left := PrepareLeft(m, chain, block);
            left.seen <= m.seen && left.root == RootAt(root, left.seen, |left.seen|)
  {
    if Forked(m.seen, block) {
      RewindStops(tip, root, m.seen, chain);
    }
  }

  /** Processing that errs leaves the root as it was, and the deque split at the finalized height. The readers moved
      on exactly if saving and publishing worked. */
  lemma ProcessLeaves(m: Manager, x: Executed) returns (n: nat)
    requires Process(m, x).Err?
    ensures var left, all := ProcessLeft(m, x), m.seen + [x.transition];
            && left.root == m.root && n <= |all| && left.seen == all[n..]
            && (forall k :: 0 <= k < n ==> all[k].header.height <= x.finalized)
            && (n < |all| ==> all[n].header.height > x.finalized)
            && match SavedAndPublished(m.storage, x.transition.header, x.changes)
               case Err(_) => left.rpc == m.rpc && left.ledger == m.ledger
               case Ok(f) => left.rpc == f.latest && left.ledger == f.latest
  {
    var all := m.seen + [x.transition];
    n := FinalCount(all, x.finalized);
    FinalCountIs(all, x.finalized);
  }

  /** Finalizing several blocks stops at the first that cannot be, with all before it finalized. */
  lemma {:induction false} SettleStops(f: Forest, ts: seq<Transition>) returns (k: nat)
    requires SettleAll(f, ts).Err?
    ensures k < |ts| && SettleAll(f, ts[..k]) == Ok(SettleLeft(f, ts))
    ensures Settled(SettleLeft(f, ts), ts[k].header) == Err(SettleAll(f, ts).error)
    decreases |ts|
  {
    if Settled(f, ts[0].header).Err? {
      k := 0;
    } else {
      k := SettleStops(Settled(f, ts[0].header).value, ts[1..]);
      k := k + 1;
      assert ts[..k][0] == ts[0] && ts[..k][1..] == ts[1..][..k - 1];
    }
  }

  /** How saving, publishing and finalizing end: `m'` is what the manager is then, with or without an error. */
  ghost predicate StoreEnds(m: Manager, h: Header, changes: Group<ChangeSet>, final: seq<Transition>,
                            r: Result<(), ManagerError>, m': Manager)
  {
    && m'.root == m.root && m'.seen == m.seen
    && match SavedAndPublished(m.storage, h, changes)
       case Err(e) => r == Err(Storage(e)) && m' == m.(storage := PublishLeft(m.storage, h, changes))
       case Ok(after) =>
         && m'.rpc == after.latest && m'.ledger == after.latest
         && match SettleAll(after, final)
            case Ok(f) => r.Ok? && m'.storage == f
            case Err(e) => r == Err(Storage(e)) && m'.storage == SettleLeft(after, final)
  }

  /** Processing is splitting the deque, storing, and moving the root on. */
  lemma ProcessBy(m: Manager, x: Executed, n: nat, r: Result<(), ManagerError>, m': Manager)
    requires n == FinalCount(m.seen + [x.transition], x.finalized)
    requires var all := m.seen + [x.transition];
             StoreEnds(m.(seen := all[n..]), x.transition.header, x.changes, all[..n], r, m')
    ensures match r
            case Ok(_) =>
              Process(m, x) == Ok((m'.(root := x.transition.finalRoot), (m.seen + [x.transition])[..n]))
            case Err(e) => Process(m, x) == Err(e) && m' == ProcessLeft(m, x)
  {
  }

  class StateManager {
    const storage: ProverStorageManager
    var stateRoot: Root
    var seen: seq<Transition>
    var rpc: SnapshotId
    var ledger: SnapshotId

    ghost function Model(): Manager
      reads this, storage, storage.containers
    {
      Manager(storage.Model(), stateRoot, seen, rpc, ledger)
    }

    constructor (storage: ProverStorageManager, root: Root, rpc: SnapshotId, ledger: SnapshotId)
      ensures this.storage == storage && Model() == Manager(storage.Model(), root, [], rpc, ledger)
    {
      this.storage, stateRoot, seen := storage, root, [];
      this.rpc, this.ledger := rpc, ledger;
    }

    /** Nothing when `block` continues the last seen transition; otherwise drops seen transitions, newest first,
        down to the fork point. */
    method HasReorgHappened(block: Header, chain: Chain) returns (r: Result<Option<ForkPoint>, ManagerError>)
      modifies `seen
      ensures !Forked(old(seen), block) ==> r == Ok(None) && seen == old(seen)
      ensures Forked(old(seen), block) ==>
                match Rewind(old(seen), chain)
                case Ok(p) => r == Ok(Some(p)) && seen == p.kept
                case Err(_) => r == Err(NoCommonBlock) && seen == []
    {
      if seen == [] || seen[|seen| - 1].header.hash == block.prev {
        return Ok(None);
      }
      while seen != []
        invariant Rewind(seen, chain) == Rewind(old(seen), chain)
        decreases |seen|
      {
        var t := seen[|seen| - 1];
        seen := seen[..|seen| - 1];
        var fetched := chain(t.header.height);
        if fetched.prev == t.header.prev {
          return Ok(Some(ForkPoint(seen, fetched, t.initialRoot)));
        }
      }
      return Err(NoCommonBlock);
    }

    method PrepareStorage(block: Header, chain: Chain) returns (r: Result<(SnapshotId, Header), ManagerError>)
      requires Aligned(storage.containers.Model())
      modifies this, storage
      ensures match Prepare(old(Model()), chain, block)
              case Ok(p) => r == Ok((p.state, p.block)) && Model() == p.manager
              case Err(e) => r == Err(e) && Model() == PrepareLeft(old(Model()), chain, block)
      ensures r.Err? ==> storage.Model() == old(storage.Model()) && rpc == old(rpc) && ledger == old(ledger)
    {
      var reorg := HasReorgHappened(block, chain);
      if reorg.Err? {
        return Err(reorg.error);
      }
      var next := block;
      if reorg.value.Some? {
        next, stateRoot := reorg.value.value.block, reorg.value.value.preRoot;
      }
      var state := storage.CreateStateFor(next);
      if state.Err? {
        return Err(Storage(state.error));
      }
      if reorg.value.Some? {
        rpc, ledger := state.value, state.value;
      }
      return Ok((state.value, next));
    }

    /** Removes the oldest seen transitions at or below the finalized height. */
    method ProcessFinalized(height: nat) returns (final: seq<Transition>)
      modifies `seen
      ensures var n := FinalCount(old(seen), height); final == old(seen)[..n] && seen == old(seen)[n..]
    {
      final := [];
      while seen != [] && seen[0].header.height <= height
        invariant final + seen == old(seen)
        invariant FinalCount(old(seen), height) == |final| + FinalCount(seen, height)
        decreases |seen|
      {
        final, seen := final + [seen[0]], seen[1..];
      }
    }

    method UpdateRpcAndLedger(h: Header) returns (r: Result<(), ManagerError>)
      requires Aligned(storage.containers.Model())
      modifies `rpc, `ledger, storage
      ensures match StateAfter(old(storage.Model()), h)
              case Ok(f) => r == Ok(()) && storage.Model() == f && rpc == f.latest && ledger == f.latest
              case Err(e) => r == Err(Storage(e)) && Model() == old(Model())
    {
      var state := storage.CreateStateAfter(h);
      if state.Err? {
        return Err(Storage(state.error));
      }
      rpc, ledger := state.value, state.value;
      return Ok(());
    }

    /** Finalizes the blocks of `ts` in order, stopping at the first error. */
    method FinalizeAll(ts: seq<Transition>) returns (r: Result<(), ManagerError>)
      requires Inv(storage.Model()) && Knows(storage.Model(), ts)
      modifies storage, storage.containers
      ensures match SettleAll(old(storage.Model()), ts)
              case Ok(f) => r == Ok(()) && storage.Model() == f
              case Err(e) => r == Err(Storage(e)) && storage.Model() == SettleLeft(old(storage.Model()), ts)
    {
      var k := 0;
      while k < |ts|
        invariant 0 <= k <= |ts|
        invariant Inv(storage.Model()) && Knows(storage.Model(), ts)
        invariant SettleAll(storage.Model(), ts[k..]) == SettleAll(old(storage.Model()), ts)
        invariant SettleLeft(storage.Model(), ts[k..]) == SettleLeft(old(storage.Model()), ts)
      {
        ghost var f := storage.Model();
        assert ts[k] in ts && KnownAt(f.parent, f.snap, ts[k].header);
        assert ts[k..][0] == ts[k] && ts[k..][1..] == ts[k + 1..];
        var done := storage.Finalize(ts[k].header);
        if done.Err? {
          return Err(Storage(done.error));
        }
        SettledKnows(f, ts[k].header, ts);
        k := k + 1;
      }
      return Ok(());
    }

    /** Saves the changes of an executed block, and publishes the state after it. */
    method SaveAndPublish(h: Header, changes: Group<ChangeSet>) returns (r: Result<(), ManagerError>)
      requires Inv(storage.Model()) && storage.latestSnapshotId + 1 < ID_LIMIT
      modifies `rpc, `ledger, storage, storage.containers
      ensures match SavedAndPublished(old(storage.Model()), h, changes)
              case Ok(f) => r == Ok(()) && storage.Model() == f && Inv(f) && rpc == f.latest && ledger == f.latest
              case Err(e) => r == Err(Storage(e)) && rpc == old(rpc) && ledger == old(ledger)
                             && storage.Model() == PublishLeft(old(storage.Model()), h, changes)
      ensures r.Ok? ==> storage.blocksToParent == old(storage.blocksToParent)
      ensures r.Ok? ==> storage.blockHashToSnapshotId == old(storage.blockHashToSnapshotId)
    {
      ghost var f := storage.Model();
      var saved := storage.SaveChangeSet(h, changes);
      if saved.Err? {
        return Err(Storage(saved.error));
      }
      SaveChangeSetInv(f, h, changes);
      ghost var f1 := storage.Model();
      r := UpdateRpcAndLedger(h);
      if r.Ok? {
        CreateStateAfterInv(f1, h);
      }
    }

    /** Saves and publishes an executed block, then finalizes `final`. */
    method Store(h: Header, changes: Group<ChangeSet>, final: seq<Transition>, ghost all: seq<Transition>)
      returns (r: Result<(), ManagerError>)
      requires Inv(storage.Model()) && storage.latestSnapshotId + 1 < ID_LIMIT
      requires Knows(storage.Model(), all) && final <= all
      modifies `rpc, `ledger, storage, storage.containers
      ensures StoreEnds(old(Model()), h, changes, final, r, Model())
    {
      ghost var parent, snap := storage.blocksToParent, storage.blockHashToSnapshotId;
      r := SaveAndPublish(h, changes);
      if r.Ok? {
        SameParents(parent, snap, storage.Model(), all, final);
        r := FinalizeAll(final);
      }
    }

    /** Everything after the state transition function: the executed block is saved and published, and what the DA
        layer reports as final is finalized. */
    method ProcessStfChanges(height: nat, t: Transition, changes: Group<ChangeSet>)
      returns (r: Result<seq<Transition>, ManagerError>)
      requires Inv(storage.Model()) && storage.latestSnapshotId + 1 < ID_LIMIT
      requires Knows(storage.Model(), seen + [t])
      modifies this, storage, storage.containers
      ensures match Process(old(Model()), Executed(t, changes, height))
              case Ok((m, final)) => r == Ok(final) && Model() == m
              case Err(e) => r == Err(e) && Model() == ProcessLeft(old(Model()), Executed(t, changes, height))
      ensures stateRoot == if r.Ok? then t.finalRoot else old(stateRoot)
    {
      ghost var m, all := Model(), seen + [t];
      seen := seen + [t];
      var final := ProcessFinalized(height);
      var stored := Store(t.header, changes, final, all);
      ProcessBy(m, Executed(t, changes, height), |final|, stored, Model());
      if stored.Err? {
        return Err(stored.error);
      }
      stateRoot := t.finalRoot;
      return Ok(final);
    }
  }

  lemma SameParents(parent: map<Hash, Hash>, snap: map<Hash, SnapshotId>, f: Forest, all: seq<Transition>,
                    some: seq<Transition>)
    requires Known(parent, snap, all) && f.parent == parent && f.snap == snap && some <= all
    ensures Knows(f, some)
  {
    forall t | t in some ensures KnownAt(f.parent, f.snap, t.header) {
      assert KnownAt(parent, snap, t.header);
    }
  }
}
