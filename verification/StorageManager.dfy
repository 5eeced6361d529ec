/** The fork-aware storage manager, with its maps updated in place. A storage handle is the snapshot id
    it reads from. */
module StorageManager {
  import opened Wrappers
  import opened Basics
  import opened Containers
  import opened Forest
  import opened ForestProofs
  import opened Discarding

  class ProverStorageManager {
    var chainForks: map<Hash, seq<Hash>>
    var blocksToParent: map<Hash, Hash>
    var latestSnapshotId: SnapshotId
    var blockHashToSnapshotId: map<Hash, SnapshotId>
    var dangledSnapshots: set<SnapshotId>
    var snapshotIdToParent: Links
    const containers: ContainerGroup

    ghost function Model(): Forest
      reads this, containers
    {
      Forest(chainForks, blocksToParent, latestSnapshotId, blockHashToSnapshotId, dangledSnapshots,
             snapshotIdToParent, containers.Model())
    }

    constructor (dbs: Group<Table>)
      ensures Model() == Empty(dbs) && Inv(Model())
      ensures fresh(containers)
    {
      chainForks, blocksToParent, latestSnapshotId := map[], map[], 0;
      blockHashToSnapshotId, dangledSnapshots, snapshotIdToParent := map[], {}, map[];
      containers := new ContainerGroup(dbs);
      new;
      EmptyForest(dbs, 0);
    }

    method CreateBootstrapState() returns (id: SnapshotId)
      requires latestSnapshotId + 1 < ID_LIMIT
      modifies this
      ensures Model() == Bootstrapped(old(Model())) && id == latestSnapshotId
    {
      latestSnapshotId := latestSnapshotId + 1;
      id := latestSnapshotId;
      dangledSnapshots := dangledSnapshots + {id};
    }

    method CreateStateFor(h: Header) returns (r: Result<SnapshotId, StorageError>)
      requires Aligned(containers.Model())
      modifies this
      ensures match StateFor(old(Model()), h)
              case Ok(f) => Model() == f && r == Ok(f.snap[h.hash])
              case Err(e) => Model() == old(Model()) && r == Err(e)
      ensures r.Ok? <==> h.hash != h.prev && (h.prev in old(blockHashToSnapshotId) ==> IsSaved(old(Model()), h.prev))
    {
      if h.hash == h.prev {
        return Err(CorruptBlock);
      }
      if h.prev in blockHashToSnapshotId {
        var saved := containers.ContainsSnapshot(blockHashToSnapshotId[h.prev]);
        if !saved {
          return Err(ParentNotSaved);
        }
      }
      if h.hash in blockHashToSnapshotId {
        return Ok(blockHashToSnapshotId[h.hash]);
      }
      var id := WrappingNext(latestSnapshotId);
      if h.prev in blockHashToSnapshotId {
        snapshotIdToParent := snapshotIdToParent[id := blockHashToSnapshotId[h.prev]];
      }
      blockHashToSnapshotId := blockHashToSnapshotId[h.hash := id];
      chainForks := chainForks[h.prev := (if h.prev in chainForks then chainForks[h.prev] else []) + [h.hash]];
      blocksToParent := blocksToParent[h.hash := h.prev];
      latestSnapshotId := id;
      return Ok(id);
    }

    method CreateStateAfter(h: Header) returns (r: Result<SnapshotId, StorageError>)
      requires Aligned(containers.Model())
      modifies this
      ensures match StateAfter(old(Model()), h)
              case Ok(f) => Model() == f && r == Ok(f.latest)
              case Err(e) => Model() == old(Model()) && r == Err(e)
      ensures r.Ok? <==> h.hash != h.prev && IsSaved(old(Model()), h.hash)
    {
      if h.hash == h.prev {
        return Err(CorruptBlock);
      }
      if h.hash !in blockHashToSnapshotId {
        return Err(BlockNotSaved);
      }
      var parentId := blockHashToSnapshotId[h.hash];
      var saved := containers.ContainsSnapshot(parentId);
      if !saved {
        return Err(BlockNotSaved);
      }
      latestSnapshotId := WrappingNext(latestSnapshotId);
      var id := latestSnapshotId;
      snapshotIdToParent := snapshotIdToParent[id := parentId];
      dangledSnapshots := dangledSnapshots + {id};
      return Ok(id);
    }

    method SaveChangeSet(h: Header, cs: Group<ChangeSet>) returns (r: Result<(), StorageError>)
      requires Aligned(containers.Model())
      modifies this, containers
      ensures Aligned(containers.Model())
      ensures match ChangesSaved(old(Model()), h, cs)
              case Ok(f) => Model() == f && r.Ok?
              case Err(e) => Model() == old(Model()) && r == Err(e)
      ensures r.Ok? <==>
              && h.prev in old(chainForks) && h.hash in old(blockHashToSnapshotId)
              && !IsSaved(old(Model()), h.hash)
    {
      if h.prev !in chainForks {
        return Err(UnknownBlock);
      }
      if h.hash !in blockHashToSnapshotId {
        return Err(UnknownBlock);
      }
      var added := containers.AddSnapshot(blockHashToSnapshotId[h.hash], cs);
      if !added {
        return Err(DuplicateChangeSet);
      }
      return Ok(());
    }

    method UnlinkReaders(id: SnapshotId)
      modifies this`snapshotIdToParent
      ensures snapshotIdToParent == Orphaned(old(snapshotIdToParent), dangledSnapshots, id)
    {
      var orphans := dangledSnapshots;
      ghost var was := snapshotIdToParent;
      while orphans != {}
        invariant orphans <= dangledSnapshots
        invariant snapshotIdToParent == Orphaned(was, dangledSnapshots - orphans, id)
        decreases orphans
      {
        var orphan :| orphan in orphans;
        if orphan in snapshotIdToParent && snapshotIdToParent[orphan] == id {
          snapshotIdToParent := snapshotIdToParent - {orphan};
        }
        orphans := orphans - {orphan};
      }
    }

    method Siblings(prev: Hash, current: Hash) returns (todo: seq<Hash>)
      requires prev in chainForks && NoDuplicates(chainForks[prev])
      ensures NoDuplicates(todo)
      ensures forall x :: x in todo <==> x in chainForks[prev] && x != current
    {
      todo := [];
      var all := chainForks[prev];
      for k := 0 to |all|
        invariant NoDuplicates(todo)
        invariant forall x :: x in todo <==> x in all[..k] && x != current
      {
        assert all[..k + 1] == all[..k] + [all[k]];
        assert all[k] !in all[..k];
        if all[k] != current {
          todo := todo + [all[k]];
        }
      }
      assert all[..|all|] == all;
    }

    /** One turn of the worklist: the block, its readers and its change sets go. */
    method DiscardBlock(block: Hash) returns (children: seq<Hash>)
      requires Aligned(containers.Model())
      requires block in blocksToParent && block in blockHashToSnapshotId
      modifies this, containers
      ensures Model() == Discarded(old(Model()), block) && Aligned(containers.Model())
      ensures children == ChildrenOf(old(Model()), block)
    {
      children := if block in chainForks then chainForks[block] else [];
      chainForks := chainForks - {block};
      blocksToParent := blocksToParent - {block};
      var id := blockHashToSnapshotId[block];
      blockHashToSnapshotId := blockHashToSnapshotId - {block};
      UnlinkReaders(id);
      snapshotIdToParent := snapshotIdToParent - {id};
      var _ := containers.DiscardSnapshot(id);
    }

    /** Drains the worklist of losing forks; no `unwrap` of the source can fail. */
    method DiscardForks(siblings: seq<Hash>, ghost f: Forest, ghost b: Hash, ghost p: Hash, ghost lost: set<Hash>)
      returns (ghost done: set<Hash>)
      requires Rooted(f, b, p, lost)
      requires Model() == Partial(f, b, p, lost, {}) && Aligned(containers.Model())
      requires Worklist(f, b, p, siblings, {})
      modifies this, containers
      ensures Model() == Partial(f, b, p, lost, done) && Aligned(containers.Model())
      ensures done + {b} == Gone(f, b) && b !in done
    {
      var todo := siblings;
      done := {};
      while todo != []
        invariant Model() == Partial(f, b, p, lost, done) && Aligned(containers.Model())
        invariant Worklist(f, b, p, todo, done)
        invariant done <= f.snap.Keys
        decreases f.snap.Keys - done
      {
        var block, rest := todo[|todo| - 1], todo[..|todo| - 1];
        LastApart(todo);
        Turn(f, b, p, lost, rest, block, done);
        var children := DiscardBlock(block);
        todo := rest + children;
        done := done + {block};
      }
      DiscardedAreGone(f, b, p, done);
    }

    /** Children of a committed block read from the databases. */
    method CutChildren(current: Hash)
      requires Elements(ChildrenOf(Model(), current)) <= blockHashToSnapshotId.Keys
      modifies this`snapshotIdToParent
      ensures Model() == Loosened(old(Model()), current)
    {
      var children := if current in chainForks then chainForks[current] else [];
      Unlink(children);
    }

    method Unlink(blocks: seq<Hash>)
      requires Elements(blocks) <= blockHashToSnapshotId.Keys
      modifies this`snapshotIdToParent
      ensures snapshotIdToParent == old(snapshotIdToParent) - IdsOf(blockHashToSnapshotId, Elements(blocks))
    {
      for k := 0 to |blocks|
        invariant snapshotIdToParent == old(snapshotIdToParent) - IdsOf(blockHashToSnapshotId, Elements(blocks[..k]))
      {
        assert blocks[k] in Elements(blocks);
        var id := blockHashToSnapshotId[blocks[k]];
        IdsStep(blockHashToSnapshotId, blocks, k);
        MinusTwice(old(snapshotIdToParent), IdsOf(blockHashToSnapshotId, Elements(blocks[..k])), {id});
        snapshotIdToParent := snapshotIdToParent - {id};
      }
      assert blocks[..|blocks|] == blocks;
    }

    /** Writes the root `current` to the databases and lists its siblings. */
    method CommitBlock(prev: Hash, current: Hash) returns (siblings: seq<Hash>)
      requires Aligned(containers.Model()) && IsSaved(Model(), current) && current != prev
      requires prev in chainForks && NoDuplicates(chainForks[prev])
      modifies this, containers
      ensures Model() == Committed(old(Model()), current, prev) && Aligned(containers.Model())
      ensures NoDuplicates(siblings)
      ensures forall x :: x in siblings <==> x in ChildrenOf(old(Model()), prev) && x != current
    {
      blocksToParent := blocksToParent - {current};
      blockHashToSnapshotId := blockHashToSnapshotId - {prev};
      var id := blockHashToSnapshotId[current];
      blockHashToSnapshotId := blockHashToSnapshotId - {current};
      snapshotIdToParent := snapshotIdToParent - {id};
      containers.CommitSnapshot(id);
      UnlinkReaders(id);
      siblings := Siblings(prev, current);
      chainForks := chainForks - {prev};
    }

    /** Commits the root `current` under `prev` and discards its siblings' trees. */
    method CommitAndDiscard(prev: Hash, current: Hash, ghost f: Forest, ghost lost: set<Hash>)
      returns (ghost done: set<Hash>)
      requires Rooted(f, current, prev, lost)
      requires Model() == Forgetting(f, lost)
      modifies this, containers
      ensures Model() == Partial(f, current, prev, lost, done) && Aligned(containers.Model())
      ensures done + {current} == Gone(f, current) && current !in done
    {
      CommitStart(f, current, prev, lost);
      var siblings := CommitBlock(prev, current);
      WorklistStart(f, current, prev, siblings);
      done := DiscardForks(siblings, f, current, prev, lost);
    }

    /** Finalizes the root `current`: its children, cut loose, are the roots that remain around it. */
    method CommitOldest(prev: Hash, current: Hash, ghost f: Forest, ghost lost: set<Hash>)
      requires Rooted(f, current, prev, lost)
      requires Model() == Forgetting(f, lost)
      modifies this, containers
      ensures Model() == Forgetting(Finalized(f, current), lost) && Aligned(containers.Model())
    {
      ghost var done := CommitAndDiscard(prev, current, f, lost);
      FinishCommit(prev, current, f, lost, done);
    }

    /** The worklist is empty: the children of `current` are cut loose. */
    method FinishCommit(ghost prev: Hash, current: Hash, ghost f: Forest, ghost lost: set<Hash>, ghost done: set<Hash>)
      requires Rooted(f, current, prev, lost) && Model() == Partial(f, current, prev, lost, done)
      requires done + {current} == Gone(f, current) && current !in done
      modifies this
      ensures Model() == Forgetting(Finalized(f, current), lost)
    {
      CommitEnd(f, current, prev, lost, done);
      CutChildren(current);
    }

    /** The parent is tracked, so it goes first; its entry in the parent map is dropped before the call. */
    method FinalizeParent(prev: Hash, ghost current: Hash, ghost f: Forest, ghost lost: set<Hash>)
      requires Inv(f) && Model() == Forgetting(f, lost)
      requires prev in f.parent && prev !in lost && prev in Gone(f, prev) && IsSaved(f, prev)
      requires LostBelow(f, prev, lost + {prev}) && IdOf(f, prev) < IdOf(f, current)
      modifies this, containers
      ensures Model() == Forgetting(Finalized(f, prev), lost)
      decreases IdOf(f, current), 0
    {
      ForgetParent(f, prev, lost);
      var grandParent := blocksToParent[prev];
      blocksToParent := blocksToParent - {prev};
      var _ := FinalizeByHashPair(grandParent, prev, f, lost + {prev});
    }

    method FinalizeByHashPair(prev: Hash, current: Hash, ghost f: Forest, ghost lost: set<Hash>)
      returns (r: Result<(), StorageError>)
      requires Inv(f) && Model() == Forgetting(f, lost)
      requires IsSaved(f, current) ==> f.parent[current] == prev
      requires LostBelow(f, current, lost)
      modifies this, containers
      ensures r.Ok? <==> IsSaved(f, current)
      ensures r.Ok? ==> Model() == Forgetting(Finalized(f, current), lost)
      ensures r.Err? ==> Model() == old(Model())
      ensures r.Err? ==> r.error == if current in f.snap then BlockNotSaved else NonExistingSnapshot
      decreases IdOf(f, current), 1
    {
      if current !in blockHashToSnapshotId {
        return Err(NonExistingSnapshot);
      }
      var saved := containers.ContainsSnapshot(blockHashToSnapshotId[current]);
      if !saved {
        return Err(BlockNotSaved);
      }
      ghost var g := f;
      if prev in blockHashToSnapshotId {
        AncestorFirst(f, current, lost);
        FinalizeParent(prev, current, f, lost);
        g := Finalized(f, prev);
      }
      CommitOldest(prev, current, g, lost);
      return Ok(());
    }

    /** Either an error with nothing changed, or exactly the finalized forest. */
    method Finalize(h: Header) returns (r: Result<(), StorageError>)
      requires Inv(Model())
      requires IsSaved(Model(), h.hash) ==> blocksToParent[h.hash] == h.prev
      modifies this, containers
      ensures match Settled(old(Model()), h)
              case Ok(f) => r.Ok? && Model() == f && Inv(f)
              case Err(e) => r == Err(e) && Model() == old(Model())
      ensures r.Ok? <==> IsSaved(old(Model()), h.hash)
    {
      ghost var f := Model();
      NothingLost(f);
      NothingLost(Finalized(f, h.hash));
      r := FinalizeByHashPair(h.prev, h.hash, f, {});
      if IsSaved(f, h.hash) {
        FinalizedInv(f, h.hash);
      }
    }
  }
}
