/** The runner: how it starts, and its loop, with its state updated in place. */
module Runner {
  import opened Wrappers
  import opened Basics
  import opened Containers
  import opened Forest
  import opened ForestProofs
  import opened StorageManager
  import opened Rollup
  import opened ReorgProofs
  import opened TrackingProofs
  import opened RollupProofs
  import opened RunMeaning
  import opened RunSafety
  import opened StateManager

  /** The storage with the block of `e` added knows the kept transitions and the executed one. */
  lemma GrownKnows(headers: Hash -> Header, f: Forest, tip: Header, open: seq<Entry>, abandoned: set<Hash>, n: nat,
                   t: Transition)
    requires Mirrors(headers, f, tip, open, abandoned) && n <= |open| && t.header.hash !in f.snap
    requires headers(t.header.hash) == t.header
    ensures Knows(Grown(f, t.header), Transitions(open)[..n] + [t])
  {
    var f' := Grown(f, t.header);
    forall u | u in Transitions(open)[..n] + [t] ensures KnownAt(f'.parent, f'.snap, u.header) {
      if u != t {
        var k :| 0 <= k < n && u == open[k].transition;
        assert Stored(headers, f.snap, f.group, open[k]);
        assert Placed(headers, f.parent, f.snap, tip, HashOf(open[k]));
      }
    }
  }

  /** A well-prepared iteration meets what processing asks for. */
  lemma PreparedMeets(headers: Hash -> Header, m: Manager, tip: Header, root: Root, open: seq<Entry>,
                      abandoned: set<Hash>, dbs: Group<Table>, n: nat, t: Transition)
    requires ManagerInv(headers, m, tip, root, open, abandoned, dbs) && m.storage.latest + 2 < ID_LIMIT
    requires n <= |open| && IsNext(headers, m.storage.snap, tip, open[..n], t.header)
    ensures Inv(Grown(m.storage, t.header)) && Knows(Grown(m.storage, t.header), m.seen[..n] + [t])
  {
    KeptMirror(headers, m.storage, tip, root, open, abandoned, n);
    NextBlock(headers, m.storage, tip, root, open[..n], abandoned + Hashes(open[n..]), t.header);
    GrownInv(m.storage, t.header);
    GrownKnows(headers, m.storage, tip, open, abandoned, n, t);
  }

  /** A block handed out again is known, and so are the kept transitions. */
  lemma TrackedMeets(headers: Hash -> Header, m: Manager, tip: Header, root: Root, open: seq<Entry>,
                     abandoned: set<Hash>, dbs: Group<Table>, n: nat, t: Transition)
    requires ManagerInv(headers, m, tip, root, open, abandoned, dbs) && n <= |open|
    requires t.header.hash in m.storage.snap && headers(t.header.hash) == t.header
    ensures Knows(m.storage, m.seen[..n] + [t])
  {
    var f := m.storage;
    forall u | u in m.seen[..n] + [t] ensures KnownAt(f.parent, f.snap, u.header) {
      assert u.header.hash in f.snap ==> Placed(headers, f.parent, f.snap, tip, u.header.hash);
      if u != t {
        var k :| 0 <= k < n && u == open[k].transition;
        assert Stored(headers, f.snap, f.group, open[k]);
      }
    }
  }

  /** What processing asks for of a manager and the transition it is about to process. */
  ghost predicate MayProcess(m: Manager, t: Transition) {
    Inv(m.storage) && m.storage.latest + 1 < ID_LIMIT && Knows(m.storage, m.seen + [t])
  }

  /** If the first half of an iteration succeeds, the second half may be entered. */
  ghost predicate MayTurn(s: Node, x: Input) {
    match Prepare(s.manager, x.chain, x.chain(s.next))
    case Err(_) => true
    case Ok(p) => MayProcess(p.manager, Executing(p, x).transition)
  }

  lemma NewMayTurn(headers: Hash -> Header, o: Origin, s: Node, x: Input, n: nat, b: Header)
    requires RunInv(headers, o, s) && KeepsNow(headers, o, s, x, n, b) && b.hash !in s.manager.storage.snap
    ensures MayTurn(s, x)
  {
    var p := PrepareSafe(headers, o, s, x, n, b);
    PreparedMeets(headers, s.manager, TipOf(o, s.final), TipRoot(o, s.final), s.open, s.abandoned,
                  Replay(o.dbs, s.final), n, Executing(p, x).transition);
  }

  lemma PreparedKnows(headers: Hash -> Header, chain: Chain, block: Header, m: Manager, tip: Header, root: Root,
                      open: seq<Entry>, abandoned: set<Hash>, dbs: Group<Table>, n: nat, b: Header)
    returns (p: Prepared)
    requires ManagerInv(headers, m, tip, root, open, abandoned, dbs) && Resumes(chain, block, tip, root, m.seen, n)
    requires b == chain(tip.height + 1 + n) && headers(b.hash) == b && b.hash in m.storage.snap
    ensures Prepare(m, chain, block) == Ok(p) && p.block == b && p.manager.storage == m.storage
    ensures p.manager.seen == m.seen[..n]
  {
    TrackedAgain(headers, m.storage, tip, open, abandoned, b, ChangesOf(m.storage.group, 0));
    PreparedAgain(m, chain, block, tip, root, n);
    p := Prepare(m, chain, block).value;
  }

  lemma TrackedMayTurn(headers: Hash -> Header, o: Origin, s: Node, x: Input, n: nat, b: Header)
    requires RunInv(headers, o, s) && KeepsNow(headers, o, s, x, n, b) && b.hash in s.manager.storage.snap
    ensures MayTurn(s, x)
  {
    var p := PreparedKnows(headers, x.chain, x.chain(s.next), s.manager, TipOf(o, s.final), TipRoot(o, s.final),
                           s.open, s.abandoned, Replay(o.dbs, s.final), n, b);
    TrackedMeets(headers, s.manager, TipOf(o, s.final), TipRoot(o, s.final), s.open, s.abandoned,
                 Replay(o.dbs, s.final), n, Executing(p, x).transition);
  }

  lemma TurnReady(headers: Hash -> Header, o: Origin, s: Node, x: Input)
    requires RunInv(headers, o, s) && Env(headers, s, x)
    ensures MayTurn(s, x)
  {
    var n, b := ResumeSafe(headers, o, s, x);
    if b.hash in s.manager.storage.snap {
      TrackedMayTurn(headers, o, s, x, n, b);
    } else {
      NewMayTurn(headers, o, s, x, n, b);
    }
  }

  /** How executing and processing `block` ends: the manager is `m'` then, and the next height is `next`. */
  ghost predicate TurnEnds(m: Manager, x: Input, block: Header, r: Result<seq<Transition>, ManagerError>, m': Manager,
                           next: nat)
  {
    match Process(m, Executed(Transition(block, m.root, x.root, x.slot), x.changes, x.finalized))
    case Ok((processed, final)) => r == Ok(final) && m' == processed && next == block.height + 1
    case Err(e) => r == Err(e) && next == block.height
  }

  /** How a turn of the loop ends. */
  ghost predicate IterationEnds(s: Node, x: Input, r: Result<seq<Transition>, ManagerError>, m': Manager, next: nat) {
    match Step(s, x)
    case Ok(s') => r.Ok? && m' == s'.manager && next == s'.next
    case Err(e) => r == Err(e)
  }

  /** A turn is its two halves. */
  lemma StepBy(s: Node, x: Input, p: Prepared, r: Result<seq<Transition>, ManagerError>, m': Manager, next: nat)
    requires Prepare(s.manager, x.chain, x.chain(s.next)) == Ok(p) && TurnEnds(p.manager, x, p.block, r, m', next)
    ensures IterationEnds(s, x, r, m', next)
  {
  }

  /** The last transition has the given final root and slot. */
  ghost predicate EndsWith(ts: seq<Transition>, root: Root, slot: nat) {
    ts != [] && ts[|ts| - 1].finalRoot == root && ts[|ts| - 1].slot == slot
  }

  /** What is final is at or below the height, and what is first among the seen is above it. */
  ghost predicate SplitAt(final: seq<Transition>, seen: seq<Transition>, height: nat) {
    (forall t :: t in final ==> t.header.height <= height) && (seen != [] ==> seen[0].header.height > height)
  }

  /** The containers of the storage hold change sets for the same snapshots. */
  ghost predicate AlignedNode(s: Node) {
    Aligned(s.manager.storage.group)
  }

  /** Each turn of a run may be taken when it comes. */
  ghost predicate AllReady(s: Node, xs: seq<Input>)
    decreases |xs|
  {
    || xs == []
    || (MayTurn(s, xs[0]) && AlignedNode(s) && (Step(s, xs[0]).Ok? ==> AllReady(Step(s, xs[0]).value, xs[1..])))
  }

  /** How a run ends. */
  ghost predicate RunEnds(s: Node, xs: seq<Input>, r: Result<(), ManagerError>, m': Manager, next: nat) {
    match Run(s, xs)
    case Ok(s') => r.Ok? && m' == s'.manager && next == s'.next
    case Err(e) => r == Err(e)
  }

  lemma NodeAligned(headers: Hash -> Header, o: Origin, s: Node)
    requires RunInv(headers, o, s)
    ensures AlignedNode(s)
  {
  }

  /** Under the environment's promises every run from a sound node may be taken. */
  lemma {:induction false} RunReady(headers: Hash -> Header, o: Origin, s: Node, xs: seq<Input>)
    requires RunInv(headers, o, s) && EnvAll(headers, s, xs)
    ensures AllReady(s, xs)
    decreases |xs|
  {
    if xs != [] {
      TurnReady(headers, o, s, xs[0]);
      NodeAligned(headers, o, s);
      var n, b := StepOkIff(headers, o, s, xs[0]);
      if Step(s, xs[0]).Ok? {
        RunReady(headers, o, Step(s, xs[0]).value, xs[1..]);
      }
    }
  }

  /** The run from `s` on the inputs from `k` on. */
  lemma ReadyNext(s: Node, xs: seq<Input>, k: nat)
    requires k < |xs| && AllReady(s, xs[k..])
    ensures MayTurn(s, xs[k]) && AlignedNode(s)
    ensures match Step(s, xs[k])
            case Ok(s') => AllReady(s', xs[k + 1..]) && Run(s, xs[k..]) == Run(s', xs[k + 1..])
            case Err(e) => Run(s, xs[k..]) == Err(e)
  {
    assert xs[k..][0] == xs[k] && xs[k..][1..] == xs[k + 1..];
  }

  /** What a run that ended means. */
  lemma RunMeans(headers: Hash -> Header, o: Origin, start: Node, xs: seq<Input>)
    requires RunInv(headers, o, start) && EnvAll(headers, start, xs)
    ensures NeverReturns(start, xs) ==> Run(start, xs).Ok?
    ensures Run(start, xs).Ok? ==> RunInv(headers, o, Run(start, xs).value)
    ensures Run(start, xs).Ok? && xs != [] ==> Run(start, xs).value.manager.root == xs[|xs| - 1].root
  {
    if NeverReturns(start, xs) {
      RunSafe(headers, o, start, xs);
    }
    RunSound(headers, o, start, xs);
    if Run(start, xs).Ok? {
      var n, turns := RunRecords(start, xs);
    }
  }

  class StateTransitionRunner {
    const manager: StateManager
    var nextHeight: nat

    constructor (manager: StateManager, start: nat)
      ensures this.manager == manager && nextHeight == start
    {
      this.manager, nextHeight := manager, start;
    }

    /** One turn of the loop. */
    method Iterate(x: Input, ghost s: Node) returns (r: Result<seq<Transition>, ManagerError>)
      requires manager.Model() == s.manager && nextHeight == s.next && MayTurn(s, x)
      requires AlignedNode(s)
      modifies this, manager, manager.storage, manager.storage.containers
      ensures IterationEnds(s, x, r, manager.Model(), nextHeight)
      ensures r.Ok? ==>
                && manager.stateRoot == x.root
                && EndsWith(r.value + manager.seen, x.root, x.slot) && SplitAt(r.value, manager.seen, x.finalized)
    {
      ghost var prep := Prepare(s.manager, x.chain, x.chain(s.next));
      var prepared := manager.PrepareStorage(x.chain(nextHeight), x.chain);
      if prepared.Err? {
        return Err(prepared.error);
      }
      var (_, block) := prepared.value;
      r := Turn(x, block);
      StepBy(s, x, prep.value, r, manager.Model(), nextHeight);
    }

    /** Executes and processes the block that was prepared. */
    method Turn(x: Input, block: Header) returns (r: Result<seq<Transition>, ManagerError>)
      requires MayProcess(manager.Model(), Transition(block, manager.stateRoot, x.root, x.slot))
      modifies this, manager, manager.storage, manager.storage.containers
      ensures TurnEnds(old(manager.Model()), x, block, r, manager.Model(), nextHeight)
      ensures r.Ok? ==>
                && manager.stateRoot == x.root && SplitAt(r.value, manager.seen, x.finalized)
                && EndsWith(r.value + manager.seen, x.root, x.slot)
                && r.value + manager.seen ==
                   old(manager.seen) + [Transition(block, old(manager.stateRoot), x.root, x.slot)]
    {
      nextHeight := block.height;
      var t := Transition(block, manager.stateRoot, x.root, x.slot);
      ghost var m := manager.Model();
      r := manager.ProcessStfChanges(x.finalized, t, x.changes);
      if r.Ok? {
        ProcessRecords(m, Executed(t, x.changes, x.finalized));
        nextHeight := nextHeight + 1;
      }
    }

    /** One turn after the other, up to the first error. */
    method RunAll(inputs: seq<Input>, ghost start: Node) returns (r: Result<(), ManagerError>)
      requires manager.Model() == start.manager && nextHeight == start.next && AllReady(start, inputs)
      modifies this, manager, manager.storage, manager.storage.containers
      ensures RunEnds(start, inputs, r, manager.Model(), nextHeight)
    {
      ghost var s := start;
      var k := 0;
      assert inputs[0..] == inputs;
      while k < |inputs|
        invariant 0 <= k <= |inputs| && AllReady(s, inputs[k..]) && Run(s, inputs[k..]) == Run(start, inputs)
        invariant manager.Model() == s.manager && nextHeight == s.next
      {
        ReadyNext(s, inputs, k);
        var turn := Iterate(inputs[k], s);
        if turn.Err? {
          return Err(turn.error);
        }
        s := Step(s, inputs[k]).value;
        k := k + 1;
      }
      return Ok(());
    }

    /** A whole run, from any sound node: the code ends where the run of the functions ends, in a sound node or with
        the same error. */
    method RunInProcess(inputs: seq<Input>, ghost headers: Hash -> Header, ghost o: Origin, ghost start: Node)
      returns (r: Result<(), ManagerError>)
      requires manager.Model() == start.manager && nextHeight == start.next
      requires RunInv(headers, o, start) && EnvAll(headers, start, inputs)
      modifies this, manager, manager.storage, manager.storage.containers
      ensures RunEnds(start, inputs, r, manager.Model(), nextHeight)
      ensures r.Ok? ==> RunInv(headers, o, Run(start, inputs).value)
      ensures NeverReturns(start, inputs) ==> r.Ok?
      ensures r.Ok? && inputs != [] ==> manager.stateRoot == inputs[|inputs| - 1].root
    {
      RunReady(headers, o, start, inputs);
      RunMeans(headers, o, start, inputs);
      r := RunAll(inputs, start);
    }
  }

  // ----- how runs start

  /** Saves the changes of a block, whose state is `id`, and finalizes it at once. */
  method SaveAndFinalize(storage: ProverStorageManager, h: Header, changes: Group<ChangeSet>, id: SnapshotId)
    returns (r: Result<SnapshotId, StorageError>)
    requires Inv(storage.Model()) && KnownAt(storage.blocksToParent, storage.blockHashToSnapshotId, h)
    modifies storage, storage.containers
    ensures match ChangesSaved(old(storage.Model()), h, changes)
            case Err(e) => r == Err(e) && storage.Model() == old(storage.Model())
            case Ok(saved) =>
              match Settled(saved, h)
              case Err(e) => r == Err(e) && storage.Model() == saved
              case Ok(f) => r == Ok(id) && storage.Model() == f
  {
    ghost var f := storage.Model();
    var saved := storage.SaveChangeSet(h, changes);
    if saved.Err? {
      return Err(saved.error);
    }
    SaveChangeSetInv(f, h, changes);
    var final := storage.Finalize(h);
    return if final.Err? then Err(final.error) else Ok(id);
  }

  /** Requests the state for the genesis block, saves its changes and finalizes it. */
  method InitChain(storage: ProverStorageManager, h: Header, changes: Group<ChangeSet>, ghost dbs: Group<Table>,
                   ghost root: Root)
    returns (r: Result<SnapshotId, StorageError>)
    requires storage.Model() == Bootstrapped(Empty(dbs))
    modifies storage, storage.containers
    ensures if h.hash == h.prev then r == Err(CorruptBlock)
            else r == Ok(2) && storage.Model() == GenesisForest(dbs, GenesisEntry(h, changes, root))
  {
    var state := storage.CreateStateFor(h);
    if state.Err? {
      return Err(state.error);
    }
    GenesisRequested(dbs, GenesisEntry(h, changes, root));
    r := SaveAndFinalize(storage, h, changes, state.value);
  }

  /** Without history: the genesis block is executed, saved and finalized. RPC endpoints keep the bootstrap state. */
  method StartFromGenesis(dbs: Group<Table>, h: Header, changes: Group<ChangeSet>, root: Root, ghost chain: Chain)
    returns (r: Result<StateTransitionRunner, ManagerError>)
    ensures h.hash == h.prev ==> r == Err(Storage(CorruptBlock))
    ensures h.hash != h.prev ==>
              var node := GenesisNode(dbs, GenesisEntry(h, changes, root), chain);
              r.Ok? && r.value.manager.Model() == node.manager && r.value.nextHeight == node.next
  {
    var storage := new ProverStorageManager(dbs);
    var bootstrap := storage.CreateBootstrapState();
    var state := InitChain(storage, h, changes, dbs, root);
    if state.Err? {
      return Err(Storage(state.error));
    }
    var manager := new StateManager(storage, root, bootstrap, state.value);
    var runner := new StateTransitionRunner(manager, h.height + 1);
    return Ok(runner);
  }

  /** What initialization needs to know of the storage once the state for genesis was requested. */
  lemma GenesisRequested(dbs: Group<Table>, e: Entry)
    requires StateFor(Bootstrapped(Empty(dbs)), e.transition.header).Ok?
    ensures var h, f := e.transition.header, StateFor(Bootstrapped(Empty(dbs)), e.transition.header).value;
            && h.hash != h.prev && Inv(f) && KnownAt(f.parent, f.snap, h) && f.snap[h.hash] == 2
            && ChangesSaved(f, h, e.changes).Ok?
            && Settled(ChangesSaved(f, h, e.changes).value, h) == Ok(GenesisForest(dbs, e))
  {
    GenesisSafe(dbs, e);
    GenesisTracked(dbs, e);
    GrownInv(Bootstrapped(Empty(dbs)), e.transition.header);
  }

  ghost function GenesisEntry(h: Header, changes: Group<ChangeSet>, root: Root): Entry {
    Entry(Transition(h, 0, root, 0), changes)
  }

  /** With history: execution resumes above the last block that was processed, whose changes are in the databases. */
  method StartFromHistory(o: Origin, ghost chain: Chain) returns (runner: StateTransitionRunner)
    ensures runner.manager.Model() == Start(o, chain).manager && runner.nextHeight == Start(o, chain).next
  {
    var storage := new ProverStorageManager(o.dbs);
    var bootstrap := storage.CreateBootstrapState();
    var manager := new StateManager(storage, o.root, bootstrap, bootstrap);
    runner := new StateTransitionRunner(manager, o.header.height + 1);
  }
}
