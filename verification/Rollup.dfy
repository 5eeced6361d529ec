/** The state manager and the run loop that drives it, as functions on values: one iteration fetches the
    next DA block, rewinds if the DA chain forked, saves the executed block and finalizes what the DA
    layer reports as final. */
module Rollup {
  import opened Wrappers
  import opened Basics
  import opened Containers
  import opened Forest

  type Root = nat

  /** The DA block at each height, as the DA service answers during one iteration. */
  type Chain = nat -> Header

  datatype Transition = Transition(header: Header, initialRoot: Root, finalRoot: Root, slot: nat)

  datatype ManagerError = Storage(error: StorageError) | NoCommonBlock

  /** `rpc` and `ledger` are the snapshots that RPC endpoints and the ledger currently read. */
  datatype Manager = Manager(
    storage: Forest,
    root: Root,
    seen: seq<Transition>,
    rpc: SnapshotId,
    ledger: SnapshotId)

  datatype ForkPoint = ForkPoint(kept: seq<Transition>, block: Header, preRoot: Root)

  /** Traverses seen transitions backwards to one whose parent is on the chain. */
  function Rewind(seen: seq<Transition>, chain: Chain): Result<ForkPoint, ManagerError> {
    if seen == [] then Err(NoCommonBlock)
    else
      var t, rest := seen[|seen| - 1], seen[..|seen| - 1];
      var block := chain(t.header.height);
      if block.prev == t.header.prev then Ok(ForkPoint(rest, block, t.initialRoot)) else Rewind(rest, chain)
  }

  /** `block` does not continue the last seen transition. */
  predicate Forked(seen: seq<Transition>, block: Header) {
    seen != [] && seen[|seen| - 1].header.hash != block.prev
  }

  /** The block to execute, the manager, and the snapshot handed to the state transition function. */
  datatype Prepared = Prepared(manager: Manager, block: Header, state: SnapshotId)

  ghost function Prepare(m: Manager, chain: Chain, block: Header): Result<Prepared, ManagerError> {
    var forked := Forked(m.seen, block);
    if forked && Rewind(m.seen, chain).Err? then Err(NoCommonBlock)
    else
      var point := if forked then Rewind(m.seen, chain).value else ForkPoint(m.seen, block, m.root);
      match StateFor(m.storage, point.block)
      case Err(e) => Err(Storage(e))
      case Ok(f) =>
        var id := IdOf(f, point.block.hash);
        Ok(Prepared(Manager(f, point.preRoot, point.kept,
                            if forked then id else m.rpc, if forked then id else m.ledger),
                    point.block, id))
  }

  /** What a preparation that errs leaves behind: the deque as far as it was rewound, and the storage as it was. */
  ghost function PrepareLeft(m: Manager, chain: Chain, block: Header): Manager {
    if !Forked(m.seen, block) then m
    else
      match Rewind(m.seen, chain)
      case Err(_) => m.(seen := [])
      case Ok(point) => m.(seen := point.kept, root := point.preRoot)
  }

  /** How many of the oldest seen transitions are at or below the finalized height. */
  function FinalCount(seen: seq<Transition>, height: nat): (n: nat)
    ensures n <= |seen|
  {
    if seen != [] && seen[0].header.height <= height then 1 + FinalCount(seen[1..], height) else 0
  }

  /** Finalizes the blocks of `ts` one after the other. */
  ghost function SettleAll(f: Forest, ts: seq<Transition>): Result<Forest, StorageError>
    decreases |ts|
  {
    if ts == [] then Ok(f)
    else
      match Settled(f, ts[0].header)
      case Err(e) => Err(e)
      case Ok(f') => SettleAll(f', ts[1..])
  }

  /** The storage when finalizing the blocks of `ts` one after the other ends, at an error or after the last. */
  ghost function SettleLeft(f: Forest, ts: seq<Transition>): Forest
    decreases |ts|
  {
    if ts == [] then f
    else
      match Settled(f, ts[0].header)
      case Err(_) => f
      case Ok(f') => SettleLeft(f', ts[1..])
  }

  /** What executing one block yields, and the finalized height the DA layer reports. */
  datatype Executed = Executed(transition: Transition, changes: Group<ChangeSet>, finalized: nat)

  /** Saves the changes of a block, and hands out the state after it. */
  ghost function SavedAndPublished(f: Forest, h: Header, changes: Group<ChangeSet>): Result<Forest, StorageError> {
    match ChangesSaved(f, h, changes)
    case Err(e) => Err(e)
    case Ok(saved) => StateAfter(saved, h)
  }

  /** The storage when saving and publishing ends, at an error or after both. */
  ghost function PublishLeft(f: Forest, h: Header, changes: Group<ChangeSet>): Forest {
    match ChangesSaved(f, h, changes)
    case Err(_) => f
    case Ok(saved) => if StateAfter(saved, h).Ok? then StateAfter(saved, h).value else saved
  }

  ghost function Process(m: Manager, x: Executed): Result<(Manager, seq<Transition>), ManagerError> {
    var seen := m.seen + [x.transition];
    var n := FinalCount(seen, x.finalized);
    match SavedAndPublished(m.storage, x.transition.header, x.changes)
    case Err(e) => Err(Storage(e))
    case Ok(after) =>
      match SettleAll(after, seen[..n])
      case Err(e) => Err(Storage(e))
      case Ok(f) => Ok((Manager(f, x.transition.finalRoot, seen[n..], after.latest, after.latest), seen[..n]))
  }

  /** What processing that errs leaves behind: the deque is split already, and the storage is as far as it got. */
  ghost function ProcessLeft(m: Manager, x: Executed): Manager {
    var seen := m.seen + [x.transition];
    var n := FinalCount(seen, x.finalized);
    match SavedAndPublished(m.storage, x.transition.header, x.changes)
    case Err(_) => m.(storage := PublishLeft(m.storage, x.transition.header, x.changes), seen := seen[n..])
    case Ok(after) => Manager(SettleLeft(after, seen[..n]), m.root, seen[n..], after.latest, after.latest)
  }

  // ----- the run loop

  /** A transition and the changes it wrote. */
  datatype Entry = Entry(transition: Transition, changes: Group<ChangeSet>)

  /** Environment of one iteration. The state transition function is any choice of changes and root. */
  datatype Input = Input(chain: Chain, finalized: nat, changes: Group<ChangeSet>, root: Root, slot: nat)

  /** Where the rollup starts: above a finalized block, with databases in a known state. */
  datatype Origin = Origin(header: Header, root: Root, dbs: Group<Table>)

  /** The loop state, and the history the properties speak of: entries finalized so far, entries seen
      but not final, hashes of blocks dropped in reorgs, the highest height reported final, and the
      chain last seen. */
  datatype Node = Node(
    manager: Manager,
    next: nat,
    final: seq<Entry>,
    open: seq<Entry>,
    abandoned: set<Hash>,
    settled: nat,
    chain: Chain)

  ghost function Hashes(entries: seq<Entry>): set<Hash> {
    set e | e in entries :: e.transition.header.hash
  }

  ghost function Executing(p: Prepared, x: Input): Entry {
    Entry(Transition(p.block, p.manager.root, x.root, x.slot), x.changes)
  }

  /** The node after an iteration in which the `fin` oldest seen entries became final. */
  ghost function Assemble(s: Node, x: Input, p: Prepared, m: Manager, fin: nat): Node {
    var kept := Least(|p.manager.seen|, |s.open|);
    var open := s.open[..kept] + [Executing(p, x)];
    var n := Least(fin, |open|);
    Node(m, p.block.height + 1, s.final + open[..n], open[n..], s.abandoned + Hashes(s.open[kept..]),
         Greatest(s.settled, x.finalized), x.chain)
  }

  /** One iteration of the loop. */
  ghost function Step(s: Node, x: Input): Result<Node, ManagerError> {
    match Prepare(s.manager, x.chain, x.chain(s.next))
    case Err(e) => Err(e)
    case Ok(p) =>
      match Process(p.manager, Executed(Executing(p, x).transition, x.changes, x.finalized))
      case Err(e) => Err(e)
      case Ok((m, fin)) => Ok(Assemble(s, x, p, m, |fin|))
  }

  ghost function Run(s: Node, xs: seq<Input>): Result<Node, ManagerError>
    decreases |xs|
  {
    if xs == [] then Ok(s)
    else
      match Step(s, xs[0])
      case Err(e) => Err(e)
      case Ok(s') => Run(s', xs[1..])
  }

  /** The naive meaning of a sequence of blocks: their changes, one after the other, onto the databases. */
  ghost function Replay(dbs: Group<Table>, entries: seq<Entry>): Group<Table> {
    if entries == [] then dbs
    else OverlayAll(Replay(dbs, entries[..|entries| - 1]), entries[|entries| - 1].changes)
  }

  // ----- what the environment keeps

  ghost predicate LinkedAt(chain: Chain, h: nat) {
    chain(h + 1).prev == chain(h).hash
  }

  /** Heights are one apart and hashes linked, up to `top`. */
  ghost predicate Canonical(chain: Chain, top: nat) {
    && (forall h: nat :: h <= top ==> chain(h).height == h)
    && (forall h: nat {:trigger LinkedAt(chain, h)} :: h < top ==> LinkedAt(chain, h))
  }

  /** The DA chain of an iteration: canonical, with hashes that determine headers, and never rewriting a height
      once reported final. The id counter does not wrap. */
  ghost predicate Env(headers: Hash -> Header, s: Node, x: Input) {
    && Canonical(x.chain, s.next)
    && (forall h: nat :: h <= s.next ==> headers(x.chain(h).hash) == x.chain(h))
    && (forall h: nat :: h <= s.settled ==> x.chain(h) == s.chain(h))
    && s.manager.storage.latest + 2 < ID_LIMIT
  }

  /** The DA chain does not return to a fork that was abandoned. */
  ghost predicate NoReturn(s: Node, x: Input) {
    forall h: nat :: h <= s.next ==> x.chain(h).hash !in s.abandoned
  }

  /** The environment keeps its promises at each iteration of a run. */
  ghost predicate EnvAll(headers: Hash -> Header, s: Node, xs: seq<Input>)
    decreases |xs|
  {
    xs == [] ||
    (Env(headers, s, xs[0]) && (Step(s, xs[0]).Ok? ==> EnvAll(headers, Step(s, xs[0]).value, xs[1..])))
  }

  /** At no iteration of a run does the DA chain return to an abandoned fork. */
  ghost predicate NeverReturns(s: Node, xs: seq<Input>)
    decreases |xs|
  {
    xs == [] || (NoReturn(s, xs[0]) && (Step(s, xs[0]).Ok? ==> NeverReturns(Step(s, xs[0]).value, xs[1..])))
  }
}
