/** A run that fails: the DA chain leaves a fork and then returns to it. */
module Returning {
  import opened Wrappers
  import opened Basics
  import opened Containers
  import opened Forest
  import opened ForestProofs
  import opened Rollup
  import opened ReorgProofs
  import opened TrackingProofs
  import opened RollupProofs
  import opened RunSafety

  /** Saving and publishing a block tracks no less than before, and uses one id. */
  lemma PublishedTracks(f: Forest, h: Header, changes: Group<ChangeSet>)
    requires SavedAndPublished(f, h, changes).Ok? && f.latest + 1 < ID_LIMIT
    ensures var f' := SavedAndPublished(f, h, changes).value; f'.snap == f.snap && f'.latest == f.latest + 1
  {
  }

  /** With nothing final, processing only adds to what is seen and tracked. */
  lemma ProcessAdds(m: Manager, x: Executed)
    requires Process(m, x).Ok? && FinalCount(m.seen + [x.transition], x.finalized) == 0
    requires m.storage.latest + 1 < ID_LIMIT
    ensures var (m', final) := Process(m, x).value;
            final == [] && m'.storage.snap == m.storage.snap && m'.storage.latest == m.storage.latest + 1
  {
    PublishedTracks(m.storage, x.transition.header, x.changes);
  }

  /** Blocks above the finalized height are not counted as final. */
  lemma NoneFinal(ts: seq<Transition>, height: nat)
    requires ts != [] ==> ts[0].header.height > height
    ensures FinalCount(ts, height) == 0
  {
  }

  /** What one iteration does when nothing becomes final and it resumes above `n` seen blocks. */
  ghost predicate Extended(s: Node, x: Input, n: nat, b: Header, s': Node) {
    && n <= |s.open| && s'.final == s.final && |s'.open| == n + 1 && s'.open[..n] == s.open[..n]
    && s'.open[n].transition.header == b && s'.next == b.height + 1
    && s'.abandoned == s.abandoned + Hashes(s.open[n..])
    && s'.settled == Greatest(s.settled, x.finalized) && s'.chain == x.chain
    && s'.manager.storage.latest == s.manager.storage.latest + 2
    && s.manager.storage.snap.Keys + {b.hash} <= s'.manager.storage.snap.Keys
  }

  lemma AssembleExtends(s: Node, x: Input, n: nat, b: Header, p: Prepared)
    requires n <= |s.open| && |p.manager.seen| == n && p.block == b && s.manager.storage.latest + 2 < ID_LIMIT
    requires p.manager.storage == Grown(s.manager.storage, b)
    requires Prepare(s.manager, x.chain, x.chain(s.next)) == Ok(p) && Step(s, x).Ok?
    requires FinalCount(p.manager.seen + [Executing(p, x).transition], x.finalized) == 0
    ensures Extended(s, x, n, b, Step(s, x).value)
  {
    ProcessAdds(p.manager, Executed(Executing(p, x).transition, x.changes, x.finalized));
  }

  /** An iteration that resumes at an untracked block with nothing final extends the node. */
  lemma StepExtends(headers: Hash -> Header, o: Origin, s: Node, x: Input, n: nat, b: Header) returns (s': Node)
    requires RunInv(headers, o, s) && KeepsNow(headers, o, s, x, n, b) && b.hash !in s.manager.storage.snap
    requires x.finalized == o.header.height && s.final == []
    ensures Step(s, x) == Ok(s') && RunInv(headers, o, s') && Extended(s, x, n, b, s')
  {
    StepSucceeds(headers, o, s, x, n, b);
    s' := Step(s, x).value;
    var p := PrepareSafe(headers, o, s, x, n, b);
    var ts := p.manager.seen + [Executing(p, x).transition];
    assert s.manager.seen != [] ==> Continues(o.header, o.root, s.manager.seen, 0);
    NoneFinal(ts, x.finalized);
    AssembleExtends(s, x, n, b, p);
  }

  // ----- the blocks

  const GENESIS := Header(10, 9, 0)
  const A := Header(11, 10, 1)
  const AFTER_A := Header(21, 11, 2)
  const B := Header(12, 10, 1)
  const AFTER_B := Header(22, 12, 2)

  function HeaderOf(h: Hash): Header {
    if h == 10 then GENESIS else if h == 11 then A else if h == 12 then B else if h == 21 then AFTER_A else AFTER_B
  }

  function ChainA(h: nat): Header {
    if h == 0 then GENESIS else if h == 1 then A else AFTER_A
  }

  function ChainB(h: nat): Header {
    if h == 0 then GENESIS else if h == 1 then B else AFTER_B
  }

  const NOTHING: Group<ChangeSet> := Group(map[], map[], map[])

  const ORIGIN := Origin(GENESIS, 0, Group(map[], map[], map[]))

  /** The DA layer shows fork `A`, then `B`, then `A` again; nothing becomes final. */
  function See(chain: Chain): Input {
    Input(chain, 0, NOTHING, 0, 0)
  }

  lemma EnvHolds(s: Node, chain: Chain)
    requires chain == ChainA || chain == ChainB
    requires s.next <= 2 && s.settled == 0 && s.chain(0) == GENESIS && s.manager.storage.latest + 2 < ID_LIMIT
    ensures Env(HeaderOf, s, See(chain))
  {
    assert forall h: nat :: h < s.next ==> LinkedAt(chain, h);
  }

  /** Resuming at `b`, one above the origin. */
  lemma ResumesAt(s: Node, chain: Chain) returns (n: nat, b: Header)
    requires chain == ChainA || chain == ChainB
    requires RunInv(HeaderOf, ORIGIN, s) && Env(HeaderOf, s, See(chain)) && s.final == []
    requires |s.open| == 1 ==> s.open[0].transition.header != chain(1)
    requires |s.open| <= 1
    ensures KeepsNow(HeaderOf, ORIGIN, s, See(chain), n, b) && n == 0 && b == chain(1)
  {
    n, b := ResumeSafe(HeaderOf, ORIGIN, s, See(chain));
    assert TipOf(ORIGIN, s.final) == GENESIS;
    assert s.open != [] ==> Continues(GENESIS, 0, Transitions(s.open), 0);
  }

  /** A node that has seen the block of `seen`, if any, and finalized nothing. */
  ghost predicate Saw(s: Node, seen: set<Header>, latest: nat) {
    && s.final == [] && |s.open| <= 1 && s.next == 1 + |s.open|
    && seen == (if s.open == [] then {} else {s.open[0].transition.header})
    && s.settled == 0 && s.chain(0) == GENESIS && s.manager.storage.latest == latest
  }

  lemma SawNext(s: Node, chain: Chain, seen: set<Header>, latest: nat, s': Node)
    requires Saw(s, seen, latest) && Extended(s, See(chain), 0, chain(1), s')
    requires chain(0) == GENESIS && chain(1).height == 1
    ensures Saw(s', {chain(1)}, latest + 2) && s'.abandoned == s.abandoned + Hashes(s.open)
    ensures s.manager.storage.snap.Keys + {chain(1).hash} <= s'.manager.storage.snap.Keys
  {
    assert s.open[0..] == s.open;
  }

  lemma NewFork(s: Node, chain: Chain, seen: set<Header>, latest: nat) returns (n: nat, b: Header)
    requires chain == ChainA || chain == ChainB
    requires RunInv(HeaderOf, ORIGIN, s) && Saw(s, seen, latest) && latest < 10
    requires chain(1) !in seen && chain(1).hash !in s.abandoned
    ensures KeepsNow(HeaderOf, ORIGIN, s, See(chain), n, b) && n == 0 && b == chain(1)
    ensures b.hash !in s.manager.storage.snap
  {
    EnvHolds(s, chain);
    n, b := ResumesAt(s, chain);
    NotSeenNotTracked(HeaderOf, chain, s.manager.storage, GENESIS, 0, s.open, s.abandoned, n, b);
  }

  /** Seeing a fork that was not seen before: its first block replaces the one seen, and both are tracked. */
  lemma Switches(s: Node, chain: Chain, seen: set<Header>, latest: nat) returns (s': Node)
    requires chain == ChainA || chain == ChainB
    requires RunInv(HeaderOf, ORIGIN, s) && Saw(s, seen, latest) && latest < 10
    requires chain(1) !in seen && chain(1).hash !in s.abandoned
    ensures Step(s, See(chain)) == Ok(s') && RunInv(HeaderOf, ORIGIN, s')
    ensures Saw(s', {chain(1)}, latest + 2) && s'.abandoned == s.abandoned + Hashes(s.open)
    ensures s.manager.storage.snap.Keys + {chain(1).hash} <= s'.manager.storage.snap.Keys
  {
    var n, b := NewFork(s, chain, seen, latest);
    s' := StepExtends(HeaderOf, ORIGIN, s, See(chain), n, b);
    SawNext(s, chain, seen, latest, s');
  }

  /** Seeing a fork again after it was left. */
  lemma Errs(s: Node, chain: Chain, seen: set<Header>, latest: nat)
    requires chain == ChainA || chain == ChainB
    requires RunInv(HeaderOf, ORIGIN, s) && Saw(s, seen, latest) && latest < 10 && chain(1) !in seen
    requires chain(1).hash in s.manager.storage.snap
    ensures Env(HeaderOf, s, See(chain)) && Step(s, See(chain)) == Err(Storage(DuplicateChangeSet))
  {
    EnvHolds(s, chain);
    var n, b := ResumesAt(s, chain);
    ReturnFails(HeaderOf, ORIGIN, s, See(chain), n, b);
  }

  lemma First(x: Input) returns (s: Node, a: Node)
    requires x == See(ChainA)
    ensures s == Start(ORIGIN, ChainA) && Step(s, x) == Ok(a)
    ensures RunInv(HeaderOf, ORIGIN, a) && Saw(a, {A}, 3) && a.abandoned == {} && A.hash in a.manager.storage.snap
  {
    s := Start(ORIGIN, ChainA);
    StartSafe(HeaderOf, ORIGIN, ChainA);
    a := Switches(s, ChainA, {}, 1);
    assert Hashes(s.open) == {};
  }

  lemma Second(a: Node, y: Input) returns (b: Node)
    requires RunInv(HeaderOf, ORIGIN, a) && Saw(a, {A}, 3) && a.abandoned == {} && A.hash in a.manager.storage.snap
    requires y == See(ChainB)
    ensures Step(a, y) == Ok(b)
    ensures RunInv(HeaderOf, ORIGIN, b) && Saw(b, {B}, 5) && A.hash in b.manager.storage.snap
  {
    b := Switches(a, ChainB, {A}, 3);
  }

  lemma Third(b: Node, x: Input)
    requires RunInv(HeaderOf, ORIGIN, b) && Saw(b, {B}, 5) && A.hash in b.manager.storage.snap
    requires x == See(ChainA)
    ensures Env(HeaderOf, b, x) && Step(b, x) == Err(Storage(DuplicateChangeSet))
  {
    Errs(b, ChainA, {B}, 5);
  }

  /** The state manager errs although the DA layer kept its promises about chain and finality: after fork `A` was
      left for `B`, it saved the block it returns to before. */
  lemma ReturnErrs(x: Input, y: Input) returns (s: Node, a: Node, b: Node)
    requires x == See(ChainA) && y == See(ChainB)
    ensures s == Start(ORIGIN, ChainA) && Step(s, x) == Ok(a) && Step(a, y) == Ok(b)
    ensures Env(HeaderOf, b, x) && Step(b, x) == Err(Storage(DuplicateChangeSet))
  {
    s, a := First(x);
    b := Second(a, y);
    Third(b, x);
  }
}
