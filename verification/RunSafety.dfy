/** What holds at the head of the run loop in every run, through any reorgs and finalizations. */
module RunSafety {
  import opened Wrappers
  import opened Basics
  import opened Containers
  import opened Forest
  import opened ForestProofs
  import opened Rollup
  import opened ReorgProofs
  import opened TrackingProofs
  import opened RollupProofs

  // ----- one iteration, above the last final block

  /** The DA chain as one iteration sees it from the seen chain above `tip`. */
  ghost predicate Ready(headers: Hash -> Header, chain: Chain, tip: Header, root: Root, ts: seq<Transition>) {
    && Chained(tip, root, ts) && Agrees(headers, chain, tip, ts)
    && chain(tip.height) == tip && LinkedAt(chain, tip.height + |ts|)
    && (forall h: nat :: h <= tip.height + |ts| + 1 ==> headers(chain(h).hash) == chain(h) && chain(h).height == h)
  }

  /** Of the seen chain, exactly the `n` oldest are on the DA chain. */
  ghost predicate KeepsExactly(chain: Chain, ts: seq<Transition>, n: nat) {
    && n <= |ts| && (n < |ts| ==> !OnChain(chain, ts[n]))
    && (forall k {:trigger OnChain(chain, ts[k])} :: 0 <= k < n ==> OnChain(chain, ts[k]))
  }

  /** The reorg check, if there is a fork, resumes right above the `n` oldest seen blocks. */
  ghost predicate Resumes(chain: Chain, block: Header, tip: Header, root: Root, ts: seq<Transition>, n: nat) {
    && n <= |ts| && (n == |ts| ==> block == chain(tip.height + 1 + n))
    && if Forked(ts, block)
       then Rewind(ts, chain) == Ok(ForkPoint(ts[..n], chain(tip.height + 1 + n), RootAt(root, ts, n)))
       else n == |ts|
  }

  /** Where execution resumes: the reorg check can only succeed. */
  lemma ResumePoint(headers: Hash -> Header, chain: Chain, tip: Header, root: Root, ts: seq<Transition>, next: nat)
    returns (n: nat)
    requires Ready(headers, chain, tip, root, ts) && next == tip.height + |ts| + 1
    ensures KeepsExactly(chain, ts, n) && Resumes(chain, chain(next), tip, root, ts, n)
  {
    ForkedIff(headers, chain, tip, root, ts);
    if Forked(ts, chain(tip.height + |ts| + 1)) {
      RewindKeepsCommonPrefix(headers, chain, tip, root, ts);
      CommonMeans(ts, chain);
      n := Common(ts, chain);
    } else {
      UnforkedOnChain(headers, chain, tip, root, ts);
      n := |ts|;
    }
  }

  /** The block to execute continues what is kept. */
  lemma ResumesAtNext(headers: Hash -> Header, chain: Chain, tip: Header, root: Root, open: seq<Entry>,
                      snap: map<Hash, SnapshotId>, n: nat)
    requires Ready(headers, chain, tip, root, Transitions(open)) && KeepsExactly(chain, Transitions(open), n)
    requires chain(tip.height + 1 + n).hash !in snap
    ensures IsNext(headers, snap, tip, open[..n], chain(tip.height + 1 + n))
  {
    var ts := Transitions(open);
    assert LinkedAt(chain, tip.height + n);
    assert n > 0 ==> OnChain(chain, ts[n - 1]);
    ResumesAbove(headers, chain, tip, root, ts, n);
    assert Transitions(open[..n]) == ts[..n];
  }

  /** The resumed block is none of the seen ones. */
  lemma ResumedIsNew(headers: Hash -> Header, chain: Chain, tip: Header, root: Root, open: seq<Entry>, n: nat)
    requires Ready(headers, chain, tip, root, Transitions(open)) && KeepsExactly(chain, Transitions(open), n)
    ensures chain(tip.height + 1 + n).hash !in Hashes(open)
  {
    var ts, b := Transitions(open), chain(tip.height + 1 + n);
    assert LinkedAt(chain, tip.height + n);
    assert n > 0 ==> OnChain(chain, ts[n - 1]);
    ResumesAbove(headers, chain, tip, root, ts, n);
    forall e | e in open ensures HashOf(e) != b.hash {
      var k :| 0 <= k < |open| && open[k] == e;
      assert ts[k] == e.transition && Continues(tip, root, ts, k);
      assert headers(ts[k].header.hash) == ts[k].header;
    }
  }

  lemma ChainedPrefix(tip: Header, root: Root, ts: seq<Transition>, n: nat, t: Transition)
    requires Chained(tip, root, ts) && n <= |ts|
    requires Follows(HeaderAt(tip, ts, n), RootAt(root, ts, n), t) && t.header.height == tip.height + 1 + n
    ensures Chained(tip, root, ts[..n]) && Chained(tip, root, ts[..n] + [t])
  {
    forall k: nat | k < n ensures Continues(tip, root, ts[..n], k) && Continues(tip, root, ts[..n] + [t], k) {
      assert Continues(tip, root, ts, k);
    }
    assert Continues(tip, root, ts[..n] + [t], n);
  }

  /** The snapshot `i`, which was handed out, reads `tables`. */
  ghost predicate Reads(f: Forest, i: SnapshotId, tables: Group<Table>) {
    View(f, i) == tables && i <= f.latest
  }

  /** The state manager mirrors the storage above `tip`, over the databases `dbs`. */
  ghost predicate ManagerInv(headers: Hash -> Header, m: Manager, tip: Header, root: Root, open: seq<Entry>,
                             abandoned: set<Hash>, dbs: Group<Table>)
  {
    && Mirrors(headers, m.storage, tip, open, abandoned) && Chained(tip, root, Transitions(open))
    && m.seen == Transitions(open) && m.root == RootAt(root, Transitions(open), |open|)
    && Databases(m.storage.group) == dbs
    && Reads(m.storage, m.rpc, Replay(dbs, open)) && Reads(m.storage, m.ledger, Replay(dbs, open))
  }

  /** What preparing an iteration yields: all but `n` seen blocks are dropped, and the block right above
      the kept ones is handed out with the root they left. */
  ghost function AfterPrepare(m: Manager, forked: bool, b: Header, root: Root, n: nat): Prepared
    requires n <= |m.seen|
  {
    var id := Fresh(m.storage);
    Prepared(Manager(Grown(m.storage, b), RootAt(root, m.seen, n), m.seen[..n],
                     if forked then id else m.rpc, if forked then id else m.ledger), b, id)
  }

  lemma PrepareFrom(m: Manager, chain: Chain, block: Header, point: ForkPoint, f: Forest)
    requires if Forked(m.seen, block) then Rewind(m.seen, chain) == Ok(point)
             else point == ForkPoint(m.seen, block, m.root)
    requires StateFor(m.storage, point.block) == Ok(f)
    ensures var id, forked := IdOf(f, point.block.hash), Forked(m.seen, block);
            Prepare(m, chain, block) ==
            Ok(Prepared(Manager(f, point.preRoot, point.kept,
                                if forked then id else m.rpc, if forked then id else m.ledger), point.block, id))
  {
  }

  lemma PreparedIs(m: Manager, chain: Chain, block: Header, tip: Header, root: Root, n: nat)
    requires Resumes(chain, block, tip, root, m.seen, n) && m.root == RootAt(root, m.seen, |m.seen|)
    requires var b := chain(tip.height + 1 + n); StateFor(m.storage, b) == Ok(Grown(m.storage, b))
    ensures Prepare(m, chain, block) == Ok(AfterPrepare(m, Forked(m.seen, block), chain(tip.height + 1 + n), root, n))
  {
    var b := chain(tip.height + 1 + n);
    var point := ForkPoint(m.seen[..n], b, RootAt(root, m.seen, n));
    assert n == |m.seen| ==> m.seen[..n] == m.seen;
    PrepareFrom(m, chain, block, point, Grown(m.storage, b));
  }

  lemma PrepareReads(headers: Hash -> Header, chain: Chain, m: Manager, tip: Header, root: Root, open: seq<Entry>,
                     abandoned: set<Hash>, dbs: Group<Table>, n: nat, i: SnapshotId)
    requires ManagerInv(headers, m, tip, root, open, abandoned, dbs) && m.storage.latest + 2 < ID_LIMIT
    requires n <= |open| && IsNext(headers, m.storage.snap, tip, open[..n], chain(tip.height + 1 + n))
    requires Reads(m.storage, i, Replay(dbs, open))
    ensures var b := chain(tip.height + 1 + n); var f := Grown(m.storage, b);
            && StateFor(m.storage, b) == Ok(f) && b.hash !in m.storage.snap
            && View(f, Fresh(m.storage)) == Replay(dbs, open[..n])
            && (n == |open| ==> View(f, i) == Replay(dbs, open[..n]))
  {
    KeptMirror(headers, m.storage, tip, root, open, abandoned, n);
    NextBlock(headers, m.storage, tip, root, open[..n], abandoned + Hashes(open[n..]), chain(tip.height + 1 + n));
    HandOut(headers, m.storage, tip, root, open[..n], abandoned + Hashes(open[n..]), chain(tip.height + 1 + n), i);
    assert n == |open| ==> open[..n] == open;
  }

  lemma ReadersPrepared(headers: Hash -> Header, chain: Chain, m: Manager, tip: Header, root: Root, open: seq<Entry>,
                        abandoned: set<Hash>, dbs: Group<Table>, n: nat, b: Header)
    requires ManagerInv(headers, m, tip, root, open, abandoned, dbs) && m.storage.latest + 2 < ID_LIMIT
    requires b == chain(tip.height + 1 + n)
    requires n <= |open| && IsNext(headers, m.storage.snap, tip, open[..n], b)
    ensures StateFor(m.storage, b) == Ok(Grown(m.storage, b))
    ensures View(Grown(m.storage, b), Fresh(m.storage)) == Replay(dbs, open[..n])
    ensures n == |open| ==> View(Grown(m.storage, b), m.rpc) == Replay(dbs, open[..n])
    ensures n == |open| ==> View(Grown(m.storage, b), m.ledger) == Replay(dbs, open[..n])
  {
    PrepareReads(headers, chain, m, tip, root, open, abandoned, dbs, n, m.rpc);
    PrepareReads(headers, chain, m, tip, root, open, abandoned, dbs, n, m.ledger);
  }

  /** The iteration is prepared without an error. The seen blocks kept are exactly those on the DA chain,
      execution resumes right above them with the root they left, and both the state handed to the state
      transition function, the RPC storage and the ledger read the kept blocks replayed. */
  ghost predicate PreparedWell(headers: Hash -> Header, chain: Chain, block: Header, m: Manager, tip: Header,
                               root: Root, open: seq<Entry>, abandoned: set<Hash>, dbs: Group<Table>, n: nat,
                               p: Prepared)
  {
    && KeepsExactly(chain, m.seen, n) && n <= |open|
    && p == AfterPrepare(m, Forked(m.seen, block), chain(tip.height + 1 + n), root, n)
    && Prepare(m, chain, block) == Ok(p)
    && chain(p.block.height) == p.block
    && IsNext(headers, m.storage.snap, tip, open[..n], p.block)
    && View(p.manager.storage, p.state) == Replay(dbs, open[..n])
    && View(p.manager.storage, p.manager.rpc) == Replay(dbs, open[..n])
    && View(p.manager.storage, p.manager.ledger) == Replay(dbs, open[..n])
  }

  lemma PrepareSound(headers: Hash -> Header, chain: Chain, block: Header, m: Manager, tip: Header, root: Root,
                     open: seq<Entry>, abandoned: set<Hash>, dbs: Group<Table>, n: nat)
    requires ManagerInv(headers, m, tip, root, open, abandoned, dbs) && m.storage.latest + 2 < ID_LIMIT
    requires KeepsExactly(chain, m.seen, n) && Resumes(chain, block, tip, root, m.seen, n)
    requires IsNext(headers, m.storage.snap, tip, open[..n], chain(tip.height + 1 + n))
    ensures PreparedWell(headers, chain, block, m, tip, root, open, abandoned, dbs, n,
                         AfterPrepare(m, Forked(m.seen, block), chain(tip.height + 1 + n), root, n))
  {
    assert chain(tip.height + 1 + n).height == tip.height + 1 + n;
    ReadersPrepared(headers, chain, m, tip, root, open, abandoned, dbs, n, chain(tip.height + 1 + n));
    PreparedIs(m, chain, block, tip, root, n);
  }

  lemma PrepareCore(headers: Hash -> Header, chain: Chain, next: nat, m: Manager, tip: Header, root: Root,
                    open: seq<Entry>, abandoned: set<Hash>, dbs: Group<Table>, n: nat, b: Header)
    returns (p: Prepared)
    requires ManagerInv(headers, m, tip, root, open, abandoned, dbs) && m.storage.latest + 2 < ID_LIMIT
    requires Ready(headers, chain, tip, root, m.seen) && next == tip.height + |open| + 1
    requires KeepsExactly(chain, m.seen, n) && Resumes(chain, chain(next), tip, root, m.seen, n)
    requires b == chain(tip.height + 1 + n) && b.hash !in m.storage.snap
    ensures PreparedWell(headers, chain, chain(next), m, tip, root, open, abandoned, dbs, n, p)
  {
    ResumesAtNext(headers, chain, tip, root, open, m.storage.snap, n);
    PrepareSound(headers, chain, chain(next), m, tip, root, open, abandoned, dbs, n);
    p := AfterPrepare(m, Forked(m.seen, chain(next)), chain(tip.height + 1 + n), root, n);
  }

  lemma KeptMirror(headers: Hash -> Header, f: Forest, tip: Header, root: Root, open: seq<Entry>,
                   abandoned: set<Hash>, n: nat)
    requires Mirrors(headers, f, tip, open, abandoned) && Chained(tip, root, Transitions(open)) && n <= |open|
    ensures Mirrors(headers, f, tip, open[..n], abandoned + Hashes(open[n..]))
    ensures Transitions(open[..n]) == Transitions(open)[..n] && Chained(tip, root, Transitions(open[..n]))
  {
    RewindTracks(headers, f, tip, open, abandoned, n);
    var ts := Transitions(open);
    assert Transitions(open[..n]) == ts[..n];
    forall k: nat | k < n ensures Continues(tip, root, ts[..n], k) {
      assert Continues(tip, root, ts, k);
    }
  }

  lemma ExecutingChained(tip: Header, root: Root, open: seq<Entry>, n: nat, e: Entry)
    requires Chained(tip, root, Transitions(open)) && n <= |open|
    requires var h, r := HeaderAt(tip, Transitions(open), n), RootAt(root, Transitions(open), n);
             Follows(h, r, e.transition) && e.transition.header.height == tip.height + 1 + n
    ensures Transitions(open[..n]) == Transitions(open)[..n]
    ensures Transitions(open[..n] + [e]) == Transitions(open)[..n] + [e.transition]
    ensures Chained(tip, root, Transitions(open[..n])) && Chained(tip, root, Transitions(open[..n] + [e]))
  {
    ChainedPrefix(tip, root, Transitions(open), n, e.transition);
    assert Transitions(open[..n]) == Transitions(open)[..n];
    assert Transitions(open[..n] + [e]) == Transitions(open)[..n] + [e.transition];
  }

  /** Above the `n` oldest entries, the rest is a chain, and replays on top of them. */
  lemma Remainder(tip: Header, root: Root, open: seq<Entry>, n: nat, dbs: Group<Table>)
    requires Chained(tip, root, Transitions(open)) && n <= |open|
    ensures var ts := Transitions(open);
            && Transitions(open[n..]) == ts[n..]
            && Chained(HeaderAt(tip, ts, n), RootAt(root, ts, n), ts[n..])
            && RootAt(RootAt(root, ts, n), ts[n..], |ts[n..]|) == RootAt(root, ts, |ts|)
    ensures Replay(dbs, open) == Replay(Replay(dbs, open[..n]), open[n..])
  {
    var ts := Transitions(open);
    ChainedSplit(tip, root, ts, n);
    assert Transitions(open[n..]) == ts[n..];
    assert open == open[..n] + open[n..];
    ReplayAppend(dbs, open[..n], open[n..]);
  }

  /** Processing after a well-prepared iteration: no error, and the manager mirrors the chain that remains above
      the newly final blocks. */
  lemma ProcessSound(headers: Hash -> Header, f: Forest, tip: Header, root: Root, open: seq<Entry>,
                     abandoned: set<Hash>, e: Entry, finalized: nat, p: Manager)
    requires Mirrors(headers, f, tip, open, abandoned) && f.latest + 2 < ID_LIMIT
    requires Chained(tip, root, Transitions(open)) && Chained(tip, root, Transitions(open + [e]))
    requires IsNext(headers, f.snap, tip, open, e.transition.header)
    requires p.storage == Grown(f, e.transition.header) && p.seen == Transitions(open)
    ensures var open', ts := open + [e], Transitions(open + [e]);
            var n, r := FinalCount(ts, finalized), Process(p, Executed(e.transition, e.changes, finalized));
            && r.Ok? && r.value.1 == ts[..n]
            && ManagerInv(headers, r.value.0, HeaderAt(tip, ts, n), RootAt(root, ts, n), open'[n..], abandoned,
                          Replay(Databases(f.group), open'[..n]))
  {
    var open', ts := open + [e], Transitions(open + [e]);
    var n := FinalCount(ts, finalized);
    ProcessSafe(headers, f, tip, root, open, abandoned, e, finalized, p);
    Remainder(tip, root, open', n, Databases(f.group));
  }

  lemma ExecutingFollows(headers: Hash -> Header, snap: map<Hash, SnapshotId>, tip: Header, root: Root,
                         open: seq<Entry>, n: nat, e: Entry)
    requires n <= |open| && Chained(tip, root, Transitions(open))
    requires IsNext(headers, snap, tip, open[..n], e.transition.header)
    requires e.transition.initialRoot == RootAt(root, Transitions(open), n)
    ensures var ts := Transitions(open)[..n];
            && Transitions(open[..n]) == ts && Transitions(open[..n] + [e]) == ts + [e.transition]
            && Chained(tip, root, Transitions(open[..n])) && Chained(tip, root, Transitions(open[..n] + [e]))
  {
    var ts := Transitions(open);
    assert Transitions(open[..n]) == ts[..n];
    assert n > 0 ==> Continues(tip, root, ts, n - 1);
    ExecutingChained(tip, root, open, n, e);
  }

  /** The second half of an iteration whose first half yielded `p`: no error, and the manager mirrors the chain
      that remains above the newly final blocks. */
  lemma StepCore(headers: Hash -> Header, m: Manager, tip: Header, root: Root, open: seq<Entry>,
                 abandoned: set<Hash>, dbs: Group<Table>, n: nat, p: Manager, e: Entry, finalized: nat)
    requires ManagerInv(headers, m, tip, root, open, abandoned, dbs) && m.storage.latest + 2 < ID_LIMIT
    requires n <= |open| && p.storage == Grown(m.storage, e.transition.header) && p.seen == Transitions(open)[..n]
    requires IsNext(headers, m.storage.snap, tip, open[..n], e.transition.header)
    requires e.transition.initialRoot == RootAt(root, Transitions(open), n)
    ensures var open' := open[..n] + [e]; var ts := Transitions(open'); var k := FinalCount(ts, finalized);
            var r := Process(p, Executed(e.transition, e.changes, finalized));
            && Chained(tip, root, ts) && ts == Transitions(open)[..n] + [e.transition]
            && r.Ok? && r.value.1 == ts[..k]
            && ManagerInv(headers, r.value.0, HeaderAt(tip, ts, k), RootAt(root, ts, k), open'[k..],
                          abandoned + Hashes(open[n..]), Replay(dbs, open'[..k]))
  {
    var dropped := abandoned + Hashes(open[n..]);
    KeptMirror(headers, m.storage, tip, root, open, abandoned, n);
    ExecutingFollows(headers, m.storage.snap, tip, root, open, n, e);
    ProcessSound(headers, m.storage, tip, root, open[..n], dropped, e, finalized, p);
  }

  // ----- history

  /** The last final block, and the root after it. */
  ghost function TipOf(o: Origin, final: seq<Entry>): Header {
    HeaderAt(o.header, Transitions(final), |final|)
  }

  ghost function TipRoot(o: Origin, final: seq<Entry>): Root {
    RootAt(o.root, Transitions(final), |final|)
  }

  /** Two chains, the second above the first, are one. */
  lemma ChainedAppend(tip: Header, root: Root, a: seq<Transition>, b: seq<Transition>)
    requires Chained(tip, root, a) && Chained(HeaderAt(tip, a, |a|), RootAt(root, a, |a|), b)
    ensures Chained(tip, root, a + b)
  {
    var tip', root' := HeaderAt(tip, a, |a|), RootAt(root, a, |a|);
    assert a != [] ==> Continues(tip, root, a, |a| - 1);
    forall k: nat | k < |a + b| ensures Continues(tip, root, a + b, k) {
      if k < |a| {
        assert Continues(tip, root, a, k);
      } else {
        assert Continues(tip', root', b, k - |a|);
      }
    }
  }

  lemma ChainedSplit(tip: Header, root: Root, ts: seq<Transition>, n: nat)
    requires Chained(tip, root, ts) && n <= |ts|
    ensures Chained(tip, root, ts[..n]) && Chained(HeaderAt(tip, ts, n), RootAt(root, ts, n), ts[n..])
  {
    assert n > 0 ==> Continues(tip, root, ts, n - 1);
    forall k: nat | k < n ensures Continues(tip, root, ts[..n], k) {
      assert Continues(tip, root, ts, k);
    }
    forall k: nat | k < |ts[n..]| ensures Continues(HeaderAt(tip, ts, n), RootAt(root, ts, n), ts[n..], k) {
      assert Continues(tip, root, ts, n + k);
    }
  }

  /** Moving the `n` oldest seen entries to the final ones. */
  lemma Promote(o: Origin, final: seq<Entry>, open: seq<Entry>, n: nat)
    requires Chained(o.header, o.root, Transitions(final)) && n <= |open|
    requires Chained(TipOf(o, final), TipRoot(o, final), Transitions(open))
    ensures var final', ts := final + open[..n], Transitions(open);
            && Chained(o.header, o.root, Transitions(final'))
            && TipOf(o, final') == HeaderAt(TipOf(o, final), ts, n)
            && TipRoot(o, final') == RootAt(TipRoot(o, final), ts, n)
            && Chained(TipOf(o, final'), TipRoot(o, final'), Transitions(open[n..]))
            && Replay(o.dbs, final') == Replay(Replay(o.dbs, final), open[..n])
  {
    var ts := Transitions(open);
    ChainedSplit(TipOf(o, final), TipRoot(o, final), ts, n);
    assert Transitions(open[..n]) == ts[..n] && Transitions(open[n..]) == ts[n..];
    ChainedAppend(o.header, o.root, Transitions(final), ts[..n]);
    assert Transitions(final + open[..n]) == Transitions(final) + ts[..n];
    ReplayAppend(o.dbs, final, open[..n]);
  }

  // ----- whole runs

  /** At the head of the loop: the finalized entries and the seen ones form one chain above the origin, ending
      at the current root; the storage mirrors it, and RPC endpoints and ledger read it replayed. */
  ghost predicate RunInv(headers: Hash -> Header, o: Origin, s: Node) {
    var tip, root := TipOf(o, s.final), TipRoot(o, s.final);
    && Chained(o.header, o.root, Transitions(s.final))
    && ManagerInv(headers, s.manager, tip, root, s.open, s.abandoned, Replay(o.dbs, s.final))
    && s.next == tip.height + 1 + |s.open|
    && tip.height <= s.settled && s.chain(tip.height) == tip
  }

  lemma EnvReady(headers: Hash -> Header, o: Origin, s: Node, x: Input)
    requires RunInv(headers, o, s) && Env(headers, s, x)
    ensures Ready(headers, x.chain, TipOf(o, s.final), TipRoot(o, s.final), Transitions(s.open))
  {
    var tip, ts := TipOf(o, s.final), Transitions(s.open);
    assert Agrees(headers, x.chain, tip, ts) by {
      forall k | 0 <= k < |ts| ensures headers(ts[k].header.hash) == ts[k].header {
        assert Stored(headers, s.manager.storage.snap, s.manager.storage.group, s.open[k]);
      }
    }
  }

  /** The iteration of `s` on `x` is prepared well, keeping `n` seen blocks. */
  ghost predicate StepPrepared(headers: Hash -> Header, o: Origin, s: Node, x: Input, n: nat, p: Prepared) {
    PreparedWell(headers, x.chain, x.chain(s.next), s.manager, TipOf(o, s.final), TipRoot(o, s.final), s.open,
                 s.abandoned, Replay(o.dbs, s.final), n, p)
  }

  /** Of the blocks seen so far, `n` are on the chain, and the iteration executes `b`, right above them. */
  ghost predicate KeepsNow(headers: Hash -> Header, o: Origin, s: Node, x: Input, n: nat, b: Header) {
    && Ready(headers, x.chain, TipOf(o, s.final), TipRoot(o, s.final), s.manager.seen)
    && KeepsExactly(x.chain, s.manager.seen, n)
    && Resumes(x.chain, x.chain(s.next), TipOf(o, s.final), TipRoot(o, s.final), s.manager.seen, n)
    && b == x.chain(TipOf(o, s.final).height + 1 + n) && s.manager.storage.latest + 2 < ID_LIMIT
  }

  lemma ResumeSafe(headers: Hash -> Header, o: Origin, s: Node, x: Input) returns (n: nat, b: Header)
    requires RunInv(headers, o, s) && Env(headers, s, x)
    ensures KeepsNow(headers, o, s, x, n, b)
  {
    EnvReady(headers, o, s, x);
    n := ResumePoint(headers, x.chain, TipOf(o, s.final), TipRoot(o, s.final), s.manager.seen, s.next);
    b := x.chain(TipOf(o, s.final).height + 1 + n);
  }

  lemma PrepareSafe(headers: Hash -> Header, o: Origin, s: Node, x: Input, n: nat, b: Header) returns (p: Prepared)
    requires RunInv(headers, o, s) && KeepsNow(headers, o, s, x, n, b)
    requires b.hash !in s.manager.storage.snap
    ensures StepPrepared(headers, o, s, x, n, p)
  {
    p := PrepareCore(headers, x.chain, s.next, s.manager, TipOf(o, s.final), TipRoot(o, s.final), s.open,
                     s.abandoned, Replay(o.dbs, s.final), n, b);
  }

  /** The last final block after an iteration is on its chain, at a height reported final. */
  lemma NewTip(chain: Chain, tip: Header, ts: seq<Transition>, n: nat, t: Transition, finalized: nat, settled: nat)
    requires KeepsExactly(chain, ts, n) && chain(tip.height) == tip && tip.height <= settled
    requires OnChain(chain, t)
    ensures var ts' := ts[..n] + [t]; var k := FinalCount(ts', finalized); var tip' := HeaderAt(tip, ts', k);
            chain(tip'.height) == tip' && tip'.height <= Greatest(settled, finalized)
  {
    var ts' := ts[..n] + [t];
    var k := FinalCount(ts', finalized);
    FinalCountIs(ts', finalized);
    if 0 < k <= n {
      assert OnChain(chain, ts[k - 1]) && ts'[k - 1] == ts[k - 1];
    }
  }

  /** Soundness of the manager carries over to the node. */
  lemma NodeSound(headers: Hash -> Header, o: Origin, final: seq<Entry>, open: seq<Entry>, k: nat, s: Node)
    requires Chained(o.header, o.root, Transitions(final)) && k <= |open|
    requires Chained(TipOf(o, final), TipRoot(o, final), Transitions(open))
    requires s.final == final + open[..k] && s.open == open[k..]
    requires var tip, root, ts := TipOf(o, final), TipRoot(o, final), Transitions(open);
             && ManagerInv(headers, s.manager, HeaderAt(tip, ts, k), RootAt(root, ts, k), open[k..], s.abandoned,
                           Replay(Replay(o.dbs, final), open[..k]))
             && s.chain(HeaderAt(tip, ts, k).height) == HeaderAt(tip, ts, k)
             && HeaderAt(tip, ts, k).height <= s.settled
             && s.next == tip.height + 1 + |open|
    ensures RunInv(headers, o, s)
  {
    Promote(o, final, open, k);
    assert k > 0 ==> Continues(TipOf(o, final), TipRoot(o, final), Transitions(open), k - 1);
  }

  /** The assembled node is sound. */
  lemma AssembleSound(headers: Hash -> Header, o: Origin, s: Node, x: Input, n: nat, p: Prepared, m: Manager, k: nat)
    requires n <= |s.open| && |p.manager.seen| == n
    requires Chained(o.header, o.root, Transitions(s.final))
    requires var tip, root, open := TipOf(o, s.final), TipRoot(o, s.final), s.open[..n] + [Executing(p, x)];
             var ts := Transitions(open);
             && k <= |open| && Chained(tip, root, ts) && p.block.height == tip.height + 1 + n
             && ManagerInv(headers, m, HeaderAt(tip, ts, k), RootAt(root, ts, k), open[k..],
                           s.abandoned + Hashes(s.open[n..]), Replay(Replay(o.dbs, s.final), open[..k]))
             && x.chain(HeaderAt(tip, ts, k).height) == HeaderAt(tip, ts, k)
             && HeaderAt(tip, ts, k).height <= Greatest(s.settled, x.finalized)
    ensures RunInv(headers, o, Assemble(s, x, p, m, k))
  {
    NodeSound(headers, o, s.final, s.open[..n] + [Executing(p, x)], k, Assemble(s, x, p, m, k));
  }

  /** The second half of an iteration: processing succeeds, and the assembled node is sound. */
  ghost predicate ProcessedWell(headers: Hash -> Header, o: Origin, s: Node, x: Input, p: Prepared) {
    var r := Process(p.manager, Executed(Executing(p, x).transition, x.changes, x.finalized));
    r.Ok? && RunInv(headers, o, Assemble(s, x, p, r.value.0, |r.value.1|))
  }

  lemma SecondHalf(headers: Hash -> Header, o: Origin, s: Node, x: Input, n: nat, p: Prepared)
    requires Chained(o.header, o.root, Transitions(s.final)) && n <= |s.open| && n <= |s.manager.seen|
    requires var tip := TipOf(o, s.final);
             && ManagerInv(headers, s.manager, tip, TipRoot(o, s.final), s.open, s.abandoned, Replay(o.dbs, s.final))
             && s.manager.storage.latest + 2 < ID_LIMIT
             && KeepsExactly(x.chain, s.manager.seen, n)
             && p.manager.storage == Grown(s.manager.storage, p.block)
             && p.manager.root == RootAt(TipRoot(o, s.final), s.manager.seen, n)
             && p.manager.seen == s.manager.seen[..n]
             && IsNext(headers, s.manager.storage.snap, tip, s.open[..n], p.block)
             && x.chain(tip.height) == tip && tip.height <= s.settled && x.chain(p.block.height) == p.block
    ensures ProcessedWell(headers, o, s, x, p)
  {
    var tip, root, dbs := TipOf(o, s.final), TipRoot(o, s.final), Replay(o.dbs, s.final);
    var e := Executing(p, x);
    StepCore(headers, s.manager, tip, root, s.open, s.abandoned, dbs, n, p.manager, e, x.finalized);
    var r := Process(p.manager, Executed(e.transition, x.changes, x.finalized));
    NewTip(x.chain, tip, s.manager.seen, n, e.transition, x.finalized, s.settled);
    AssembleSound(headers, o, s, x, n, p, r.value.0, |r.value.1|);
  }

  lemma ProcessSucceeds(headers: Hash -> Header, o: Origin, s: Node, x: Input, n: nat, b: Header, p: Prepared)
    requires RunInv(headers, o, s) && KeepsNow(headers, o, s, x, n, b) && StepPrepared(headers, o, s, x, n, p)
    ensures ProcessedWell(headers, o, s, x, p)
  {
    SecondHalf(headers, o, s, x, n, p);
  }

  lemma Halves(headers: Hash -> Header, o: Origin, s: Node, x: Input, p: Prepared)
    requires Prepare(s.manager, x.chain, x.chain(s.next)) == Ok(p) && ProcessedWell(headers, o, s, x, p)
    ensures Step(s, x).Ok? && RunInv(headers, o, Step(s, x).value)
  {
  }

  lemma StepSucceeds(headers: Hash -> Header, o: Origin, s: Node, x: Input, n: nat, b: Header)
    requires RunInv(headers, o, s) && KeepsNow(headers, o, s, x, n, b)
    requires b.hash !in s.manager.storage.snap
    ensures Step(s, x).Ok? && RunInv(headers, o, Step(s, x).value)
  {
    var p := PrepareSafe(headers, o, s, x, n, b);
    ProcessSucceeds(headers, o, s, x, n, b, p);
    Halves(headers, o, s, x, p);
  }

  lemma NotSeenNotTracked(headers: Hash -> Header, chain: Chain, f: Forest, tip: Header, root: Root,
                          open: seq<Entry>, abandoned: set<Hash>, n: nat, b: Header)
    requires Mirrors(headers, f, tip, open, abandoned)
    requires Ready(headers, chain, tip, root, Transitions(open)) && KeepsExactly(chain, Transitions(open), n)
    requires b == chain(tip.height + 1 + n) && b.hash !in abandoned
    ensures b.hash !in f.snap
  {
    ResumedIsNew(headers, chain, tip, root, open, n);
    assert b.hash in f.snap ==> Accounted(f.snap, f.group, open, abandoned, b.hash);
  }

  /** A chain that does not return to an abandoned fork resumes at a block that is not tracked. */
  lemma NoReturnUntracked(headers: Hash -> Header, o: Origin, s: Node, x: Input, n: nat, b: Header)
    requires RunInv(headers, o, s) && NoReturn(s, x) && KeepsNow(headers, o, s, x, n, b)
    ensures b.hash !in s.manager.storage.snap
  {
    NotSeenNotTracked(headers, x.chain, s.manager.storage, TipOf(o, s.final), TipRoot(o, s.final), s.open,
                      s.abandoned, n, b);
  }

  /** One iteration of the loop, from any sound node and under the environment's promises, succeeds and leaves a
      sound node. No call to the storage errs, and the reorg check never gives up. */
  lemma StepSafe(headers: Hash -> Header, o: Origin, s: Node, x: Input)
    requires RunInv(headers, o, s) && Env(headers, s, x) && NoReturn(s, x)
    ensures Step(s, x).Ok? && RunInv(headers, o, Step(s, x).value)
  {
    var n, b := ResumeSafe(headers, o, s, x);
    NoReturnUntracked(headers, o, s, x, n, b);
    StepSucceeds(headers, o, s, x, n, b);
  }

  /** A tracked block is handed out again, but its changes cannot be saved twice. */
  lemma TrackedAgain(headers: Hash -> Header, f: Forest, tip: Header, open: seq<Entry>, abandoned: set<Hash>,
                     b: Header, cs: Group<ChangeSet>)
    requires Mirrors(headers, f, tip, open, abandoned) && headers(b.hash) == b && b.hash in f.snap
    ensures StateFor(f, b) == Ok(f) && ChangesSaved(f, b, cs) == Err(DuplicateChangeSet)
  {
    assert Placed(headers, f.parent, f.snap, tip, b.hash);
    assert Accounted(f.snap, f.group, open, abandoned, b.hash);
    assert b.prev in f.snap ==> Accounted(f.snap, f.group, open, abandoned, b.prev);
    ChildrenHave(f, b.hash);
  }

  lemma ChildrenHave(f: Forest, b: Hash)
    requires Inv(f) && b in f.snap
    ensures b in f.parent && f.parent[b] in f.children
  {
    assert Tree(f.children, f.parent);
  }

  lemma PreparedAgain(m: Manager, chain: Chain, block: Header, tip: Header, root: Root, n: nat)
    requires Resumes(chain, block, tip, root, m.seen, n) && m.root == RootAt(root, m.seen, |m.seen|)
    requires StateFor(m.storage, chain(tip.height + 1 + n)) == Ok(m.storage)
    ensures var r := Prepare(m, chain, block);
            && r.Ok? && r.value.manager.storage == m.storage && r.value.block == chain(tip.height + 1 + n)
            && r.value.manager.seen == m.seen[..n]
  {
    var point := ForkPoint(m.seen[..n], chain(tip.height + 1 + n), RootAt(root, m.seen, n));
    assert n == |m.seen| ==> m.seen[..n] == m.seen;
    PrepareFrom(m, chain, block, point, m.storage);
  }

  lemma SavedTwice(s: Node, x: Input, p: Prepared)
    requires Prepare(s.manager, x.chain, x.chain(s.next)) == Ok(p)
    requires ChangesSaved(p.manager.storage, p.block, x.changes) == Err(DuplicateChangeSet)
    ensures Step(s, x) == Err(Storage(DuplicateChangeSet))
  {
  }

  lemma PreparedTracked(headers: Hash -> Header, chain: Chain, block: Header, m: Manager, tip: Header, root: Root,
                        open: seq<Entry>, abandoned: set<Hash>, dbs: Group<Table>, n: nat, cs: Group<ChangeSet>)
    requires ManagerInv(headers, m, tip, root, open, abandoned, dbs) && Resumes(chain, block, tip, root, m.seen, n)
    requires var b := chain(tip.height + 1 + n); headers(b.hash) == b && b.hash in m.storage.snap
    ensures var r := Prepare(m, chain, block);
            r.Ok? && ChangesSaved(r.value.manager.storage, r.value.block, cs) == Err(DuplicateChangeSet)
  {
    TrackedAgain(headers, m.storage, tip, open, abandoned, chain(tip.height + 1 + n), cs);
    PreparedAgain(m, chain, block, tip, root, n);
  }

  /** Returning to an abandoned block that is still tracked fails: its changes are saved a second time. */
  lemma ReturnFails(headers: Hash -> Header, o: Origin, s: Node, x: Input, n: nat, b: Header)
    requires RunInv(headers, o, s) && KeepsNow(headers, o, s, x, n, b)
    requires b.hash in s.manager.storage.snap
    ensures Step(s, x) == Err(Storage(DuplicateChangeSet))
  {
    PreparedTracked(headers, x.chain, x.chain(s.next), s.manager, TipOf(o, s.final), TipRoot(o, s.final), s.open,
                    s.abandoned, Replay(o.dbs, s.final), n, x.changes);
    SavedTwice(s, x, Prepare(s.manager, x.chain, x.chain(s.next)).value);
  }

  /** Without the promise not to return: an iteration succeeds exactly when the block it resumes at is not
      tracked, and otherwise fails on the duplicate change set. */
  lemma StepOkIff(headers: Hash -> Header, o: Origin, s: Node, x: Input) returns (n: nat, b: Header)
    requires RunInv(headers, o, s) && Env(headers, s, x)
    ensures KeepsNow(headers, o, s, x, n, b)
    ensures Step(s, x).Ok? <==> b.hash !in s.manager.storage.snap
    ensures Step(s, x).Ok? ==> RunInv(headers, o, Step(s, x).value)
    ensures Step(s, x).Err? ==> Step(s, x).error == Storage(DuplicateChangeSet)
  {
    n, b := ResumeSafe(headers, o, s, x);
    if b.hash in s.manager.storage.snap {
      ReturnFails(headers, o, s, x, n, b);
    } else {
      StepSucceeds(headers, o, s, x, n, b);
    }
  }

  lemma FinalGrows(s: Node, x: Input)
    requires Step(s, x).Ok?
    ensures s.final <= Step(s, x).value.final
  {
  }

  /** Safety of whole runs: under the environment's promises no iteration of any run fails, every node on the way
      is sound, and what was final stays final. */
  lemma {:induction false} RunSafe(headers: Hash -> Header, o: Origin, s: Node, xs: seq<Input>)
    requires RunInv(headers, o, s) && EnvAll(headers, s, xs) && NeverReturns(s, xs)
    ensures Run(s, xs).Ok? && RunInv(headers, o, Run(s, xs).value) && s.final <= Run(s, xs).value.final
    decreases |xs|
  {
    if xs != [] {
      StepSafe(headers, o, s, xs[0]);
      FinalGrows(s, xs[0]);
      RunSafe(headers, o, Step(s, xs[0]).value, xs[1..]);
    }
  }

  /** Without the promise not to return, a run may end with an error, but only because a change set would be saved
      twice; until then every node is sound. */
  lemma {:induction false} RunSound(headers: Hash -> Header, o: Origin, s: Node, xs: seq<Input>)
    requires RunInv(headers, o, s) && EnvAll(headers, s, xs)
    ensures match Run(s, xs)
            case Ok(s') => RunInv(headers, o, s')
            case Err(e) => e == Storage(DuplicateChangeSet)
    decreases |xs|
  {
    if xs != [] {
      var n, b := StepOkIff(headers, o, s, xs[0]);
      if Step(s, xs[0]).Ok? {
        RunSound(headers, o, Step(s, xs[0]).value, xs[1..]);
      }
    }
  }

  // ----- where runs start

  /** A rollup that resumes above the finalized block of `o`: an empty manager with a bootstrap state. */
  ghost function Start(o: Origin, chain: Chain): Node {
    var f := Bootstrapped(Empty(o.dbs));
    Node(Manager(f, o.root, [], f.latest, f.latest), o.header.height + 1, [], [], {}, o.header.height, chain)
  }

  lemma NothingTracked(headers: Hash -> Header, f: Forest, tip: Header)
    requires Inv(f) && f.snap == map[] && headers(tip.hash) == tip
    ensures Mirrors(headers, f, tip, [], {})
  {
  }

  lemma StartSafe(headers: Hash -> Header, o: Origin, chain: Chain)
    requires headers(o.header.hash) == o.header && chain(o.header.height) == o.header
    ensures RunInv(headers, o, Start(o, chain))
  {
    var f := Empty(o.dbs);
    EmptyForest(o.dbs, 1);
    BootstrapReads(f, 1);
    NothingTracked(headers, Bootstrapped(f), o.header);
  }

  /** A rollup that starts with genesis block `e`: its state is requested, saved and finalized at once. */
  ghost function GenesisForest(dbs: Group<Table>, e: Entry): Forest {
    Finalized(WithBlock(Bootstrapped(Empty(dbs)), e), HashOf(e))
  }

  /** The genesis block is the only one tracked. */
  lemma GenesisTracked(dbs: Group<Table>, e: Entry)
    requires HashOf(e) != e.transition.header.prev
    ensures var b, f := e.transition.header, Bootstrapped(Empty(dbs));
            && Inv(f) && StateFor(f, b) == Ok(Grown(f, b)) && Fresh(f) == 2
            && ChangesSaved(Grown(f, b), b, e.changes) == Ok(WithBlock(f, e))
    ensures var b, f := e.transition.header, WithBlock(Bootstrapped(Empty(dbs)), e);
            && Inv(f) && f.snap == map[b.hash := 2] && f.parent == map[b.hash := b.prev] && f.links == map[]
            && f.latest == 2 && IsSaved(f, b.hash) && ViewAfter(f, b.hash) == OverlayAll(dbs, e.changes)
  {
    var f := Bootstrapped(Empty(dbs));
    EmptyForest(dbs, 1);
    BootstrapInv(Empty(dbs));
    SaveOk(f, e);
    FreshUnsaved(f);
    BlockReads(WithBlock(f, e), HashOf(e));
    InsertChanges(f.group, Fresh(f), e.changes, Fresh(f));
  }

  /** Finalizing the only tracked block leaves nothing tracked, and every reader on the databases it left. */
  lemma OnlyBlockSettles(f: Forest, b: Header)
    requires Inv(f) && f.snap.Keys == {b.hash} && f.parent[b.hash] != b.hash && IsSaved(f, b.hash) && f.links == map[]
    ensures var f' := Finalized(f, b.hash);
            && Settled(f, b) == Ok(f') && Inv(f') && f'.snap == map[] && f'.links == map[] && f'.latest == f.latest
            && Databases(f'.group) == ViewAfter(f, b.hash)
  {
    FinalizedInv(f, b.hash);
    GoesItself(f, b.hash);
  }

  lemma UnlinkedReads(f: Forest, i: SnapshotId)
    requires f.links == map[]
    ensures View(f, i) == Databases(f.group)
  {
  }

  /** Initialization succeeds, leaves nothing tracked, the databases hold the genesis changes, and so do all readers
      handed out so far: the bootstrap state, which RPC endpoints hold, and the state for genesis, which the ledger
      holds. */
  lemma GenesisSafe(dbs: Group<Table>, e: Entry)
    requires HashOf(e) != e.transition.header.prev
    ensures var b, f := e.transition.header, Bootstrapped(Empty(dbs));
            && StateFor(f, b) == Ok(Grown(f, b)) && ChangesSaved(Grown(f, b), b, e.changes) == Ok(WithBlock(f, e))
            && Settled(WithBlock(f, e), b) == Ok(GenesisForest(dbs, e))
    ensures var f', tables := GenesisForest(dbs, e), OverlayAll(dbs, e.changes);
            && Inv(f') && f'.snap == map[] && f'.latest == 2 && Databases(f'.group) == tables
            && Reads(f', 1, tables) && Reads(f', 2, tables)
  {
    GenesisTracked(dbs, e);
    OnlyBlockSettles(WithBlock(Bootstrapped(Empty(dbs)), e), e.transition.header);
    UnlinkedReads(GenesisForest(dbs, e), 1);
    UnlinkedReads(GenesisForest(dbs, e), 2);
  }

  /** Where a run from genesis starts: above the genesis block, with its changes in the databases. */
  ghost function GenesisOrigin(dbs: Group<Table>, e: Entry): Origin {
    Origin(e.transition.header, e.transition.finalRoot, OverlayAll(dbs, e.changes))
  }

  /** The node after initialization: RPC endpoints still hold the bootstrap state, the ledger the state for genesis. */
  ghost function GenesisNode(dbs: Group<Table>, e: Entry, chain: Chain): Node {
    var h := e.transition.header;
    Node(Manager(GenesisForest(dbs, e), e.transition.finalRoot, [], 1, 2), h.height + 1, [], [], {}, h.height, chain)
  }

  /** A rollup that initializes its chain is sound when the loop starts. */
  lemma GenesisStart(headers: Hash -> Header, dbs: Group<Table>, e: Entry, chain: Chain)
    requires var h := e.transition.header; h.hash != h.prev && headers(h.hash) == h && chain(h.height) == h
    ensures RunInv(headers, GenesisOrigin(dbs, e), GenesisNode(dbs, e, chain))
  {
    GenesisSafe(dbs, e);
    NothingTracked(headers, GenesisForest(dbs, e), e.transition.header);
  }

  // ----- what a sound node means

  /** Finalized and seen transitions form one chain above the origin, linked by hash, height and root, which ends
      at the current root: no height is skipped or finalized twice. */
  lemma OneChain(headers: Hash -> Header, o: Origin, s: Node)
    requires RunInv(headers, o, s)
    ensures var ts := Transitions(s.final + s.open);
            && Chained(o.header, o.root, ts) && s.manager.root == RootAt(o.root, ts, |ts|)
            && s.next == o.header.height + 1 + |ts|
  {
    var a, b := Transitions(s.final), Transitions(s.open);
    ChainedAppend(o.header, o.root, a, b);
    assert Transitions(s.final + s.open) == a + b;
    assert a != [] ==> Continues(o.header, o.root, a, |a| - 1);
  }

  /** RPC storage and ledger read the whole chain replayed onto the origin's databases, in all three containers. */
  lemma RpcReads(headers: Hash -> Header, o: Origin, s: Node)
    requires RunInv(headers, o, s)
    ensures View(s.manager.storage, s.manager.rpc) == Replay(o.dbs, s.final + s.open)
    ensures View(s.manager.storage, s.manager.ledger) == Replay(o.dbs, s.final + s.open)
    ensures Databases(s.manager.storage.group) == Replay(o.dbs, s.final)
  {
    ReplayAppend(o.dbs, s.final, s.open);
  }

  /** The state handed to the state transition function, and RPC storage and ledger at that moment, read the finalized
      and the kept blocks replayed. */
  lemma HandedOutReads(headers: Hash -> Header, o: Origin, s: Node, x: Input) returns (n: nat, p: Prepared)
    requires RunInv(headers, o, s) && Env(headers, s, x) && NoReturn(s, x)
    ensures Prepare(s.manager, x.chain, x.chain(s.next)) == Ok(p)
    ensures KeepsExactly(x.chain, s.manager.seen, n) && n <= |s.open|
    ensures View(p.manager.storage, p.state) == Replay(o.dbs, s.final + s.open[..n])
    ensures View(p.manager.storage, p.manager.rpc) == Replay(o.dbs, s.final + s.open[..n])
    ensures View(p.manager.storage, p.manager.ledger) == Replay(o.dbs, s.final + s.open[..n])
  {
    var b: Header;
    n, b := ResumeSafe(headers, o, s, x);
    NoReturnUntracked(headers, o, s, x, n, b);
    p := PrepareSafe(headers, o, s, x, n, b);
    ReplayAppend(o.dbs, s.final, s.open[..n]);
  }

  /** Every tracked block descends from the last final one: forks that left it are gone. */
  lemma {:induction false} ForksGone(headers: Hash -> Header, o: Origin, s: Node, b: Hash)
    requires RunInv(headers, o, s) && b in s.manager.storage.snap
    ensures Stem(s.manager.storage, b) == TipOf(o, s.final).hash && headers(b).height > TipOf(o, s.final).height
    decreases IdOf(s.manager.storage, b)
  {
    var f, tip := s.manager.storage, TipOf(o, s.final);
    assert Placed(headers, f.parent, f.snap, tip, b);
    StepUp(f, b, b);
    if f.parent[b] in f.snap {
      ForksGone(headers, o, s, f.parent[b]);
    }
  }
}
