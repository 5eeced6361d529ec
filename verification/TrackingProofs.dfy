/** How the storage mirrors the seen chain: what the blocks that are not final yet read, and what
    finalizing the oldest of them leaves. */
module TrackingProofs {
  import opened Wrappers
  import opened Containers
  import opened Forest
  import opened ForestProofs
  import opened Rollup
  import opened ReorgProofs

  ghost function Transitions(entries: seq<Entry>): (ts: seq<Transition>)
    ensures |ts| == |entries|
  {
    seq(|entries|, k requires 0 <= k < |entries| => entries[k].transition)
  }

  function HashOf(e: Entry): Hash {
    e.transition.header.hash
  }

  /** `x` hangs under a tracked block or under `tip`, above it. */
  ghost predicate Placed(headers: Hash -> Header, parent: map<Hash, Hash>, snap: map<Hash, SnapshotId>,
                         tip: Header, x: Hash)
  {
    && x in parent && headers(x).hash == x && headers(x).prev == parent[x]
    && headers(x).height == headers(parent[x]).height + 1 && headers(x).height > tip.height
    && (parent[x] in snap || parent[x] == tip.hash)
  }

  ghost predicate Stored(headers: Hash -> Header, snap: map<Hash, SnapshotId>, group: Group<Container>, e: Entry) {
    && headers(HashOf(e)) == e.transition.header
    && HashOf(e) in snap && snap[HashOf(e)] in Saved(group)
    && ChangesOf(group, snap[HashOf(e)]) == e.changes
  }

  ghost predicate Accounted(snap: map<Hash, SnapshotId>, group: Group<Container>, open: seq<Entry>,
                            abandoned: set<Hash>, x: Hash)
  {
    x in snap && snap[x] in Saved(group) && (x in abandoned || x in Hashes(open))
  }

  /** Every tracked block is above the last final one `tip`, saved, and either still seen or abandoned;
      every entry of `open` is stored. */
  ghost predicate Tracks(headers: Hash -> Header, parent: map<Hash, Hash>, snap: map<Hash, SnapshotId>,
                         group: Group<Container>, tip: Header, open: seq<Entry>, abandoned: set<Hash>)
  {
    && headers(tip.hash) == tip
    && (forall x {:trigger Placed(headers, parent, snap, tip, x)} ::
          x in snap ==> Placed(headers, parent, snap, tip, x))
    && (forall x {:trigger Accounted(snap, group, open, abandoned, x)} ::
          x in snap ==> Accounted(snap, group, open, abandoned, x))
    && (forall k {:trigger Stored(headers, snap, group, open[k])} ::
          0 <= k < |open| ==> Stored(headers, snap, group, open[k]))
  }

  ghost predicate Mirrors(headers: Hash -> Header, f: Forest, tip: Header, open: seq<Entry>, abandoned: set<Hash>) {
    Inv(f) && Tracks(headers, f.parent, f.snap, f.group, tip, open, abandoned)
  }

  lemma TipUntracked(headers: Hash -> Header, parent: map<Hash, Hash>, snap: map<Hash, SnapshotId>,
                     group: Group<Container>, tip: Header, open: seq<Entry>, abandoned: set<Hash>)
    requires Tracks(headers, parent, snap, group, tip, open, abandoned)
    ensures tip.hash !in snap
  {
    assert tip.hash in snap ==> Placed(headers, parent, snap, tip, tip.hash);
  }

  // ----- reading

  lemma OpenParent(headers: Hash -> Header, parent: map<Hash, Hash>, snap: map<Hash, SnapshotId>,
                   group: Group<Container>, tip: Header, root: Root, open: seq<Entry>, abandoned: set<Hash>, k: nat)
    requires Tracks(headers, parent, snap, group, tip, open, abandoned)
    requires Chained(tip, root, Transitions(open)) && k < |open|
    ensures var b := HashOf(open[k]);
            && b in snap && b in parent && ChangesOf(group, snap[b]) == open[k].changes
            && (if k == 0 then parent[b] == tip.hash && tip.hash !in snap
                else parent[b] == HashOf(open[k - 1]) && HashOf(open[k - 1]) in snap)
  {
    assert Stored(headers, snap, group, open[k]);
    assert Continues(tip, root, Transitions(open), k);
    assert Placed(headers, parent, snap, tip, HashOf(open[k]));
    TipUntracked(headers, parent, snap, group, tip, open, abandoned);
    assert k > 0 ==> Stored(headers, snap, group, open[k - 1]);
  }

  /** Entry `k` of the seen chain writes above the one before it, or above the databases. */
  ghost predicate WritesAbove(f: Forest, open: seq<Entry>, k: nat)
    requires k < |open|
  {
    var below := if k == 0 then Databases(f.group) else ViewAfter(f, HashOf(open[k - 1]));
    ViewAfter(f, HashOf(open[k])) == OverlayAll(below, open[k].changes)
  }

  lemma OpenStep(headers: Hash -> Header, f: Forest, tip: Header, root: Root, open: seq<Entry>,
                 abandoned: set<Hash>, k: nat)
    requires Mirrors(headers, f, tip, open, abandoned) && Chained(tip, root, Transitions(open)) && k < |open|
    ensures WritesAbove(f, open, k)
  {
    OpenParent(headers, f.parent, f.snap, f.group, tip, root, open, abandoned, k);
    BlockReads(f, HashOf(open[k]));
  }

  lemma {:induction false} LineReads(f: Forest, open: seq<Entry>, k: nat)
    requires k < |open|
    requires forall j: nat {:trigger WritesAbove(f, open, j)} :: j <= k ==> WritesAbove(f, open, j)
    ensures ViewAfter(f, HashOf(open[k])) == Replay(Databases(f.group), open[..k + 1])
  {
    assert WritesAbove(f, open, k);
    ReplayStep(Databases(f.group), open, k);
    if k > 0 {
      LineReads(f, open, k - 1);
      assert open[..k - 1 + 1] == open[..k];
    }
  }

  /** After entry `k` of the seen chain, a reader sees the databases with the changes up to `k` replayed. */
  lemma OpenReads(headers: Hash -> Header, f: Forest, tip: Header, root: Root, open: seq<Entry>,
                  abandoned: set<Hash>, k: nat)
    requires Mirrors(headers, f, tip, open, abandoned) && Chained(tip, root, Transitions(open)) && k < |open|
    ensures ViewAfter(f, HashOf(open[k])) == Replay(Databases(f.group), open[..k + 1])
  {
    forall j: nat | j <= k ensures WritesAbove(f, open, j) {
      OpenStep(headers, f, tip, root, open, abandoned, j);
    }
    LineReads(f, open, k);
  }

  lemma ReplayStep(dbs: Group<Table>, open: seq<Entry>, k: nat)
    requires k < |open|
    ensures Replay(dbs, open[..k + 1]) == OverlayAll(Replay(dbs, open[..k]), open[k].changes)
    ensures Replay(dbs, open[..0]) == dbs
  {
    assert open[..k + 1][..k] == open[..k];
  }

  // ----- a reorg

  lemma HashesSplit(open: seq<Entry>, n: nat)
    requires n <= |open|
    ensures Hashes(open) == Hashes(open[..n]) + Hashes(open[n..])
  {
    assert open == open[..n] + open[n..];
  }

  /** Blocks dropped in a reorg stay tracked, as abandoned ones. */
  lemma RewindTracks(headers: Hash -> Header, f: Forest, tip: Header, open: seq<Entry>, abandoned: set<Hash>, n: nat)
    requires Mirrors(headers, f, tip, open, abandoned) && n <= |open|
    ensures Mirrors(headers, f, tip, open[..n], abandoned + Hashes(open[n..]))
  {
    HashesSplit(open, n);
    forall x | x in f.snap
      ensures Accounted(f.snap, f.group, open[..n], abandoned + Hashes(open[n..]), x)
    {
      assert Accounted(f.snap, f.group, open, abandoned, x);
    }
    forall k | 0 <= k < n ensures Stored(headers, f.snap, f.group, open[..n][k]) {
      assert Stored(headers, f.snap, f.group, open[k]);
    }
  }

  // ----- a new block

  lemma FirstChild(f: Forest, b: Hash) returns (c: Hash)
    requires Inv(f) && b in f.children
    ensures c in f.snap && c in f.parent && f.parent[c] == b
  {
    c := f.children[b][0];
    assert c in f.children[b] && Tree(f.children, f.parent);
  }

  /** Nothing names an untracked block above `tip` as parent. */
  lemma NewBlockChildless(headers: Hash -> Header, f: Forest, tip: Header, open: seq<Entry>, abandoned: set<Hash>,
                          b: Header)
    requires Mirrors(headers, f, tip, open, abandoned)
    requires headers(b.hash) == b && b.height > tip.height && b.hash !in f.snap
    ensures b.hash !in f.children
  {
    forall c | c in f.snap ensures f.parent[c] != b.hash {
      assert Placed(headers, f.parent, f.snap, tip, c);
    }
    if b.hash in f.children {
      var c := FirstChild(f, b.hash);
    }
  }

  lemma InsertChanges(g: Group<Container>, id: SnapshotId, cs: Group<ChangeSet>, i: SnapshotId)
    ensures ChangesOf(Insert(g, id, cs), i) == if i == id then cs else ChangesOf(g, i)
  {
  }

  /** Executing block `b` on top of the seen chain adds it to the mirror. */
  lemma GrowTracks(headers: Hash -> Header, parent: map<Hash, Hash>, snap: map<Hash, SnapshotId>,
                   group: Group<Container>, tip: Header, open: seq<Entry>, abandoned: set<Hash>,
                   e: Entry, id: SnapshotId)
    requires Tracks(headers, parent, snap, group, tip, open, abandoned) && Aligned(group)
    requires var b := e.transition.header;
             && headers(b.hash) == b && b.hash !in snap && b.height > tip.height
             && headers(b.prev).height + 1 == b.height && (b.prev in snap || b.prev == tip.hash)
    requires id !in Saved(group)
    ensures Tracks(headers, parent[HashOf(e) := e.transition.header.prev], snap[HashOf(e) := id],
                   Insert(group, id, e.changes), tip, open + [e], abandoned)
  {
    var b := e.transition.header;
    var parent', snap', group' := parent[b.hash := b.prev], snap[b.hash := id], Insert(group, id, e.changes);
    assert Saved(group') == Saved(group) + {id};
    forall i ensures ChangesOf(group', i) == if i == id then e.changes else ChangesOf(group, i) {
      InsertChanges(group, id, e.changes, i);
    }
    forall x | x in snap' ensures Placed(headers, parent', snap', tip, x) {
      assert x != b.hash ==> Placed(headers, parent, snap, tip, x);
    }
    forall k | 0 <= k < |open + [e]| ensures Stored(headers, snap', group', (open + [e])[k]) {
      assert k < |open| ==> Stored(headers, snap, group, open[k]);
    }
    HashesAppend(open, e);
    forall x | x in snap' ensures Accounted(snap', group', open + [e], abandoned, x) {
      assert x != b.hash ==> Accounted(snap, group, open, abandoned, x);
    }
  }

  lemma HashesAppend(open: seq<Entry>, e: Entry)
    ensures Hashes(open + [e]) == Hashes(open) + {HashOf(e)}
  {
    assert (open + [e])[..|open|] == open && (open + [e])[|open|..] == [e];
    HashesSplit(open + [e], |open|);
  }

  // ----- finalizing the oldest seen block

  ghost predicate DistinctIds(snap: map<Hash, SnapshotId>) {
    forall x, y :: x in snap && y in snap && snap[x] == snap[y] ==> x == y
  }

  /** A block that stays keeps its change sets. */
  lemma KeptSaved(snap: map<Hash, SnapshotId>, group: Group<Container>, gone: set<Hash>, dbs: Group<Table>, x: Hash)
    requires DistinctIds(snap) && Aligned(group) && x in snap && x !in gone
    ensures var group' := Settle(group, dbs, IdsOf(snap, gone));
            && (snap[x] in Saved(group') <==> snap[x] in Saved(group))
            && ChangesOf(group', snap[x]) == ChangesOf(group, snap[x])
  {
    SettleFacts(group, dbs, IdsOf(snap, gone));
    assert snap[x] !in IdsOf(snap, gone);
  }

  /** Finalizing `b` cuts at `b`: what stays hangs under `b` or under what stays. */
  ghost predicate CutsAt(parent: map<Hash, Hash>, snap: map<Hash, SnapshotId>, gone: set<Hash>, b: Hash, tip: Hash) {
    forall x :: x in snap && x in parent && x !in gone ==> parent[x] == b || (parent[x] !in gone && parent[x] != tip)
  }

  lemma KeptPlaced(headers: Hash -> Header, parent: map<Hash, Hash>, snap: map<Hash, SnapshotId>, tip: Header,
                   gone: set<Hash>, b: Header, x: Hash)
    requires x in snap && x !in gone && Placed(headers, parent, snap, tip, x)
    requires parent[x] in snap ==> Placed(headers, parent, snap, tip, parent[x])
    requires CutsAt(parent, snap, gone, b.hash, tip.hash)
    requires b.hash in gone && headers(b.hash) == b && b.height == tip.height + 1
    ensures Placed(headers, parent - gone, snap - gone, b, x)
  {
  }

  lemma KeptStored(headers: Hash -> Header, snap: map<Hash, SnapshotId>, group: Group<Container>, gone: set<Hash>,
                   dbs: Group<Table>, e: Entry)
    requires DistinctIds(snap) && Aligned(group) && HashOf(e) !in gone && Stored(headers, snap, group, e)
    ensures Stored(headers, snap - gone, Settle(group, dbs, IdsOf(snap, gone)), e)
  {
    KeptSaved(snap, group, gone, dbs, HashOf(e));
  }

  lemma KeptAccounted(snap: map<Hash, SnapshotId>, group: Group<Container>, open: seq<Entry>, abandoned: set<Hash>,
                      gone: set<Hash>, dbs: Group<Table>, x: Hash)
    requires DistinctIds(snap) && Aligned(group) && open != [] && HashOf(open[0]) in gone
    requires x in snap && x !in gone && Accounted(snap, group, open, abandoned, x)
    ensures Accounted(snap - gone, Settle(group, dbs, IdsOf(snap, gone)), open[1..], abandoned, x)
  {
    KeptSaved(snap, group, gone, dbs, x);
    HashesSplit(open, 1);
    assert Hashes(open[..1]) == {HashOf(open[0])};
  }

  /** What finalizing `b` must leave alone, for the mirror to hold above `b`. */
  lemma SettledTracks(headers: Hash -> Header, parent: map<Hash, Hash>, snap: map<Hash, SnapshotId>,
                      group: Group<Container>, tip: Header, open: seq<Entry>, abandoned: set<Hash>,
                      gone: set<Hash>, dbs: Group<Table>)
    requires Tracks(headers, parent, snap, group, tip, open, abandoned) && Aligned(group) && open != []
    requires DistinctIds(snap) && HashOf(open[0]) in gone && open[0].transition.header.height == tip.height + 1
    requires CutsAt(parent, snap, gone, HashOf(open[0]), tip.hash)
    requires forall k :: 1 <= k < |open| ==> HashOf(open[k]) !in gone
    ensures Tracks(headers, parent - gone, snap - gone, Settle(group, dbs, IdsOf(snap, gone)),
                   open[0].transition.header, open[1..], abandoned)
  {
    var b, snap', group' := open[0].transition.header, snap - gone, Settle(group, dbs, IdsOf(snap, gone));
    assert Stored(headers, snap, group, open[0]);
    forall x | x in snap' ensures Placed(headers, parent - gone, snap', b, x) {
      assert Placed(headers, parent, snap, tip, x);
      assert parent[x] in snap ==> Placed(headers, parent, snap, tip, parent[x]);
      KeptPlaced(headers, parent, snap, tip, gone, b, x);
    }
    forall k | 0 <= k < |open[1..]| ensures Stored(headers, snap', group', open[1..][k]) {
      assert Stored(headers, snap, group, open[k + 1]);
      KeptStored(headers, snap, group, gone, dbs, open[k + 1]);
    }
    forall x | x in snap' ensures Accounted(snap', group', open[1..], abandoned, x) {
      assert Accounted(snap, group, open, abandoned, x);
      KeptAccounted(snap, group, open, abandoned, gone, dbs, x);
    }
  }

  lemma {:induction false} OpenStays(headers: Hash -> Header, parent: map<Hash, Hash>, snap: map<Hash, SnapshotId>,
                                     group: Group<Container>, tip: Header, root: Root, open: seq<Entry>,
                                     abandoned: set<Hash>, gone: set<Hash>, k: nat)
    requires Tracks(headers, parent, snap, group, tip, open, abandoned)
    requires Chained(tip, root, Transitions(open)) && 1 <= k < |open|
    requires forall c :: c in gone ==>
               c in parent && (parent[c] !in snap || (parent[c] in gone && parent[c] != HashOf(open[0])))
    ensures HashOf(open[k]) !in gone
    decreases k
  {
    OpenParent(headers, parent, snap, group, tip, root, open, abandoned, k);
    if k > 1 {
      OpenStays(headers, parent, snap, group, tip, root, open, abandoned, gone, k - 1);
    }
  }

  /** The blocks that finalizing the oldest seen block removes. */
  lemma OldestGone(headers: Hash -> Header, f: Forest, tip: Header, root: Root, open: seq<Entry>, abandoned: set<Hash>)
    requires Mirrors(headers, f, tip, open, abandoned) && Chained(tip, root, Transitions(open)) && open != []
    ensures var b := HashOf(open[0]); var gone := Gone(f, b);
            && IsSaved(f, b) && f.parent[b] == tip.hash && tip.hash !in f.snap && b in gone
            && (forall x :: x in f.snap && x in f.parent && x !in gone ==>
                  f.parent[x] == b || (f.parent[x] !in gone && f.parent[x] != tip.hash))
            && (forall c :: c in gone ==>
                  c in f.parent && (f.parent[c] !in f.snap || (f.parent[c] in gone && f.parent[c] != b)))
  {
    var b := HashOf(open[0]);
    OpenParent(headers, f.parent, f.snap, f.group, tip, root, open, abandoned, 0);
    assert Stored(headers, f.snap, f.group, open[0]);
    GoesItself(f, b);
    StepUp(f, b, b);
    RootTracked(f, b);
    forall x | x in f.snap
      ensures var q, gone := f.parent[x], Gone(f, b);
              if x in gone then q == tip.hash || (q in gone && q != b) else q == b || (q !in gone && q != tip.hash)
    {
      GoneClosed(f, b, x);
    }
  }

  /** Finalizing the oldest seen block commits its changes and leaves a mirror above it. */
  lemma SettleOldest(headers: Hash -> Header, f: Forest, tip: Header, root: Root, open: seq<Entry>,
                     abandoned: set<Hash>)
    requires Mirrors(headers, f, tip, open, abandoned) && Chained(tip, root, Transitions(open)) && open != []
    ensures var f' := Finalized(f, HashOf(open[0]));
            && Settled(f, open[0].transition.header) == Ok(f')
            && Mirrors(headers, f', open[0].transition.header, open[1..], abandoned)
            && Databases(f'.group) == OverlayAll(Databases(f.group), open[0].changes)
  {
    var b := HashOf(open[0]);
    var gone := Gone(f, b);
    OldestGone(headers, f, tip, root, open, abandoned);
    forall k | 1 <= k < |open| ensures HashOf(open[k]) !in gone {
      OpenStays(headers, f.parent, f.snap, f.group, tip, root, open, abandoned, gone, k);
    }
    assert Continues(tip, root, Transitions(open), 0);
    SettledTracks(headers, f.parent, f.snap, f.group, tip, open, abandoned, gone, ViewAfter(f, b));
    FinalizedInv(f, b);
    OpenStep(headers, f, tip, root, open, abandoned, 0);
  }

  // ----- a reader above the whole seen chain

  ghost predicate AboveAll(f: Forest, i: SnapshotId, open: seq<Entry>) {
    forall k {:trigger Below(f, i, HashOf(open[k]))} :: 0 <= k < |open| ==> Below(f, i, HashOf(open[k]))
  }

  /** Block `k` of the seen chain is tracked and points to the one before it. */
  ghost predicate LineAt(f: Forest, open: seq<Entry>, k: nat)
    requires k < |open|
  {
    var b := HashOf(open[k]);
    b in f.snap && (k > 0 ==> f.snap[b] in f.links && f.links[f.snap[b]] == IdOf(f, HashOf(open[k - 1])))
  }

  lemma OpenPointer(headers: Hash -> Header, f: Forest, tip: Header, root: Root, open: seq<Entry>,
                    abandoned: set<Hash>, k: nat)
    requires Mirrors(headers, f, tip, open, abandoned) && Chained(tip, root, Transitions(open)) && k < |open|
    ensures LineAt(f, open, k)
  {
    OpenParent(headers, f.parent, f.snap, f.group, tip, root, open, abandoned, k);
    assert Points(f.parent, f.snap, f.links, HashOf(open[k]));
  }

  lemma PointersDescend(f: Forest)
    requires Inv(f)
    ensures forall j :: j in f.links ==> f.links[j] < j
  {
  }

  ghost function OpenIds(f: Forest, open: seq<Entry>): seq<SnapshotId> {
    seq(|open|, k requires 0 <= k < |open| => IdOf(f, HashOf(open[k])))
  }

  /** The seen chain is a line of tracked snapshots. */
  ghost predicate InLine(f: Forest, open: seq<Entry>) {
    && (forall j :: j in f.links ==> f.links[j] < j)
    && (forall k: nat {:trigger LineAt(f, open, k)} :: k < |open| ==> LineAt(f, open, k))
  }

  lemma OpenInLine(headers: Hash -> Header, f: Forest, tip: Header, root: Root, open: seq<Entry>, abandoned: set<Hash>)
    requires Mirrors(headers, f, tip, open, abandoned) && Chained(tip, root, Transitions(open))
    ensures InLine(f, open)
  {
    PointersDescend(f);
    forall m: nat | m < |open| ensures LineAt(f, open, m) {
      OpenPointer(headers, f, tip, root, open, abandoned, m);
    }
  }

  lemma LineSteps(f: Forest, open: seq<Entry>)
    requires InLine(f, open)
    ensures forall m: nat {:trigger Steps(f.links, OpenIds(f, open), m)} ::
              1 <= m < |open| ==> Steps(f.links, OpenIds(f, open), m)
    ensures forall k :: 0 <= k < |open| ==> HashOf(open[k]) in f.snap
  {
    forall m: nat | m < |open|
      ensures HashOf(open[m]) in f.snap && (m >= 1 ==> Steps(f.links, OpenIds(f, open), m))
    {
      assert LineAt(f, open, m);
    }
  }

  /** Later blocks of the seen chain read through earlier ones. */
  lemma OpenDescends(f: Forest, open: seq<Entry>, k: nat, j: nat)
    requires InLine(f, open) && j < k < |open|
    ensures HashOf(open[k]) in f.snap
    ensures Below(f, f.snap[HashOf(open[k])], HashOf(open[j]))
  {
    LineSteps(f, open);
    StepsReach(f.links, OpenIds(f, open), k, j);
  }

  /** A reader above the newest seen block is above all of them. */
  lemma ReaderAboveAll(f: Forest, open: seq<Entry>, i: SnapshotId)
    requires InLine(f, open) && open != []
    requires Below(f, i, HashOf(open[|open| - 1]))
    ensures AboveAll(f, i, open)
  {
    LineSteps(f, open);
    forall k | 0 <= k < |open| ensures Below(f, i, HashOf(open[k])) {
      LineReached(f.links, OpenIds(f, open), i, k);
    }
  }

  lemma BelowKept(f: Forest, b: Hash, c: Hash, i: SnapshotId)
    requires Inv(f) && IsSaved(f, b) && c in f.snap && Below(f, f.snap[c], b) && Below(f, i, c)
    ensures Below(Finalized(f, b), i, c)
  {
    var ids := IdsOf(f.snap, Gone(f, b));
    forall j | Reaches(f.links, j, f.snap[b]) ensures j !in ids {
      ReadersStay(f, b, j);
    }
    PointersDescend(f);
    ReachesKept(f.links, ids, i, f.snap[c], f.snap[b]);
    ReachesIffDescends(f, c, b);
  }

  lemma SettleKeepsReader(headers: Hash -> Header, f: Forest, tip: Header, root: Root, open: seq<Entry>,
                          abandoned: set<Hash>, i: SnapshotId)
    requires Mirrors(headers, f, tip, open, abandoned) && Chained(tip, root, Transitions(open)) && open != []
    requires AboveAll(f, i, open)
    ensures var f' := Finalized(f, HashOf(open[0])); View(f', i) == View(f, i) && AboveAll(f', i, open[1..])
  {
    var b := HashOf(open[0]);
    assert Stored(headers, f.snap, f.group, open[0]);
    assert Below(f, i, b);
    FinalizedKeepsViews(f, b, i);
    OpenInLine(headers, f, tip, root, open, abandoned);
    forall k | 0 <= k < |open[1..]| ensures Below(Finalized(f, b), i, HashOf(open[1..][k])) {
      OpenDescends(f, open, k + 1, 0);
      BelowKept(f, b, HashOf(open[k + 1]), i);
    }
  }

  // ----- finalizing several blocks

  lemma {:induction false} ReplayAppend(dbs: Group<Table>, a: seq<Entry>, b: seq<Entry>)
    ensures Replay(dbs, a + b) == Replay(Replay(dbs, a), b)
  {
    if b == [] {
      assert a + b == a;
    } else {
      var last := |b| - 1;
      assert (a + b)[..|a + b| - 1] == a + b[..last];
      ReplayAppend(dbs, a, b[..last]);
    }
  }

  lemma ChainedTail(tip: Header, root: Root, ts: seq<Transition>)
    requires Chained(tip, root, ts) && ts != []
    ensures Chained(ts[0].header, ts[0].finalRoot, ts[1..])
  {
    forall k: nat | k < |ts[1..]| ensures Continues(ts[0].header, ts[0].finalRoot, ts[1..], k) {
      assert Continues(tip, root, ts, k + 1) && Continues(tip, root, ts, 0);
    }
  }

  lemma SplitOldest(tip: Header, open: seq<Entry>, n: nat)
    requires 1 <= n <= |open|
    ensures var ts, rest := Transitions(open), open[1..];
            && Transitions(rest) == ts[1..] && ts[..n][1..] == ts[1..][..n - 1] && rest[n - 1..] == open[n..]
            && HeaderAt(tip, ts, n) == HeaderAt(ts[0].header, ts[1..], n - 1)
  {
  }

  lemma ReplayOldest(dbs: Group<Table>, open: seq<Entry>, n: nat)
    requires 1 <= n <= |open|
    ensures Replay(dbs, open[..n]) == Replay(OverlayAll(dbs, open[0].changes), open[1..][..n - 1])
  {
    assert open[..n] == open[..1] + open[1..][..n - 1];
    ReplayAppend(dbs, open[..1], open[1..][..n - 1]);
    ReplayStep(dbs, open, 0);
  }

  /** Finalizing the `n` oldest seen blocks succeeds, commits exactly their changes, keeps the mirror above
      them, and changes nothing for a reader above the seen chain. */
  lemma {:induction false} SettleMany(headers: Hash -> Header, f: Forest, tip: Header, root: Root, open: seq<Entry>,
                                      abandoned: set<Hash>, n: nat, i: SnapshotId)
    requires Mirrors(headers, f, tip, open, abandoned) && Chained(tip, root, Transitions(open)) && n <= |open|
    requires AboveAll(f, i, open)
    ensures var r := SettleAll(f, Transitions(open)[..n]);
            && r.Ok? && Mirrors(headers, r.value, HeaderAt(tip, Transitions(open), n), open[n..], abandoned)
            && Databases(r.value.group) == Replay(Databases(f.group), open[..n])
            && View(r.value, i) == View(f, i) && r.value.latest == f.latest
    decreases n
  {
    var ts := Transitions(open);
    if n == 0 {
      assert open[n..] == open;
    } else {
      var f', rest := Finalized(f, HashOf(open[0])), open[1..];
      SettleOldest(headers, f, tip, root, open, abandoned);
      SettleKeepsReader(headers, f, tip, root, open, abandoned, i);
      ChainedTail(tip, root, ts);
      SplitOldest(tip, open, n);
      ReplayOldest(Databases(f.group), open, n);
      SettleMany(headers, f', ts[0].header, ts[0].finalRoot, rest, abandoned, n - 1, i);
    }
  }
}
