/** What the storage manager promises, proved of the operations of `Forest`. */
module ForestProofs {
  import opened Wrappers
  import opened Basics
  import opened Containers
  import opened Forest

  // ----- shape

  /** One step up from a tracked block. */
  lemma StepUp(f: Forest, x: Hash, b: Hash)
    requires Inv(f) && x in f.snap
    ensures var q := f.parent[x];
            if q in f.snap
            then Climbs(f, x) && Stem(f, x) == Stem(f, q) && Descends(f, x, b) == (q == b || Descends(f, q, b))
            else Stem(f, x) == q && Descends(f, x, b) == (q == b)
  {
    assert Points(f.parent, f.snap, f.links, x);
  }

  lemma {:induction false} RootTracked(f: Forest, x: Hash)
    requires Inv(f) && x in f.snap
    ensures Root(f, x) in f.snap && Stem(f, x) !in f.snap
    decreases IdOf(f, x)
  {
    if f.parent[x] in f.snap {
      assert Points(f.parent, f.snap, f.links, x) && Climbs(f, x);
      RootTracked(f, f.parent[x]);
    }
  }

  lemma {:induction false} DescendsRoot(f: Forest, x: Hash, b: Hash)
    requires Inv(f) && x in f.snap && b in f.snap && Descends(f, x, b)
    ensures Stem(f, x) == Stem(f, b) && f.snap[b] < f.snap[x]
    decreases IdOf(f, x)
  {
    assert Points(f.parent, f.snap, f.links, x) && Climbs(f, x);
    if f.parent[x] != b {
      DescendsRoot(f, f.parent[x], b);
    }
  }

  // ----- creating and saving

  /** A new manager tracks nothing, and every id reads the databases. */
  lemma EmptyForest(dbs: Group<Table>, i: SnapshotId)
    ensures Inv(Empty(dbs)) && View(Empty(dbs), i) == dbs
  {
  }

  lemma BootstrapInv(f: Forest)
    requires Inv(f) && f.latest + 1 < ID_LIMIT
    ensures Inv(Bootstrapped(f))
  {
  }

  lemma GrownTree(children: map<Hash, seq<Hash>>, parent: map<Hash, Hash>, p: Hash, b: Hash)
    requires Tree(children, parent) && b != p
    requires b !in parent && b !in children
    ensures Tree(Appended(children, p, b), parent[b := p])
  {
    var children' := Appended(children, p, b);
    forall q | q in children'
      ensures children'[q] != [] && NoDuplicates(children'[q])
    {
      assert q == p && p in children ==> b !in children[p];
    }
  }

  lemma GrownLinks(parent: map<Hash, Hash>, snap: map<Hash, SnapshotId>, dangled: set<SnapshotId>,
                   links: Links, saved: set<SnapshotId>, p: Hash, b: Hash, id: SnapshotId)
    requires Linked(parent, snap, dangled, links, saved)
    requires b != p && b !in snap && (forall c :: c in parent ==> parent[c] != b)
    requires id !in links && (forall c :: c in snap ==> snap[c] != id)
    ensures Linked(parent[b := p], snap[b := id], dangled,
                   if p in snap then links[id := snap[p]] else links, saved)
  {
    var parent', snap', links' := parent[b := p], snap[b := id], if p in snap then links[id := snap[p]] else links;
    assert snap'[b] == id;
    forall i | IsBlockId(snap, i) ensures IsBlockId(snap', i) {
      var c :| c in snap && snap[c] == i;
      assert snap'[c] == i;
    }
    forall c | c in snap' ensures Points(parent', snap', links', c) {
      assert c != b ==> Points(parent, snap, links, c);
    }
  }

  lemma GrownNumbers(latest: SnapshotId, snap: map<Hash, SnapshotId>, dangled: set<SnapshotId>, b: Hash)
    requires Numbered(latest, snap, dangled) && latest + 1 < ID_LIMIT && b !in snap
    ensures Numbered(latest + 1, snap[b := latest + 1], dangled)
  {
  }

  lemma HungLinks(parent: map<Hash, Hash>, snap: map<Hash, SnapshotId>, dangled: set<SnapshotId>,
                  links: Links, saved: set<SnapshotId>, id: SnapshotId, target: SnapshotId)
    requires Linked(parent, snap, dangled, links, saved)
    requires forall c :: c in snap ==> snap[c] != id
    ensures Linked(parent, snap, dangled + {id}, links[id := target], saved)
  {
    forall b | b in snap ensures Points(parent, snap, links[id := target], b) {
      assert Points(parent, snap, links, b);
    }
  }

  lemma FreshUnused(f: Forest)
    requires Inv(f) && f.latest + 1 < ID_LIMIT
    ensures Fresh(f) !in f.links && (forall b :: b in f.snap ==> f.snap[b] != Fresh(f))
  {
  }

  lemma GrownInv(f: Forest, h: Header)
    requires Inv(f) && f.latest + 1 < ID_LIMIT && h.hash != h.prev
    requires h.hash !in f.snap && h.hash !in f.children
    requires h.prev in f.snap ==> IsSaved(f, h.prev)
    ensures Inv(Grown(f, h))
  {
    FreshUnused(f);
    GrownTree(f.children, f.parent, h.prev, h.hash);
    GrownNumbers(f.latest, f.snap, f.dangled, h.hash);
    if h.prev in f.snap {
      LinkResolves(f.group, f.links, Fresh(f), f.snap[h.prev]);
    }
    GrownLinks(f.parent, f.snap, f.dangled, f.links, Saved(f.group), h.prev, h.hash, Fresh(f));
  }

  /** A new block that tracked blocks already name as their parent leaves their pointers behind. */
  lemma LateParent(f: Forest, h: Header)
    requires Inv(f) && h.hash !in f.snap && h.hash in f.children
    ensures !Inv(Grown(f, h))
  {
    var f' := Grown(f, h);
    var c := f.children[h.hash][0];
    assert c in f.children[h.hash] && c in f.snap && f.parent[c] == h.hash;
    assert Points(f.parent, f.snap, f.links, c);
    FreshOrWrapped(f, c);
    assert !Points(f'.parent, f'.snap, f'.links, c);
  }

  lemma FreshOrWrapped(f: Forest, c: Hash)
    requires Inv(f) && c in f.snap
    ensures f.snap[c] != Fresh(f)
  {
  }

  /** Asking for the state of a block keeps the invariant exactly if the block was asked for before, or no tracked
      block names it as its parent yet. */
  lemma CreateStateForInvIff(f: Forest, h: Header)
    requires Inv(f) && f.latest + 1 < ID_LIMIT && StateFor(f, h).Ok?
    ensures Inv(StateFor(f, h).value) <==> h.hash in f.snap || h.hash !in f.children
  {
    if h.hash !in f.snap {
      if h.hash in f.children {
        LateParent(f, h);
      } else {
        GrownInv(f, h);
      }
    }
  }

  /** For instance: block 2 on block 1 is asked for, and block 1 only then. */
  lemma ParentAfterChild(dbs: Group<Table>)
    ensures var child, parent := Header(2, 1, 2), Header(1, 0, 1);
            var f := StateFor(Empty(dbs), child);
            f.Ok? && Inv(f.value) && StateFor(f.value, parent).Ok? && !Inv(StateFor(f.value, parent).value)
  {
    var child, parent := Header(2, 1, 2), Header(1, 0, 1);
    EmptyForest(dbs, 0);
    CreateStateForInvIff(Empty(dbs), child);
    CreateStateForInvIff(StateFor(Empty(dbs), child).value, parent);
  }

  lemma CreateStateAfterInv(f: Forest, h: Header)
    requires Inv(f) && f.latest + 1 < ID_LIMIT && StateAfter(f, h).Ok?
    ensures Inv(StateAfter(f, h).value)
  {
    FreshUnused(f);
    LinkResolves(f.group, f.links, Fresh(f), f.snap[h.hash]);
    HungLinks(f.parent, f.snap, f.dangled, f.links, Saved(f.group), Fresh(f), f.snap[h.hash]);
    BootstrapInv(f);
  }

  lemma SaveChangeSetInv(f: Forest, h: Header, cs: Group<ChangeSet>)
    requires Inv(f) && ChangesSaved(f, h, cs).Ok?
    ensures Inv(ChangesSaved(f, h, cs).value)
  {
    InsertFacts(f.group, f.links, f.snap[h.hash], cs);
    assert IsBlockId(f.snap, f.snap[h.hash]);
  }

  /** A bootstrap state reads the databases, and disturbs no other reader. */
  lemma BootstrapReads(f: Forest, i: SnapshotId)
    requires Inv(f) && f.latest + 1 < ID_LIMIT
    ensures Inv(Bootstrapped(f))
    ensures View(Bootstrapped(f), i) == View(f, i) && View(Bootstrapped(f), Fresh(f)) == Databases(f.group)
    ensures f.latest < Fresh(f) && Fresh(f) in Bootstrapped(f).dangled
  {
    BootstrapInv(f);
    FreshUnused(f);
  }

  /** What a block reads before it is saved: its parent's result, or the databases. */
  lemma BlockReads(f: Forest, b: Hash)
    requires Inv(f) && b in f.snap
    ensures f.parent[b] in f.snap ==> IsSaved(f, f.parent[b])
    ensures View(f, f.snap[b]) == if f.parent[b] in f.snap then ViewAfter(f, f.parent[b]) else Databases(f.group)
  {
    assert Points(f.parent, f.snap, f.links, b);
  }

  /** Asking for the state of a block, in parent-first order, keeps the invariant and what every other
      snapshot reads; the new state reads what the parent left behind. */
  lemma CreateStateForReads(f: Forest, h: Header, i: SnapshotId)
    requires Inv(f) && f.latest + 1 < ID_LIMIT && i <= f.latest
    requires if h.hash in f.snap then f.parent[h.hash] == h.prev else h.hash !in f.children
    ensures var r := StateFor(f, h);
            && (r.Ok? <==> h.hash != h.prev && (h.hash in f.snap || h.prev !in f.snap || IsSaved(f, h.prev)))
            && (r.Ok? ==>
              && Inv(r.value) && View(r.value, i) == View(f, i)
              && h.hash in r.value.snap && r.value.parent[h.hash] == h.prev
              && (h.hash !in f.snap ==> f.latest < r.value.snap[h.hash])
              && (h.prev in f.snap ==> IsSaved(f, h.prev))
              && View(r.value, r.value.snap[h.hash]) ==
                 (if h.prev in f.snap then ViewAfter(f, h.prev) else Databases(f.group)))
  {
    var r := StateFor(f, h);
    if h.hash in f.snap {
      BlockReads(f, h.hash);
    }
    if r.Ok? {
      if h.hash !in f.snap {
        GrownInv(f, h);
        FreshUnused(f);
        if h.prev in f.snap {
          LinkKeepsViews(f.group, f.links, Fresh(f), f.snap[h.prev], i);
        }
      } else {
        BlockReads(f, h.hash);
      }
    }
  }

  /** A state created after a block reads the result of that block, through it. */
  lemma CreateStateAfterReads(f: Forest, h: Header, i: SnapshotId)
    requires Inv(f) && f.latest + 1 < ID_LIMIT && i <= f.latest
    ensures var r := StateAfter(f, h);
            r.Ok? ==>
              && Inv(r.value) && View(r.value, i) == View(f, i)
              && View(r.value, r.value.latest) == ViewAfter(f, h.hash)
              && f.latest < r.value.latest && r.value.latest in r.value.dangled
              && Below(r.value, r.value.latest, h.hash)
  {
    var r := StateAfter(f, h);
    if r.Ok? {
      CreateStateAfterInv(f, h);
      LinkKeepsViews(f.group, f.links, Fresh(f), f.snap[h.hash], i);
    }
  }

  /** Saving a change set is invisible to every snapshot, and defines what comes after the block. */
  lemma SaveChangeSetReads(f: Forest, h: Header, cs: Group<ChangeSet>, i: SnapshotId)
    requires Inv(f)
    ensures var r := ChangesSaved(f, h, cs);
            r.Ok? ==>
              && Inv(r.value) && View(r.value, i) == View(f, i)
              && IsSaved(r.value, h.hash)
              && ViewAfter(r.value, h.hash) == OverlayAll(View(f, f.snap[h.hash]), cs)
  {
    var r := ChangesSaved(f, h, cs);
    if r.Ok? {
      SaveChangeSetInv(f, h, cs);
      InsertKeepsViews(f.group, f.links, f.snap[h.hash], cs, i);
      InsertKeepsViews(f.group, f.links, f.snap[h.hash], cs, f.snap[h.hash]);
    }
  }

  // ----- finalization: the invariant

  /** A removed block hangs under the old parent hash or under a removed block other than `b`; a kept
      block hangs under `b` or under something that stays. */
  lemma GoneClosed(f: Forest, b: Hash, c: Hash)
    requires Inv(f) && b in f.snap && c in f.snap
    ensures var gone, p, q := Gone(f, b), Stem(f, b), f.parent[c];
            if c in gone then q == p || (q in gone && q != b) else q == b || (q !in gone && q != p)
  {
    RootTracked(f, b);
    RootTracked(f, c);
    StepUp(f, c, b);
  }

  lemma PrunedTree(children: map<Hash, seq<Hash>>, parent: map<Hash, Hash>, gone: set<Hash>, b: Hash, p: Hash)
    requires Tree(children, parent)
    requires forall c :: c in parent ==>
               if c in gone then parent[c] == p || (parent[c] in gone && parent[c] != b)
               else parent[c] == b || (parent[c] !in gone && parent[c] != p)
    requires p !in parent && b in parent
    ensures Tree(children - (gone - {b} + {p}), parent - gone)
  {
    var dropped := gone - {b} + {p};
    var children' := children - dropped;
    forall q, c | q in children' && c in children'[q] ensures c in parent - gone && parent[c] == q {
      assert c in children[q] && q !in dropped && c in parent && parent[c] == q;
      assert c !in gone;
    }
  }

  lemma PrunedNumbers(latest: SnapshotId, snap: map<Hash, SnapshotId>, dangled: set<SnapshotId>, gone: set<Hash>)
    requires Numbered(latest, snap, dangled)
    ensures Numbered(latest, snap - gone, dangled)
  {
  }

  lemma PrunedLinks(parent: map<Hash, Hash>, snap: map<Hash, SnapshotId>, dangled: set<SnapshotId>,
                    links: Links, saved: set<SnapshotId>, gone: set<Hash>)
    requires Linked(parent, snap, dangled, links, saved)
    requires forall b, c :: b in snap && c in snap && snap[b] == snap[c] ==> b == c
    ensures Linked(parent - gone, snap - gone, dangled, Unlinked(links, IdsOf(snap, gone)), saved - IdsOf(snap, gone))
  {
    var ids, snap' := IdsOf(snap, gone), snap - gone;
    forall i | IsBlockId(snap, i) && i !in ids ensures IsBlockId(snap', i) {
      var c :| c in snap && snap[c] == i;
      assert c in snap' && snap'[c] == i;
    }
    forall c | c in snap' ensures Points(parent - gone, snap', Unlinked(links, ids), c) {
      assert Points(parent, snap, links, c);
    }
  }

  lemma FinalizedInv(f: Forest, b: Hash)
    requires Inv(f) && IsSaved(f, b)
    ensures Inv(Finalized(f, b))
  {
    RootTracked(f, b);
    var gone, p, dbs := Gone(f, b), Stem(f, b), ViewAfter(f, b);
    forall c | c in f.parent
      ensures if c in gone then f.parent[c] == p || (f.parent[c] in gone && f.parent[c] != b)
              else f.parent[c] == b || (f.parent[c] !in gone && f.parent[c] != p)
    {
      GoneClosed(f, b, c);
    }
    PrunedTree(f.children, f.parent, gone, b, p);
    PrunedNumbers(f.latest, f.snap, f.dangled, gone);
    PrunedLinks(f.parent, f.snap, f.dangled, f.links, Saved(f.group), gone);
    SettleFacts(f.group, dbs, IdsOf(f.snap, gone));
    SettleResolves(f.group, f.links, dbs, IdsOf(f.snap, gone));
  }

  lemma NotOwnDescendant(f: Forest, b: Hash)
    requires Inv(f) && b in f.snap
    ensures !Descends(f, b, b)
  {
    if Descends(f, b, b) {
      DescendsRoot(f, b, b);
    }
  }

  lemma GoesItself(f: Forest, b: Hash)
    requires Inv(f) && b in f.snap
    ensures b in Gone(f, b)
  {
    RootTracked(f, b);
    NotOwnDescendant(f, b);
  }

  // ----- finalization: the views

  /** Reading through `b` is descending from it. */
  lemma {:induction false} ReachesIffDescends(f: Forest, x: Hash, b: Hash)
    requires Inv(f) && x in f.snap && b in f.snap
    ensures Below(f, f.snap[x], b) <==> Descends(f, x, b)
    decreases IdOf(f, x)
  {
    assert Points(f.parent, f.snap, f.links, x);
    if f.parent[x] in f.snap {
      assert Climbs(f, x);
      ReachesIffDescends(f, f.parent[x], b);
    }
  }

  lemma ReadersStay(f: Forest, b: Hash, j: SnapshotId)
    requires Inv(f) && b in f.snap && Below(f, j, b)
    ensures j !in IdsOf(f.snap, Gone(f, b))
  {
    RootTracked(f, b);
    if x :| x in Gone(f, b) && f.snap[x] == j {
      ReachesIffDescends(f, x, b);
    }
  }

  /** Finalizing `b`, with all its unfinalized ancestors, changes nothing for any snapshot that reads
      through `b`: its descendants, and the readers hung under it or under them. */
  lemma FinalizedKeepsViews(f: Forest, b: Hash, i: SnapshotId)
    requires Inv(f) && IsSaved(f, b) && Below(f, i, b)
    ensures var f' := Finalized(f, b); Inv(f') && View(f', i) == View(f, i)
  {
    FinalizedInv(f, b);
    var ids, t := IdsOf(f.snap, Gone(f, b)), f.snap[b];
    assert t in ids by {
      if Descends(f, b, b) {
        DescendsRoot(f, b, b);
      }
    }
    forall j | Reaches(f.links, j, t) ensures j !in ids {
      ReadersStay(f, b, j);
    }
    CommitKeepsView(f.group.state, f.links, ids, t, i);
    CommitKeepsView(f.group.accessory, f.links, ids, t, i);
    CommitKeepsView(f.group.ledger, f.links, ids, t, i);
  }

  // ----- finalization: one block at a time

  /** Finalizing the parent first leaves every kept block with the same descendants of `b`, and cuts
      its climb to the root just below the parent. */
  lemma {:induction false} ShapeAfterParent(f: Forest, b: Hash, x: Hash)
    requires Inv(f) && b in f.snap && f.parent[b] in f.snap && IsSaved(f, f.parent[b])
    requires x in f.snap && x !in Gone(f, f.parent[b])
    ensures var p := f.parent[b]; var g := Finalized(f, p);
            && Descends(g, x, b) == Descends(f, x, b)
            && Stem(g, x) == (if Descends(f, x, p) then p else Stem(f, x))
    decreases IdOf(f, x)
  {
    var p := f.parent[b];
    var g := Finalized(f, p);
    FinalizedInv(f, p);
    GoneClosed(f, p, x);
    GoesItself(f, p);
    StepUp(f, x, b);
    StepUp(f, x, p);
    StepUp(g, x, b);
    if f.parent[x] == p {
      if Descends(f, p, b) {
        DescendsRoot(f, p, b);
        StepUp(f, b, b);
      }
    } else if f.parent[x] in f.snap {
      ShapeAfterParent(f, b, f.parent[x]);
    }
  }

  lemma {:induction false} DescendsTransitive(f: Forest, x: Hash, b: Hash, p: Hash)
    requires Inv(f) && x in f.snap && b in f.snap && Descends(f, x, b) && Descends(f, b, p)
    ensures Descends(f, x, p)
    decreases IdOf(f, x)
  {
    assert Points(f.parent, f.snap, f.links, x) && Climbs(f, x);
    if f.parent[x] != b {
      DescendsTransitive(f, f.parent[x], b, p);
    }
  }

  /** After its parent, `b` is a root of the remaining forest. */
  lemma ParentLeavesRoot(f: Forest, b: Hash)
    requires Inv(f) && b in f.snap && f.parent[b] in f.snap && IsSaved(f, f.parent[b])
    ensures var g := Finalized(f, f.parent[b]);
            Inv(g) && b in g.snap && Root(g, b) == b && g.parent[b] == f.parent[b] && f.parent[b] !in g.snap
    ensures IsSaved(f, b) ==> IsSaved(Finalized(f, f.parent[b]), b)
  {
    var p := f.parent[b];
    FinalizedInv(f, p);
    NotOwnDescendant(f, p);
    assert Descends(f, b, p);
    assert b !in Gone(f, p) && p in Gone(f, p);
  }

  /** `g` is `f` once the parent of `b` is finalized. */
  ghost predicate ParentDone(f: Forest, b: Hash, g: Forest) {
    && Inv(f) && b in f.snap && f.parent[b] in f.snap && IsSaved(f, f.parent[b])

    && g == Finalized(f, f.parent[b])
    && Inv(g) && b in g.snap
  }

  lemma GoneStepwise(f: Forest, b: Hash, g: Forest, x: Hash)
    requires ParentDone(f, b, g)
    ensures x in Gone(f, b) <==> x in Gone(f, f.parent[b]) || x in Gone(g, b)
  {
    var p := f.parent[b];
    ParentLeavesRoot(f, b);
    StepUp(f, b, b);
    if x in f.snap {
      RootTracked(f, x);
      if x in Gone(f, p) {
        if Descends(f, x, b) {
          DescendsTransitive(f, x, b, p);
        }
      } else {
        ShapeAfterParent(f, b, x);
        if Descends(f, x, p) {
          DescendsRoot(f, x, p);
        }
      }
    }
  }

  lemma GoneUnion(f: Forest, b: Hash, g: Forest)
    requires ParentDone(f, b, g)
    ensures Gone(f, b) == Gone(f, f.parent[b]) + Gone(g, b)
  {
    forall x ensures x in Gone(f, b) <==> x in Gone(f, f.parent[b]) || x in Gone(g, b) {
      GoneStepwise(f, b, g, x);
    }
  }

  lemma UnlinkedTwice(links: Links, a: set<SnapshotId>, b: set<SnapshotId>)
    ensures Unlinked(Unlinked(links, a), b) == Unlinked(links, a + b)
  {
  }

  lemma SettledTwice(g: Group<Container>, dbs: Group<Table>, dbs': Group<Table>,
                     a: set<SnapshotId>, b: set<SnapshotId>)
    ensures Settle(Settle(g, dbs, a), dbs', b) == Settle(g, dbs', a + b)
  {
    assert forall m: map<SnapshotId, ChangeSet> :: m - a - b == m - (a + b);
  }

  lemma PrunedTwice(f: Forest, gone: set<Hash>, gone': set<Hash>, b: Hash, b': Hash, p: Hash,
                    dbs: Group<Table>, dbs': Group<Table>)
    requires b in gone && b !in gone' && b' !in gone && b' in gone'
    ensures Pruned(Pruned(f, gone, b, p, dbs), gone', b', b, dbs') == Pruned(f, gone + gone', b', p, dbs')
  {
    var f1 := Pruned(f, gone, b, p, dbs);
    var ids, ids' := IdsOf(f.snap, gone), IdsOf(f1.snap, gone');
    assert ids + ids' == IdsOf(f.snap, gone + gone');
    UnlinkedTwice(f.links, ids, ids');
    SettledTwice(f.group, dbs, dbs', ids, ids');
    assert (gone - {b} + {p}) + (gone' - {b'} + {b}) == gone + gone' - {b'} + {p};
    assert f1.children - (gone' - {b'} + {b}) == f.children - (gone + gone' - {b'} + {p});
    assert f1.parent - gone' == f.parent - (gone + gone');
    assert f1.snap - gone' == f.snap - (gone + gone');
  }

  lemma ViewAfterParent(f: Forest, b: Hash)
    requires Inv(f) && IsSaved(f, b) && f.parent[b] in f.snap && IsSaved(f, f.parent[b])
    ensures var g := Finalized(f, f.parent[b]);
            Inv(g) && IsSaved(g, b) && ViewAfter(g, b) == ViewAfter(f, b)
  {
    assert Points(f.parent, f.snap, f.links, b);
    ParentLeavesRoot(f, b);
    FinalizedKeepsViews(f, f.parent[b], f.snap[b]);
  }

  /** Finalizing `b` at once is finalizing its ancestors from the oldest on, and then `b`. */
  lemma FinalizedStepwise(f: Forest, b: Hash)
    requires Inv(f) && IsSaved(f, b) && f.parent[b] in f.snap
    ensures IsSaved(f, f.parent[b])
    ensures var g := Finalized(f, f.parent[b]);
            Inv(g) && IsSaved(g, b) && Root(g, b) == b && Finalized(g, b) == Finalized(f, b)
  {
    var p := f.parent[b];
    assert Points(f.parent, f.snap, f.links, b);
    RootTracked(f, b);
    ParentLeavesRoot(f, b);
    var g := Finalized(f, p);
    GoneUnion(f, b, g);
    GoesItself(f, p);
    GoesItself(g, b);
    ViewAfterParent(f, b);
    assert Climbs(f, b);
    PrunedTwice(f, Gone(f, p), Gone(g, b), p, b, Stem(f, p), ViewAfter(f, p), ViewAfter(g, b));
  }

  // ----- finalization: exactly what goes

  /** `a` is `b` or one of its tracked ancestors. */
  ghost predicate OnPath(f: Forest, a: Hash, b: Hash) {
    a in f.snap && (a == b || Descends(f, b, a))
  }

  /** `x` is in the tree of `s`, a sibling of the block `a` on the path to `b`. */
  ghost predicate InLosingFork(f: Forest, b: Hash, a: Hash, s: Hash, x: Hash) {
    && OnPath(f, a, b) && s in f.snap && a in f.parent && s in f.parent
    && s != a && f.parent[s] == f.parent[a] && (x == s || Descends(f, x, s))
  }

  lemma {:induction false} PathChild(f: Forest, b: Hash, q: Hash) returns (a: Hash)
    requires Inv(f) && b in f.snap && q in f.snap && Descends(f, b, q)
    ensures OnPath(f, a, b) && f.parent[a] == q
    decreases IdOf(f, b)
  {
    StepUp(f, b, q);
    if f.parent[b] == q {
      a := b;
    } else {
      a := PathChild(f, f.parent[b], q);
      StepUp(f, b, a);
    }
  }

  lemma {:induction false} RootOnPath(f: Forest, b: Hash) returns (a: Hash)
    requires Inv(f) && b in f.snap
    ensures OnPath(f, a, b) && f.parent[a] == Stem(f, b)
    decreases IdOf(f, b)
  {
    StepUp(f, b, b);
    if f.parent[b] in f.snap {
      a := RootOnPath(f, f.parent[b]);
      StepUp(f, b, a);
    } else {
      a := b;
    }
  }

  lemma {:induction false} GoneIsLosing(f: Forest, b: Hash, x: Hash) returns (a: Hash, s: Hash)
    requires Inv(f) && b in f.snap && x in Gone(f, b) && !OnPath(f, x, b)
    ensures InLosingFork(f, b, a, s, x)
    decreases IdOf(f, x)
  {
    var q := f.parent[x];
    GoneClosed(f, b, x);
    RootTracked(f, b);
    s := x;
    if q == Stem(f, b) {
      a := RootOnPath(f, b);
    } else {
      StepUp(f, x, x);
      if OnPath(f, q, b) {
        a := PathChild(f, b, q);
      } else {
        a, s := GoneIsLosing(f, b, q);
        StepUp(f, x, s);
      }
    }
  }

  /** Two ancestors of one block lie on one line. */
  lemma {:induction false} AncestorsInLine(f: Forest, x: Hash, a: Hash, s: Hash)
    requires Inv(f) && x in f.snap && a in f.snap && s in f.snap
    requires (x == a || Descends(f, x, a)) && (x == s || Descends(f, x, s))
    ensures a == s || Descends(f, a, s) || Descends(f, s, a)
    decreases IdOf(f, x)
  {
    if x != a && x != s {
      StepUp(f, x, a);
      StepUp(f, x, s);
      AncestorsInLine(f, f.parent[x], a, s);
    }
  }

  lemma LosingIsGone(f: Forest, b: Hash, a: Hash, s: Hash, x: Hash)
    requires Inv(f) && b in f.snap && x in f.snap && InLosingFork(f, b, a, s, x)
    ensures x in Gone(f, b)
  {
    StepUp(f, a, a);
    StepUp(f, s, s);
    if x != s {
      DescendsRoot(f, x, s);
    }
    if a != b {
      DescendsRoot(f, b, a);
    }
    if Descends(f, x, b) {
      if a != b {
        DescendsTransitive(f, x, b, a);
      }
      AncestorsInLine(f, x, a, s);
      SiblingsApart(f, a, s);
      SiblingsApart(f, s, a);
    }
  }

  lemma SiblingsApart(f: Forest, a: Hash, s: Hash)
    requires Inv(f) && a in f.snap && s in f.snap && f.parent[a] == f.parent[s]
    ensures !Descends(f, a, s)
  {
    StepUp(f, a, s);
    StepUp(f, s, s);
    NotOwnDescendant(f, s);
  }

  /** Finalizing `b` removes `b`, its tracked ancestors, and the trees of their siblings: nothing else. */
  lemma RemovedExactly(f: Forest, b: Hash, x: Hash)
    requires Inv(f) && IsSaved(f, b) && x in f.snap
    ensures x !in Finalized(f, b).snap <==> OnPath(f, x, b) || exists a, s :: InLosingFork(f, b, a, s, x)
  {
    if x in Gone(f, b) {
      if !OnPath(f, x, b) {
        var a, s := GoneIsLosing(f, b, x);
      }
    } else if OnPath(f, x, b) {
      GoesItself(f, b);
      if x != b {
        DescendsRoot(f, b, x);
        if Descends(f, x, b) {
          DescendsRoot(f, x, b);
        }
      }
    } else if a, s :| InLosingFork(f, b, a, s, x) {
      LosingIsGone(f, b, a, s, x);
    }
  }

  /** When all trees hang under one hash, only the strict descendants of `b` stay. */
  lemma OnlyDescendantsStay(f: Forest, b: Hash, x: Hash)
    requires Inv(f) && IsSaved(f, b) && x in f.snap && forall y :: y in f.snap ==> Stem(f, y) == Stem(f, b)
    ensures x in Finalized(f, b).snap <==> Descends(f, x, b)
  {
    RootTracked(f, b);
  }
}
