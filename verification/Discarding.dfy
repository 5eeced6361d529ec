/** The worklist that discards the losing forks around a finalized block. */
module Discarding {
  import opened Basics
  import opened Containers
  import opened Forest
  import opened ForestProofs

  /** Pointers that neither start at one of `ids`, nor lead a reader to one of them. */
  ghost function Severed(links: Links, ids: set<SnapshotId>, dangled: set<SnapshotId>): Links {
    map i | i in links && i !in ids && !(i in dangled && links[i] in ids) :: links[i]
  }

  /** `f` when the root `b` under `p` is committed, the forks `done` are discarded, and the parents of
      `lost` are already forgotten. */
  ghost function Partial(f: Forest, b: Hash, p: Hash, lost: set<Hash>, done: set<Hash>): Forest {
    var ids := IdsOf(f.snap, done + {b});
    Forest(f.children - (done + {p}), f.parent - (lost + done + {b}), f.latest, f.snap - (done + {b}), f.dangled,
           Severed(f.links, ids, f.dangled), Settle(f.group, ViewAfter(f, b), ids))
  }

  ghost predicate Outside(f: Forest, b: Hash, p: Hash, done: set<Hash>, x: Hash) {
    x in f.snap && x in f.parent && x != b && (f.parent[x] == p || f.parent[x] in done)
  }

  /** The blocks still to discard are exactly those whose parent is `p` or discarded. */
  ghost predicate Worklist(f: Forest, b: Hash, p: Hash, todo: seq<Hash>, done: set<Hash>) {
    && NoDuplicates(todo)
    && (forall x :: x in done ==> Outside(f, b, p, done, x))
    && (forall x :: Outside(f, b, p, done, x) <==> x in done || x in todo)
    && (forall x :: x in todo ==> x !in done)
  }

  ghost function ChildrenOf(f: Forest, x: Hash): seq<Hash> {
    if x in f.children then f.children[x] else []
  }

  lemma DistinctAppend<T>(s: seq<T>, t: seq<T>)
    requires NoDuplicates(s) && NoDuplicates(t) && forall x :: x in s ==> x !in t
    ensures NoDuplicates(s + t)
  {
    forall i, j | 0 <= i < j < |s + t| ensures (s + t)[i] != (s + t)[j] {
      assert i < |s| ==> s[i] in s;
      assert |s| <= j ==> t[j - |s|] in t;
    }
  }

  lemma LastApart<T>(s: seq<T>)
    requires s != []
    ensures s == s[..|s| - 1] + [s[|s| - 1]]
  {
  }

  lemma IdsStep(snap: map<Hash, SnapshotId>, blocks: seq<Hash>, k: nat)
    requires k < |blocks| && blocks[k] in snap
    ensures IdsOf(snap, Elements(blocks[..k + 1])) == IdsOf(snap, Elements(blocks[..k])) + {snap[blocks[k]]}
  {
    assert Elements(blocks[..k + 1]) == Elements(blocks[..k]) + {blocks[k]};
  }

  lemma ChildrenExact(f: Forest, x: Hash, c: Hash)
    requires Tree(f.children, f.parent)
    ensures NoDuplicates(ChildrenOf(f, x))
    ensures c in ChildrenOf(f, x) <==> c in f.parent && f.parent[c] == x
  {
  }

  lemma WorklistStep(f: Forest, b: Hash, p: Hash, rest: seq<Hash>, x: Hash, done: set<Hash>)
    requires Tree(f.children, f.parent) && f.parent.Keys == f.snap.Keys && p !in f.snap
    requires Worklist(f, b, p, rest + [x], done)
    requires b in f.snap && f.parent[b] == p && (x in f.parent ==> f.parent[x] != x)
    ensures Worklist(f, b, p, rest + ChildrenOf(f, x), done + {x})
  {
    var todo, kids, done' := rest + [x], ChildrenOf(f, x), done + {x};
    assert x == todo[|rest|] && forall i :: 0 <= i < |rest| ==> rest[i] == todo[i];
    assert forall y :: y in todo <==> y in rest || y == x;
    forall y ensures y in kids <==> y in f.parent && f.parent[y] == x {
      ChildrenExact(f, x, y);
    }
    assert Outside(f, b, p, done, x);
    forall y ensures Outside(f, b, p, done', y) <==> y in done' || y in rest + kids {
      assert Outside(f, b, p, done', y) <==> Outside(f, b, p, done, y) || y in kids;
    }
    forall y | y in rest + kids ensures y !in done' {
      assert y in done ==> Outside(f, b, p, done, y);
    }
    forall y | y in rest ensures y !in kids {
      assert Outside(f, b, p, done, y);
    }
    ChildrenExact(f, x, x);
    DistinctAppend(rest, kids);
  }

  /** Nothing that is discarded descends from `b`, and all of it hangs under `p`. */
  lemma {:induction false} DiscardedOutside(f: Forest, b: Hash, p: Hash, done: set<Hash>, x: Hash)
    requires Inv(f) && b in f.snap && f.parent[b] == p && p !in f.snap
    requires forall y :: y in done ==> Outside(f, b, p, done, y)
    requires Outside(f, b, p, done, x)
    ensures x in Gone(f, b) && x != b
    decreases IdOf(f, x)
  {
    StepUp(f, b, b);
    StepUp(f, x, b);
    if f.parent[x] != p {
      DiscardedOutside(f, b, p, done, f.parent[x]);
    }
  }

  lemma {:induction false} AllDiscarded(f: Forest, b: Hash, p: Hash, done: set<Hash>, x: Hash)
    requires Inv(f) && b in f.snap && f.parent[b] == p && p !in f.snap
    requires Worklist(f, b, p, [], done)
    requires x in Gone(f, b) && x != b
    ensures x in done
    decreases IdOf(f, x)
  {
    StepUp(f, b, b);
    StepUp(f, x, b);
    GoneClosed(f, b, x);
    if f.parent[x] != p {
      AllDiscarded(f, b, p, done, f.parent[x]);
    }
    assert Outside(f, b, p, done, x);
  }

  lemma DiscardedAreGone(f: Forest, b: Hash, p: Hash, done: set<Hash>)
    requires Inv(f) && b in f.snap && f.parent[b] == p && p !in f.snap
    requires Worklist(f, b, p, [], done)
    ensures done + {b} == Gone(f, b)
  {
    forall x | x in done ensures x in Gone(f, b) {
      DiscardedOutside(f, b, p, done, x);
    }
    forall x | x in Gone(f, b) && x != b ensures x in done {
      AllDiscarded(f, b, p, done, x);
    }
    GoesItself(f, b);
  }

  ghost function Orphaned(links: Links, dangled: set<SnapshotId>, id: SnapshotId): Links {
    map i | i in links && !(i in dangled && links[i] == id) :: links[i]
  }

  /** `s` without the block `x`: one turn of the worklist. */
  ghost function Discarded(s: Forest, x: Hash): Forest {
    var id := IdOf(s, x);
    Forest(s.children - {x}, s.parent - {x}, s.latest, s.snap - {x}, s.dangled,
           Orphaned(s.links, s.dangled, id) - {id}, Settle(s.group, Databases(s.group), {id}))
  }

  /** The next block of the worklist can be discarded, and its children take its place. */
  lemma DiscardStep(f: Forest, b: Hash, p: Hash, rest: seq<Hash>, x: Hash, done: set<Hash>)
    requires Inv(f) && b in f.snap && f.parent[b] == p && p !in f.snap
    requires Worklist(f, b, p, rest + [x], done)
    ensures x in f.snap && x != b && x !in done && x != p && !Descends(f, x, b)
    ensures Worklist(f, b, p, rest + ChildrenOf(f, x), done + {x})
  {
    assert (rest + [x])[|rest|] == x;
    assert Outside(f, b, p, done, x);
    DiscardedOutside(f, b, p, done, x);
    StepUp(f, x, b);
    WorklistStep(f, b, p, rest, x, done);
  }

  lemma SeveredStep(links: Links, ids: set<SnapshotId>, dangled: set<SnapshotId>, id: SnapshotId)
    ensures var l := Severed(links, ids, dangled);
            Orphaned(l, dangled, id) - {id} == Severed(links, ids + {id}, dangled)
  {
  }

  lemma PartialStep(f: Forest, b: Hash, p: Hash, lost: set<Hash>, done: set<Hash>, x: Hash)
    requires ResolvesAll(f.group, f.links) && Aligned(f.group) && IsSaved(f, b) && x in f.snap && x !in done && x != b
    ensures var s, s' := Partial(f, b, p, lost, done), Partial(f, b, p, lost, done + {x});
            x in s.snap && s' == Discarded(s, x)
  {
    var ids := IdsOf(f.snap, done + {b});
    assert IdsOf(f.snap, done + {x} + {b}) == ids + {f.snap[x]};
    SeveredStep(f.links, ids, f.dangled, f.snap[x]);
    SettledTwice(f.group, ViewAfter(f, b), ViewAfter(f, b), ids, {f.snap[x]});
    assert f.children - (done + {p}) - {x} == f.children - (done + {x} + {p});
    assert f.parent - (lost + done + {b}) - {x} == f.parent - (lost + (done + {x}) + {b});
    assert f.snap - (done + {b}) - {x} == f.snap - (done + {x} + {b});
  }

  /** `s` with the root `b` written to the databases, before any fork is discarded. */
  ghost function Committed(s: Forest, b: Hash, p: Hash): Forest {
    var id := IdOf(s, b);
    Forest(s.children - {p}, s.parent - {b}, s.latest, s.snap - {p} - {b}, s.dangled,
           Orphaned(s.links - {id}, s.dangled, id),
           Settle(s.group, OverlayAll(Databases(s.group), ChangesOf(s.group, id)), {id}))
  }

  lemma SeveredFirst(links: Links, dangled: set<SnapshotId>, id: SnapshotId)
    ensures Orphaned(links - {id}, dangled, id) == Severed(links, {id}, dangled)
  {
  }

  lemma MinusTwice<K, V>(m: map<K, V>, a: set<K>, b: set<K>)
    ensures m - a - b == m - (a + b)
  {
  }

  lemma PartialIsCommitted(f: Forest, b: Hash, p: Hash, lost: set<Hash>)
    requires b in f.snap && p !in f.snap
    requires ViewAfter(f, b) == OverlayAll(Databases(f.group), ChangesOf(f.group, f.snap[b]))
    ensures Partial(f, b, p, lost, {}) == Committed(f.(parent := f.parent - lost), b, p)
  {
    SeveredFirst(f.links, f.dangled, f.snap[b]);
    assert IdsOf(f.snap, {} + {b}) == {f.snap[b]};
    assert lost + {} + {b} == lost + {b} && {} + {p} == {p} && {} + {b} == {b};
    MinusTwice(f.parent, lost, {b});
    assert f.snap - {p} == f.snap;
  }

  /** The root `b` committed, nothing discarded yet. */
  lemma PartialStart(f: Forest, b: Hash, p: Hash, lost: set<Hash>)
    requires Inv(f) && IsSaved(f, b) && f.parent[b] == p && p !in f.snap
    ensures Partial(f, b, p, lost, {}) == Committed(f.(parent := f.parent - lost), b, p)
  {
    BlockReads(f, b);
    PartialIsCommitted(f, b, p, lost);
  }

  lemma WorklistStart(f: Forest, b: Hash, p: Hash, siblings: seq<Hash>)
    requires Tree(f.children, f.parent) && f.parent.Keys == f.snap.Keys
    requires NoDuplicates(siblings) && forall x :: x in siblings <==> x in ChildrenOf(f, p) && x != b
    ensures Worklist(f, b, p, siblings, {})
  {
    forall x ensures Outside(f, b, p, {}, x) <==> x in siblings {
      ChildrenExact(f, p, x);
    }
  }

  /** A kept block points into the removed ones only if it is a child of `b`. */
  lemma CutPointer(f: Forest, b: Hash, x: Hash)
    requires Inv(f) && b in f.snap && x in f.snap && x !in Gone(f, b)
    ensures f.snap[x] in f.links && f.links[f.snap[x]] in IdsOf(f.snap, Gone(f, b)) <==> f.parent[x] == b
  {
    assert Points(f.parent, f.snap, f.links, x);
    GoneClosed(f, b, x);
    GoesItself(f, b);
  }

  lemma AllSevered(f: Forest, b: Hash, i: SnapshotId)
    requires Inv(f) && b in f.snap
    ensures var ids := IdsOf(f.snap, Gone(f, b));
            i in Unlinked(f.links, ids) <==>
            i in Severed(f.links, ids, f.dangled) && i !in IdsOf(f.snap, Elements(ChildrenOf(f, b)))
  {
    var ids := IdsOf(f.snap, Gone(f, b));
    if i in f.links && i !in ids && i !in f.dangled {
      var x :| x in f.snap && f.snap[x] == i;
      CutPointer(f, b, x);
      ChildrenExact(f, b, x);
    }
  }

  lemma SeveredEnd(f: Forest, b: Hash)
    requires Inv(f) && b in f.snap
    ensures var ids := IdsOf(f.snap, Gone(f, b));
            Severed(f.links, ids, f.dangled) - IdsOf(f.snap, Elements(ChildrenOf(f, b))) == Unlinked(f.links, ids)
  {
    var ids, kids := IdsOf(f.snap, Gone(f, b)), IdsOf(f.snap, Elements(ChildrenOf(f, b)));
    forall i ensures i in Severed(f.links, ids, f.dangled) - kids <==> i in Unlinked(f.links, ids) {
      AllSevered(f, b, i);
    }
  }

  /** `b` is a saved root under `p`, and only `b` and descendants of it have lost their parent. */
  ghost predicate Rooted(f: Forest, b: Hash, p: Hash, lost: set<Hash>) {
    Inv(f) && IsSaved(f, b) && f.parent[b] == p && p !in f.snap && LostBelow(f, b, lost)
  }

  ghost predicate LostBelow(f: Forest, b: Hash, lost: set<Hash>) {
    forall x :: x in lost ==> x == b || Descends(f, x, b)
  }

  /** One turn of the worklist. */
  lemma Turn(f: Forest, b: Hash, p: Hash, lost: set<Hash>, rest: seq<Hash>, x: Hash, done: set<Hash>)
    requires Rooted(f, b, p, lost) && Worklist(f, b, p, rest + [x], done)
    ensures x in f.snap && x !in done
    ensures var s := Partial(f, b, p, lost, done);
            && x in s.parent && x in s.snap && ChildrenOf(s, x) == ChildrenOf(f, x)
            && Discarded(s, x) == Partial(f, b, p, lost, done + {x})
    ensures Worklist(f, b, p, rest + ChildrenOf(f, x), done + {x})
  {
    DiscardStep(f, b, p, rest, x, done);
    PartialStep(f, b, p, lost, done, x);
  }

  lemma ChildStays(f: Forest, b: Hash, c: Hash)
    requires Inv(f) && b in f.snap && c in ChildrenOf(f, b)
    ensures c in f.snap && c !in Gone(f, b)
  {
    ChildrenExact(f, b, c);
    StepUp(f, c, b);
  }

  lemma ChildrenStay(f: Forest, b: Hash)
    requires Inv(f) && b in f.snap
    ensures var kids := Elements(ChildrenOf(f, b)); kids <= f.snap.Keys && kids !! Gone(f, b)
  {
    forall c | c in ChildrenOf(f, b) ensures c in f.snap && c !in Gone(f, b) {
      ChildStays(f, b, c);
    }
  }

  lemma SameIds(snap: map<Hash, SnapshotId>, kids: set<Hash>, gone: set<Hash>)
    requires kids <= snap.Keys && kids !! gone
    ensures kids <= (snap - gone).Keys && IdsOf(snap - gone, kids) == IdsOf(snap, kids)
  {
  }

  /** Before the commit: the preconditions of `CommitBlock`, and what it leads to. */
  lemma CommitStart(f: Forest, b: Hash, p: Hash, lost: set<Hash>)
    requires Rooted(f, b, p, lost)
    ensures var s := f.(parent := f.parent - lost);
            && Aligned(s.group) && IsSaved(s, b) && b != p
            && p in s.children && NoDuplicates(s.children[p])
            && Committed(s, b, p) == Partial(f, b, p, lost, {})
  {
    ChildrenExact(f, p, b);
    PartialStart(f, b, p, lost);
  }

  /** `s` with the children of `b` cut loose. */
  ghost function Loosened(s: Forest, b: Hash): Forest {
    s.(links := s.links - IdsOf(s.snap, Elements(ChildrenOf(s, b))))
  }

  lemma CutLoose(f: Forest, b: Hash, p: Hash, lost: set<Hash>, done: set<Hash>)
    requires Stem(f, b) == p && b != p && done + {b} == Gone(f, b) && b !in done
    requires var kids, ids := Elements(ChildrenOf(f, b)), IdsOf(f.snap, Gone(f, b));
             && kids <= f.snap.Keys && kids !! Gone(f, b)
             && Severed(f.links, ids, f.dangled) - IdsOf(f.snap, kids) == Unlinked(f.links, ids)
    ensures var s, f' := Partial(f, b, p, lost, done), Finalized(f, b);
            Elements(ChildrenOf(s, b)) <= s.snap.Keys && Loosened(s, b) == Forgetting(f', lost)
  {
    var s := Partial(f, b, p, lost, done);
    assert ChildrenOf(s, b) == ChildrenOf(f, b);
    SameIds(f.snap, Elements(ChildrenOf(f, b)), done + {b});
    assert done == Gone(f, b) - {b};
    assert lost + done + {b} == Gone(f, b) + lost;
    MinusTwice(f.parent, Gone(f, b), lost);
  }

  /** `f` with the parents of `lost` forgotten. */
  ghost function Forgetting(f: Forest, lost: set<Hash>): Forest {
    f.(parent := f.parent - lost)
  }

  /** After the worklist: cutting the children loose finishes the finalization. */
  lemma CommitEnd(f: Forest, b: Hash, p: Hash, lost: set<Hash>, done: set<Hash>)
    requires Inv(f) && b in f.snap && f.parent[b] == p && p !in f.snap
    requires done + {b} == Gone(f, b) && b !in done
    ensures var s, f' := Partial(f, b, p, lost, done), Finalized(f, b);
            Elements(ChildrenOf(s, b)) <= s.snap.Keys && Loosened(s, b) == Forgetting(f', lost)
  {
    StepUp(f, b, b);
    ChildrenStay(f, b);
    SeveredEnd(f, b);
    CutLoose(f, b, p, lost, done);
  }

  lemma LostStays(f: Forest, b: Hash, x: Hash)
    requires Inv(f) && b in f.snap && f.parent[b] in f.snap && IsSaved(f, f.parent[b]) && Descends(f, x, b)
    ensures var p := f.parent[b];
            Descends(f, x, p) && x != p && Descends(Finalized(f, p), x, b)
  {
    var p := f.parent[b];
    StepUp(f, b, p);
    DescendsTransitive(f, x, b, p);
    DescendsRoot(f, x, p);
    ShapeAfterParent(f, b, x);
  }

  lemma LostStaysBelow(f: Forest, b: Hash, lost: set<Hash>)
    requires Inv(f) && b in f.snap && f.parent[b] in f.snap && IsSaved(f, f.parent[b]) && LostBelow(f, b, lost)
    ensures var p := f.parent[b];
            p !in lost && LostBelow(f, p, lost + {p}) && LostBelow(Finalized(f, p), b, lost)
  {
    var p := f.parent[b];
    StepUp(f, b, p);
    forall x | x in lost
      ensures x != p && Descends(f, x, p) && (x == b || Descends(Finalized(f, p), x, b))
    {
      if x != b {
        LostStays(f, b, x);
      }
    }
  }

  /** Finalizing the parent first: its call is legal, and afterwards `b` is a root of what remains. */
  lemma AncestorFirst(f: Forest, b: Hash, lost: set<Hash>)
    requires Inv(f) && IsSaved(f, b) && f.parent[b] in f.snap && LostBelow(f, b, lost)
    ensures var p := f.parent[b]; var g := Finalized(f, p);
            && IsSaved(f, p) && IdOf(f, p) < IdOf(f, b) && p !in lost && LostBelow(f, p, lost + {p})
            && p in f.parent && p in Gone(f, p)
            && Rooted(g, b, p, lost) && Finalized(g, b) == Finalized(f, b)
  {
    FinalizedStepwise(f, b);
    ParentLeavesRoot(f, b);
    StepUp(f, b, b);
    GoesItself(f, f.parent[b]);
    LostStaysBelow(f, b, lost);
  }

  lemma MinusAbsent<K, V>(m: map<K, V>, a: set<K>, k: K)
    requires k !in m
    ensures m - (a + {k}) == m - a
  {
  }

  /** The parent entry that is dropped before the recursive call is gone after it anyway. */
  lemma ForgetParent(f: Forest, p: Hash, lost: set<Hash>)
    requires p in Gone(f, p)
    ensures f.parent - lost - {p} == f.parent - (lost + {p})
    ensures Finalized(f, p).parent - (lost + {p}) == Finalized(f, p).parent - lost
  {
    MinusTwice(f.parent, lost, {p});
    MinusAbsent(Finalized(f, p).parent, lost, p);
  }

  lemma NothingLost(f: Forest)
    ensures f.(parent := f.parent - {}) == f
  {
    assert f.parent - {} == f.parent;
  }
}
