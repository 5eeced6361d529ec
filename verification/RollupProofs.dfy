/** Executing one block on top of the seen chain, and processing it. */
module RollupProofs {
  import opened Wrappers
  import opened Containers
  import opened Forest
  import opened ForestProofs
  import opened Rollup
  import opened ReorgProofs
  import opened TrackingProofs

  // ----- executing one block on top of the seen chain

  /** `b` is the DA block right above the seen chain, and is not tracked. */
  ghost predicate IsNext(headers: Hash -> Header, snap: map<Hash, SnapshotId>, tip: Header, open: seq<Entry>,
                         b: Header)
  {
    && headers(b.hash) == b && b.height == tip.height + 1 + |open| && b.hash !in snap
    && b.prev == HeaderAt(tip, Transitions(open), |open|).hash
  }

  /** The next block is new to the storage, and its parent is the newest seen block or the last final one. */
  lemma NextBlock(headers: Hash -> Header, f: Forest, tip: Header, root: Root, open: seq<Entry>, abandoned: set<Hash>,
                  b: Header)
    requires Mirrors(headers, f, tip, open, abandoned) && Chained(tip, root, Transitions(open))
    requires IsNext(headers, f.snap, tip, open, b)
    ensures b.hash != b.prev && b.hash !in f.children && headers(b.prev).height + 1 == b.height
    ensures if open == [] then b.prev == tip.hash && b.prev !in f.snap
            else b.prev == HashOf(open[|open| - 1]) && IsSaved(f, b.prev)
  {
    NewBlockChildless(headers, f, tip, open, abandoned, b);
    LastOpen(headers, f, tip, root, open, abandoned);
  }

  /** The state handed out for the next block reads the seen chain replayed. */
  lemma HandOut(headers: Hash -> Header, f: Forest, tip: Header, root: Root, open: seq<Entry>, abandoned: set<Hash>,
                b: Header, i: SnapshotId)
    requires Mirrors(headers, f, tip, open, abandoned) && Chained(tip, root, Transitions(open))
    requires IsNext(headers, f.snap, tip, open, b) && f.latest + 2 < ID_LIMIT && i <= f.latest
    ensures StateFor(f, b) == Ok(Grown(f, b)) && Inv(Grown(f, b))
    ensures View(Grown(f, b), Fresh(f)) == Replay(Databases(f.group), open) && View(Grown(f, b), i) == View(f, i)
  {
    NextBlock(headers, f, tip, root, open, abandoned, b);
    assert open[..|open|] == open;
    if open != [] {
      OpenReads(headers, f, tip, root, open, abandoned, |open| - 1);
    }
    CreateStateForReads(f, b, i);
  }

  /** The newest seen block, or the last final one. */
  lemma LastOpen(headers: Hash -> Header, f: Forest, tip: Header, root: Root, open: seq<Entry>, abandoned: set<Hash>)
    requires Mirrors(headers, f, tip, open, abandoned) && Chained(tip, root, Transitions(open))
    ensures var last := HeaderAt(tip, Transitions(open), |open|);
            && headers(last.hash) == last && last.height == tip.height + |open|
            && (if open == [] then last.hash !in f.snap else last.hash in f.snap && IsSaved(f, last.hash))
  {
    TipUntracked(headers, f.parent, f.snap, f.group, tip, open, abandoned);
    if open != [] {
      assert Stored(headers, f.snap, f.group, open[|open| - 1]);
      assert Continues(tip, root, Transitions(open), |open| - 1);
    }
  }

  lemma FreshUnsaved(f: Forest)
    requires Inv(f) && f.latest + 1 < ID_LIMIT
    ensures Fresh(f) !in Saved(f.group)
  {
    FreshUnused(f);
    assert forall i :: i in Saved(f.group) ==> IsBlockId(f.snap, i);
  }

  /** The forest once the block of `e` is requested and its changes are saved. */
  ghost function WithBlock(f: Forest, e: Entry): Forest {
    var f1 := Grown(f, e.transition.header);
    f1.(group := Insert(f1.group, Fresh(f), e.changes))
  }

  lemma SavedValue(f: Forest, e: Entry)
    requires Fresh(f) !in Saved(f.group)
    ensures ChangesSaved(Grown(f, e.transition.header), e.transition.header, e.changes) == Ok(WithBlock(f, e))
    ensures Databases(WithBlock(f, e).group) == Databases(f.group)
  {
  }

  lemma SaveOk(f: Forest, e: Entry)
    requires Inv(f) && f.latest + 2 < ID_LIMIT
    requires var b := e.transition.header;
             && b.hash != b.prev && b.hash !in f.snap && b.hash !in f.children
             && (b.prev in f.snap ==> IsSaved(f, b.prev))
    ensures ChangesSaved(Grown(f, e.transition.header), e.transition.header, e.changes) == Ok(WithBlock(f, e))
    ensures Inv(WithBlock(f, e)) && Databases(WithBlock(f, e).group) == Databases(f.group)
  {
    GrownInv(f, e.transition.header);
    FreshUnsaved(f);
    SavedValue(f, e);
    SaveChangeSetInv(Grown(f, e.transition.header), e.transition.header, e.changes);
  }

  /** Saving the executed block succeeds, and the mirror grows by it. */
  lemma SaveNext(headers: Hash -> Header, f: Forest, tip: Header, root: Root, open: seq<Entry>, abandoned: set<Hash>,
                 e: Entry)
    requires Mirrors(headers, f, tip, open, abandoned) && Chained(tip, root, Transitions(open))
    requires IsNext(headers, f.snap, tip, open, e.transition.header) && f.latest + 2 < ID_LIMIT
    ensures ChangesSaved(Grown(f, e.transition.header), e.transition.header, e.changes) == Ok(WithBlock(f, e))
    ensures Mirrors(headers, WithBlock(f, e), tip, open + [e], abandoned)
    ensures Databases(WithBlock(f, e).group) == Databases(f.group)
  {
    var b := e.transition.header;
    NextBlock(headers, f, tip, root, open, abandoned, b);
    SaveOk(f, e);
    FreshUnsaved(f);
    GrowTracks(headers, f.parent, f.snap, f.group, tip, open, abandoned, e, Fresh(f));
  }

  ghost function Published(f: Forest, b: Hash): Forest {
    f.(latest := Fresh(f), links := f.links[Fresh(f) := IdOf(f, b)], dangled := f.dangled + {Fresh(f)})
  }

  /** The storage published after the newest seen block reads the whole seen chain replayed, through it. */
  lemma PublishNewest(headers: Hash -> Header, f: Forest, tip: Header, root: Root, open: seq<Entry>,
                      abandoned: set<Hash>)
    requires Mirrors(headers, f, tip, open, abandoned) && Chained(tip, root, Transitions(open)) && open != []
    requires f.latest + 1 < ID_LIMIT
    ensures var b := open[|open| - 1].transition.header; var f' := Published(f, b.hash);
            && StateAfter(f, b) == Ok(f') && Mirrors(headers, f', tip, open, abandoned)
            && View(f', f'.latest) == Replay(Databases(f'.group), open)
            && Below(f', f'.latest, b.hash)
  {
    var last := |open| - 1;
    var b := open[last].transition.header;
    assert Stored(headers, f.snap, f.group, open[last]);
    assert Continues(tip, root, Transitions(open), last);
    HashDiffers(headers, f, tip, root, open, abandoned);
    OpenReads(headers, f, tip, root, open, abandoned, last);
    assert open[..last + 1] == open;
    CreateStateAfterReads(f, b, 0);
  }

  lemma HashDiffers(headers: Hash -> Header, f: Forest, tip: Header, root: Root, open: seq<Entry>,
                    abandoned: set<Hash>)
    requires Mirrors(headers, f, tip, open, abandoned) && Chained(tip, root, Transitions(open)) && open != []
    ensures var b := open[|open| - 1].transition.header; b.hash != b.prev && IsSaved(f, b.hash)
  {
    var last := |open| - 1;
    OpenParent(headers, f.parent, f.snap, f.group, tip, root, open, abandoned, last);
    assert Stored(headers, f.snap, f.group, open[last]);
    assert Placed(headers, f.parent, f.snap, tip, HashOf(open[last]));
  }

  lemma {:induction false} FinalCountIs(ts: seq<Transition>, height: nat)
    ensures var n := FinalCount(ts, height);
            && (forall k :: 0 <= k < n ==> ts[k].header.height <= height)
            && (n < |ts| ==> ts[n].header.height > height)
  {
    if ts != [] && ts[0].header.height <= height {
      FinalCountIs(ts[1..], height);
      assert forall k :: 0 < k < |ts| ==> ts[k] == ts[1..][k - 1];
    }
  }

  /** Everything after the state transition function: the block is saved and published, and the blocks the
      DA layer made final are committed, without an error and without a visible change. */
  lemma ProcessSafe(headers: Hash -> Header, f: Forest, tip: Header, root: Root, open: seq<Entry>,
                    abandoned: set<Hash>, e: Entry, finalized: nat, m: Manager)
    requires Mirrors(headers, f, tip, open, abandoned) && f.latest + 2 < ID_LIMIT
    requires Chained(tip, root, Transitions(open)) && Chained(tip, root, Transitions(open + [e]))
    requires IsNext(headers, f.snap, tip, open, e.transition.header)
    requires m.storage == Grown(f, e.transition.header) && m.seen == Transitions(open)
    ensures var open', ts := open + [e], Transitions(open + [e]);
            var n, r := FinalCount(ts, finalized), Process(m, Executed(e.transition, e.changes, finalized));
            && r.Ok? && r.value.1 == ts[..n]
            && var m' := r.value.0;
            && m'.seen == ts[n..] && m'.root == e.transition.finalRoot && m'.ledger == m'.rpc
            && m'.rpc <= m'.storage.latest
            && Mirrors(headers, m'.storage, HeaderAt(tip, ts, n), open'[n..], abandoned)
            && Databases(m'.storage.group) == Replay(Databases(f.group), open'[..n])
            && View(m'.storage, m'.rpc) == Replay(Databases(f.group), open')
  {
    var open' := open + [e];
    var ts := Transitions(open');
    assert m.seen + [e.transition] == ts;
    var n := FinalCount(ts, finalized);
    SaveNext(headers, f, tip, root, open, abandoned, e);
    var saved := WithBlock(f, e);
    PublishNewest(headers, saved, tip, root, open', abandoned);
    var after := Published(saved, e.transition.header.hash);
    OpenInLine(headers, after, tip, root, open', abandoned);
    ReaderAboveAll(after, open', after.latest);
    SettleMany(headers, after, tip, root, open', abandoned, n, after.latest);
  }
}
