/** What a run means: the chain that survives carries what execution returned, turn by turn, and every key reads as
    the last surviving turn that wrote it left it. */
module RunMeaning {
  import opened Wrappers
  import opened Basics
  import opened Containers
  import opened Forest
  import opened Rollup
  import opened ReorgProofs
  import opened TrackingProofs
  import opened RollupProofs
  import opened RunSafety

  // ----- one turn

  /** All entries above the origin: final ones first, then those seen. */
  ghost function History(s: Node): seq<Entry> {
    s.final + s.open
  }

  /** The entry holds what executing a block in the turn on `x` returned. */
  ghost predicate Records(e: Entry, x: Input) {
    e.transition.finalRoot == x.root && e.transition.slot == x.slot && e.changes == x.changes
  }

  lemma ProcessParts(m: Manager, x: Executed, n: nat)
    requires Process(m, x).Ok? && n == FinalCount(m.seen + [x.transition], x.finalized)
    ensures var (m', final) := Process(m, x).value;
            && m'.root == x.transition.finalRoot
            && final == (m.seen + [x.transition])[..n] && m'.seen == (m.seen + [x.transition])[n..]
  {
  }

  /** Processing ends in the root of the executed block, and splits the seen blocks and the executed one at the first
      block above the finalized height. */
  lemma ProcessRecords(m: Manager, x: Executed)
    requires Process(m, x).Ok?
    ensures var (m', final) := Process(m, x).value;
            && m'.root == x.transition.finalRoot
            && final + m'.seen == m.seen + [x.transition]
            && (forall t :: t in final ==> t.header.height <= x.finalized)
            && (m'.seen != [] ==> m'.seen[0].header.height > x.finalized)
  {
    var seen := m.seen + [x.transition];
    var n := FinalCount(seen, x.finalized);
    FinalCountIs(seen, x.finalized);
    ProcessParts(m, x, n);
    Regroup([], seen, n);
  }

  lemma StepParts(s: Node, x: Input) returns (p: Prepared, m: Manager, final: seq<Transition>)
    requires Step(s, x).Ok?
    ensures Prepare(s.manager, x.chain, x.chain(s.next)) == Ok(p)
    ensures Process(p.manager, Executed(Executing(p, x).transition, x.changes, x.finalized)) == Ok((m, final))
    ensures Step(s, x) == Ok(Assemble(s, x, p, m, |final|))
  {
    p := Prepare(s.manager, x.chain, x.chain(s.next)).value;
    m := Process(p.manager, Executed(Executing(p, x).transition, x.changes, x.finalized)).value.0;
    final := Process(p.manager, Executed(Executing(p, x).transition, x.changes, x.finalized)).value.1;
  }

  lemma AssembleRecords(s: Node, x: Input, p: Prepared, m: Manager, fin: nat, n: nat)
    requires n == Least(|p.manager.seen|, |s.open|)
    ensures var s' := Assemble(s, x, p, m, fin);
            && s'.manager == m && s'.next == p.block.height + 1 && s.final <= s'.final
            && History(s') == s.final + s.open[..n] + [Executing(p, x)]
  {
    Regroup(s.final, s.open[..n] + [Executing(p, x)], Least(fin, n + 1));
  }

  /** Of any node: a turn that succeeds ends in the root that execution returned, and puts one entry with all that
      execution returned on top of the entries it keeps. */
  lemma StepRecords(s: Node, x: Input) returns (n: nat, e: Entry)
    requires Step(s, x).Ok?
    ensures var s' := Step(s, x).value;
            && s'.manager.root == x.root && s'.next == e.transition.header.height + 1
            && n <= |s.open| && Records(e, x) && s.final <= s'.final
            && History(s') == s.final + s.open[..n] + [e]
  {
    var p, m, final := StepParts(s, x);
    n, e := Least(|p.manager.seen|, |s.open|), Executing(p, x);
    ProcessParts(p.manager, Executed(e.transition, x.changes, x.finalized),
                 FinalCount(p.manager.seen + [e.transition], x.finalized));
    AssembleRecords(s, x, p, m, |final|, n);
  }

  lemma Regroup<T>(a: seq<T>, b: seq<T>, n: nat)
    requires n <= |b|
    ensures (a + b[..n]) + b[n..] == a + b
  {
  }

  // ----- one turn of a sound node

  /** What `s'` finalized over `s` is at or below the height, and what is left open is above it. */
  ghost predicate FinalizedUpTo(s: Node, s': Node, height: nat) {
    && s.final <= s'.final
    && (forall k {:trigger s'.final[k]} :: |s.final| <= k < |s'.final| ==>
          s'.final[k].transition.header.height <= height)
    && (forall k {:trigger s'.open[k]} :: 0 <= k < |s'.open| ==> s'.open[k].transition.header.height > height)
  }

  lemma FinalHeights(before: seq<Entry>, open: seq<Entry>, final: seq<Transition>, rest: seq<Transition>, height: nat)
    requires Transitions(open) == final + rest && forall t :: t in final ==> t.header.height <= height
    ensures |final| <= |open|
    ensures forall k {:trigger (before + open[..|final|])[k]} :: |before| <= k < |before| + |final| ==>
              (before + open[..|final|])[k].transition.header.height <= height
  {
    assert |final + rest| == |open|;
    forall k | |before| <= k < |before| + |final|
      ensures (before + open[..|final|])[k].transition.header.height <= height
    {
      var j := k - |before|;
      assert Transitions(open)[j] == final[j] && final[j] in final;
    }
  }

  lemma NewlyFinal(s: Node, x: Input, p: Prepared, m: Manager, final: seq<Transition>, n: nat)
    requires n <= |s.open| && p.manager.seen == Transitions(s.open)[..n]
    requires final + m.seen == p.manager.seen + [Executing(p, x).transition]
    requires forall t :: t in final ==> t.header.height <= x.finalized
    ensures var s' := Assemble(s, x, p, m, |final|);
            && s.final <= s'.final
            && (forall k {:trigger s'.final[k]} :: |s.final| <= k < |s'.final| ==>
                  s'.final[k].transition.header.height <= x.finalized)
  {
    var open := s.open[..n] + [Executing(p, x)];
    assert Transitions(open) == final + m.seen;
    FinalHeights(s.final, open, final, m.seen, x.finalized);
  }

  lemma StillOpen(headers: Hash -> Header, o: Origin, s: Node, height: nat)
    requires RunInv(headers, o, s) && (s.manager.seen != [] ==> s.manager.seen[0].header.height > height)
    ensures forall k {:trigger s.open[k]} :: 0 <= k < |s.open| ==> s.open[k].transition.header.height > height
  {
    var ts, tip, root := Transitions(s.open), TipOf(o, s.final), TipRoot(o, s.final);
    forall k | 0 <= k < |s.open| ensures s.open[k].transition.header.height > height {
      assert Continues(tip, root, ts, k) && Continues(tip, root, ts, 0);
    }
  }

  /** The halves of a turn of a sound node. */
  lemma TurnHalves(headers: Hash -> Header, o: Origin, s: Node, x: Input)
    returns (n: nat, p: Prepared, m: Manager, final: seq<Transition>)
    requires RunInv(headers, o, s) && Env(headers, s, x) && Step(s, x).Ok?
    ensures n <= |s.open| && KeepsExactly(x.chain, Transitions(s.open), n)
    ensures p.manager.seen == Transitions(s.open)[..n] && x.chain(p.block.height) == p.block
    ensures Process(p.manager, Executed(Executing(p, x).transition, x.changes, x.finalized)) == Ok((m, final))
    ensures Step(s, x) == Ok(Assemble(s, x, p, m, |final|)) && RunInv(headers, o, Assemble(s, x, p, m, |final|))
  {
    var b: Header;
    n, b := StepOkIff(headers, o, s, x);
    var q := PrepareSafe(headers, o, s, x, n, b);
    p, m, final := StepParts(s, x);
  }

  /** The newest entry of a sound history continues those below it, from the root they left. */
  lemma EntryContinues(headers: Hash -> Header, o: Origin, s: Node, below: seq<Entry>, e: Entry)
    requires RunInv(headers, o, s) && below + [e] == History(s)
    ensures Follows(HeaderAt(o.header, Transitions(below), |below|), RootAt(o.root, Transitions(below), |below|),
                    e.transition)
    ensures e.transition.header.height == o.header.height + 1 + |below|
  {
    OneChain(headers, o, s);
    assert Continues(o.header, o.root, Transitions(History(s)), |below|);
    assert forall k :: 0 <= k < |below| ==> History(s)[k] == below[k];
  }

  /** From `s` to `s'`: the `n` oldest seen blocks are kept, exactly those on the DA chain of `x`. On top of them `e`
      records the DA block right above, executed from the root they left, with all that execution returned. The node
      ends in the root that execution returned, and final is what is at or below the reported height. */
  ghost predicate Recorded(o: Origin, s: Node, x: Input, s': Node, n: nat, e: Entry) {
    && KeepsExactly(x.chain, Transitions(s.open), n) && n <= |s.open|
    && var below := s.final + s.open[..n];
    && History(s') == below + [e] && Records(e, x) && OnChain(x.chain, e.transition)
    && Follows(HeaderAt(o.header, Transitions(below), |below|), RootAt(o.root, Transitions(below), |below|),
               e.transition)
    && s'.manager.root == x.root && s'.next == o.header.height + 2 + |below|
    && FinalizedUpTo(s, s', x.finalized)
  }

  lemma TurnRecords(headers: Hash -> Header, o: Origin, s: Node, x: Input) returns (n: nat, e: Entry)
    requires RunInv(headers, o, s) && Env(headers, s, x) && Step(s, x).Ok?
    ensures Recorded(o, s, x, Step(s, x).value, n, e)
  {
    var p, m, final;
    n, p, m, final := TurnHalves(headers, o, s, x);
    e := Executing(p, x);
    AssembleRecords(s, x, p, m, |final|, n);
    ProcessRecords(p.manager, Executed(e.transition, x.changes, x.finalized));
    NewlyFinal(s, x, p, m, final, n);
    var s' := Assemble(s, x, p, m, |final|);
    StillOpen(headers, o, s', x.finalized);
    EntryContinues(headers, o, s', s.final + s.open[..n], e);
  }

  // ----- whole runs

  /** The entries are what the turns `turns` of a run on `xs` executed, in order. */
  ghost predicate Produced(entries: seq<Entry>, xs: seq<Input>, turns: seq<nat>) {
    && |turns| == |entries|
    && (forall k {:trigger turns[k]} :: 0 <= k < |turns| ==> turns[k] < |xs| && Records(entries[k], xs[turns[k]]))
    && (forall j, k {:trigger turns[j], turns[k]} :: 0 <= j < k < |turns| ==> turns[j] < turns[k])
  }

  /** Of the old history the `n` oldest entries survive a run on `xs`, and above them stands what `turns` executed. */
  ghost predicate Survive(was: seq<Entry>, now: seq<Entry>, xs: seq<Input>, n: nat, turns: seq<nat>) {
    n <= |was| && n <= |now| && now[..n] == was[..n] && Produced(now[n..], xs, turns)
  }

  /** The same turns, one turn later. */
  ghost function Delayed(turns: seq<nat>): (r: seq<nat>)
    ensures |r| == |turns| && forall k {:trigger r[k]} :: 0 <= k < |r| ==> r[k] == turns[k] + 1
  {
    seq(|turns|, k requires 0 <= k < |turns| => turns[k] + 1)
  }

  lemma ProducedLater(entries: seq<Entry>, xs: seq<Input>, turns: seq<nat>)
    requires xs != [] && Produced(entries, xs[1..], turns)
    ensures Produced(entries, xs, Delayed(turns))
  {
    forall k | 0 <= k < |turns| ensures Delayed(turns)[k] < |xs| && Records(entries[k], xs[Delayed(turns)[k]]) {
      assert turns[k] < |xs[1..]| && xs[1..][turns[k]] == xs[turns[k] + 1];
    }
  }

  /** The entry of the first turn is still there. */
  lemma ProducedFirst(e: Entry, entries: seq<Entry>, xs: seq<Input>, turns: seq<nat>)
    requires xs != [] && Records(e, xs[0]) && Produced(entries, xs[1..], turns)
    ensures Produced([e] + entries, xs, [0] + Delayed(turns))
  {
    ProducedLater(entries, xs, turns);
    var all, later := [0] + Delayed(turns), Delayed(turns);
    forall k | 0 <= k < |all| ensures all[k] < |xs| && Records(([e] + entries)[k], xs[all[k]]) {
      assert k > 0 ==> all[k] == later[k - 1];
    }
    forall j, k | 0 <= j < k < |all| ensures all[j] < all[k] {
      assert all[k] == later[k - 1] && (j > 0 ==> all[j] == later[j - 1]);
    }
  }

  lemma SurviveOneMore(was: seq<Entry>, mid: seq<Entry>, now: seq<Entry>, xs: seq<Input>, m: nat, e: Entry, n: nat,
                       turns: seq<nat>)
    returns (n': nat, turns': seq<nat>)
    requires m <= |was| && mid == was[..m] + [e] && xs != [] && Records(e, xs[0])
    requires Survive(mid, now, xs[1..], n, turns)
    ensures Survive(was, now, xs, n', turns') && n' == Least(n, m)
    ensures turns != [] ==> turns' != [] && turns'[|turns'| - 1] == turns[|turns| - 1] + 1
    ensures n == m + 1 && turns == [] ==> turns' == [0]
  {
    if n <= m {
      n', turns' := n, Delayed(turns);
      assert now[..n] == mid[..n] == was[..n];
      ProducedLater(now[n..], xs, turns);
    } else {
      n', turns' := m, [0] + Delayed(turns);
      assert now[..n] == mid[..n];
      assert now[..m] == now[..n][..m] == mid[..m] == was[..m];
      assert now[m] == now[..n][m] == e;
      assert now[m..] == [e] + now[n..];
      ProducedFirst(e, now[n..], xs, turns);
    }
  }

  /** What a run leaves: of the history before it the `n` oldest entries, all final ones among them, and above these,
      entry by entry, what the turns named by `turns` returned. The last turn is among them. */
  ghost predicate RunRecorded(s: Node, xs: seq<Input>, s': Node, n: nat, turns: seq<nat>) {
    && Survive(History(s), History(s'), xs, n, turns) && |s.final| <= n
    && (if xs == [] then turns == [] && s' == s
        else
          && turns != [] && turns[|turns| - 1] == |xs| - 1
          && s'.manager.root == xs[|xs| - 1].root)
  }

  lemma OneTurnMore(s: Node, mid: Node, s': Node, xs: seq<Input>, m: nat, e: Entry, n: nat, turns: seq<nat>)
    returns (n': nat, turns': seq<nat>)
    requires xs != [] && m <= |s.open| && Records(e, xs[0]) && s.final <= mid.final && mid.manager.root == xs[0].root
    requires History(mid) == s.final + s.open[..m] + [e] && RunRecorded(mid, xs[1..], s', n, turns)
    ensures RunRecorded(s, xs, s', n', turns')
  {
    assert s.final + s.open[..m] == History(s)[..|s.final| + m];
    n', turns' := SurviveOneMore(History(s), History(mid), History(s'), xs, |s.final| + m, e, n, turns);
    if |xs| == 1 {
      assert History(s')[n..] == [] && n == |s.final| + m + 1;
    }
  }

  lemma {:induction false} RunRecords(s: Node, xs: seq<Input>) returns (n: nat, turns: seq<nat>)
    requires Run(s, xs).Ok?
    ensures RunRecorded(s, xs, Run(s, xs).value, n, turns)
    decreases |xs|
  {
    if xs == [] {
      n, turns := |History(s)|, [];
    } else {
      var m, e := StepRecords(s, xs[0]);
      var mid := Step(s, xs[0]).value;
      n, turns := RunRecords(mid, xs[1..]);
      n, turns := OneTurnMore(s, mid, Run(s, xs).value, xs, m, e, n, turns);
    }
  }

  // ----- what a key reads

  lemma {:induction false} ReplayIsLast(dbs: Group<Table>, entries: seq<Entry>, kind: Kind, key: Key, k: nat)
    requires k < |entries| && key in Of(entries[k].changes, kind)
    requires forall m :: k < m < |entries| ==> key !in Of(entries[m].changes, kind)
    ensures Lookup(Of(Replay(dbs, entries), kind), key) == Of(entries[k].changes, kind)[key]
  {
    var last := |entries| - 1;
    AllWritten(Replay(dbs, entries[..last]), entries[last].changes);
    if k < last {
      ReplayIsLast(dbs, entries[..last], kind, key, k);
    }
  }

  lemma {:induction false} ReplayIsDatabase(dbs: Group<Table>, entries: seq<Entry>, kind: Kind, key: Key)
    requires forall m :: 0 <= m < |entries| ==> key !in Of(entries[m].changes, kind)
    ensures Lookup(Of(Replay(dbs, entries), kind), key) == Lookup(Of(dbs, kind), key)
  {
    if entries != [] {
      var last := |entries| - 1;
      AllWritten(Replay(dbs, entries[..last]), entries[last].changes);
      ReplayIsDatabase(dbs, entries[..last], kind, key);
    }
  }

  ghost predicate Wrote(xs: seq<Input>, turn: nat, kind: Kind, key: Key) {
    turn < |xs| && key in Of(xs[turn].changes, kind)
  }

  /** The turns from position `k` on do not write the key. */
  ghost predicate Silent(xs: seq<Input>, turns: seq<nat>, kind: Kind, key: Key, k: nat) {
    forall m {:trigger Wrote(xs, turns[m], kind, key)} :: k <= m < |turns| ==> !Wrote(xs, turns[m], kind, key)
  }

  /** The turn at position `k` is the last that wrote the key. */
  ghost predicate WroteLast(xs: seq<Input>, turns: seq<nat>, kind: Kind, key: Key, k: nat) {
    k < |turns| && Wrote(xs, turns[k], kind, key) && Silent(xs, turns, kind, key, k + 1)
  }

  /** What the last of the turns that wrote the key left, or the database's value if none did. */
  ghost predicate ReadAs(dbs: Group<Table>, xs: seq<Input>, turns: seq<nat>, kind: Kind, key: Key, v: Option<Value>) {
    && (forall k: nat {:trigger WroteLast(xs, turns, kind, key, k)} ::
          WroteLast(xs, turns, kind, key, k) ==> v == Of(xs[turns[k]].changes, kind)[key])
    && (Silent(xs, turns, kind, key, 0) ==> v == Lookup(Of(dbs, kind), key))
  }

  lemma SilentEntries(entries: seq<Entry>, xs: seq<Input>, turns: seq<nat>, kind: Kind, key: Key, k: nat)
    requires Produced(entries, xs, turns) && Silent(xs, turns, kind, key, k)
    ensures forall m :: k <= m < |entries| ==> key !in Of(entries[m].changes, kind)
  {
    forall m | k <= m < |entries| ensures key !in Of(entries[m].changes, kind) {
      assert turns[m] < |xs| && !Wrote(xs, turns[m], kind, key);
    }
  }

  lemma HistoryReads(dbs: Group<Table>, entries: seq<Entry>, xs: seq<Input>, turns: seq<nat>, kind: Kind, key: Key)
    requires Produced(entries, xs, turns)
    ensures ReadAs(dbs, xs, turns, kind, key, Lookup(Of(Replay(dbs, entries), kind), key))
  {
    forall k: nat | WroteLast(xs, turns, kind, key, k)
      ensures Lookup(Of(Replay(dbs, entries), kind), key) == Of(xs[turns[k]].changes, kind)[key]
    {
      SilentEntries(entries, xs, turns, kind, key, k + 1);
      ReplayIsLast(dbs, entries, kind, key, k);
    }
    if Silent(xs, turns, kind, key, 0) {
      SilentEntries(entries, xs, turns, kind, key, 0);
      ReplayIsDatabase(dbs, entries, kind, key);
    }
  }

  lemma WholeHistory(s: Node, xs: seq<Input>, s': Node, n: nat, turns: seq<nat>)
    requires History(s) == [] && RunRecorded(s, xs, s', n, turns)
    ensures Produced(History(s'), xs, turns)
  {
    assert History(s')[n..] == History(s');
  }

  /** End to end, from any start: after a run, in each container, RPC endpoints and ledger read a key as the last
      surviving turn that wrote it left it, absent if that turn deleted it, and as it was before the run if no
      surviving turn wrote it. */
  lemma ReadsLastWrite(headers: Hash -> Header, o: Origin, s: Node, xs: seq<Input>, kind: Kind, key: Key)
    returns (turns: seq<nat>)
    requires RunInv(headers, o, s) && History(s) == [] && EnvAll(headers, s, xs) && Run(s, xs).Ok?
    ensures var s' := Run(s, xs).value;
            && Produced(History(s'), xs, turns)
            && ReadAs(o.dbs, xs, turns, kind, key, Lookup(Of(View(s'.manager.storage, s'.manager.rpc), kind), key))
            && ReadAs(o.dbs, xs, turns, kind, key, Lookup(Of(View(s'.manager.storage, s'.manager.ledger), kind), key))
  {
    var n;
    n, turns := RunRecords(s, xs);
    var s' := Run(s, xs).value;
    WholeHistory(s, xs, s', n, turns);
    RunSound(headers, o, s, xs);
    RpcReads(headers, o, s');
    HistoryReads(o.dbs, History(s'), xs, turns, kind, key);
  }
}
