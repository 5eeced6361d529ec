/** The seen transitions form a chain, and a reorg keeps exactly the part the DA chain still has. */
module ReorgProofs {
  import opened Wrappers
  import opened Forest
  import opened Rollup

  /** The block and the state root right before entry `k` of a chain that starts above `tip`. */
  ghost function HeaderAt(tip: Header, ts: seq<Transition>, k: nat): Header
    requires k <= |ts|
  {
    if k == 0 then tip else ts[k - 1].header
  }

  ghost function RootAt(root: Root, ts: seq<Transition>, k: nat): Root
    requires k <= |ts|
  {
    if k == 0 then root else ts[k - 1].finalRoot
  }

  ghost predicate Follows(h: Header, root: Root, t: Transition) {
    t.header.prev == h.hash && t.header.height == h.height + 1 && t.initialRoot == root
  }

  ghost predicate Continues(tip: Header, root: Root, ts: seq<Transition>, k: nat)
    requires k < |ts|
  {
    Follows(HeaderAt(tip, ts, k), RootAt(root, ts, k), ts[k]) && ts[k].header.height == tip.height + 1 + k
  }

  /** Each transition continues the previous one: by hash, by height and by state root. */
  ghost predicate Chained(tip: Header, root: Root, ts: seq<Transition>) {
    forall k: nat {:trigger Continues(tip, root, ts, k)} :: k < |ts| ==> Continues(tip, root, ts, k)
  }

  ghost predicate OnChain(chain: Chain, t: Transition) {
    chain(t.header.height) == t.header
  }

  /** How many of the oldest transitions are on the chain. */
  ghost function Common(ts: seq<Transition>, chain: Chain): (n: nat)
    ensures n <= |ts|
  {
    if ts != [] && OnChain(chain, ts[0]) then 1 + Common(ts[1..], chain) else 0
  }

  lemma {:induction false} CommonIs(ts: seq<Transition>, chain: Chain, n: nat)
    requires n <= |ts| && (forall k {:trigger OnChain(chain, ts[k])} :: 0 <= k < n ==> OnChain(chain, ts[k]))
    requires n < |ts| ==> !OnChain(chain, ts[n])
    ensures Common(ts, chain) == n
  {
    if n > 0 {
      assert OnChain(chain, ts[0]);
      forall k | 0 <= k < n - 1 ensures OnChain(chain, ts[1..][k]) {
        assert ts[1..][k] == ts[k + 1];
      }
      CommonIs(ts[1..], chain, n - 1);
    }
  }

  /** The DA chain is linked far enough, and hashes determine headers on it and on the seen chain. */
  ghost predicate Agrees(headers: Hash -> Header, chain: Chain, tip: Header, ts: seq<Transition>) {
    && Canonical(chain, tip.height + |ts|)
    && headers(tip.hash) == tip
    && (forall h: nat :: h <= tip.height + |ts| ==> headers(chain(h).hash) == chain(h))
    && (forall k {:trigger ts[k].header} :: 0 <= k < |ts| ==> headers(ts[k].header.hash) == ts[k].header)
  }

  /** A transition's parent is on the chain exactly when the chain's block at its height has that parent. */
  lemma ParentOnChain(headers: Hash -> Header, chain: Chain, tip: Header, root: Root, ts: seq<Transition>, k: nat)
    requires Chained(tip, root, ts) && Agrees(headers, chain, tip, ts) && k < |ts|
    ensures chain(ts[k].header.height).prev == ts[k].header.prev <==>
            chain(HeaderAt(tip, ts, k).height) == HeaderAt(tip, ts, k)
  {
    var h := tip.height + k;
    assert Continues(tip, root, ts, k) && LinkedAt(chain, h);
    assert k > 0 ==> headers(ts[k - 1].header.hash) == ts[k - 1].header && Continues(tip, root, ts, k - 1);
    assert headers(chain(h).hash) == chain(h);
  }

  /** Everything before a transition on the chain is on the chain. */
  lemma {:induction false} PrefixOnChain(headers: Hash -> Header, chain: Chain, tip: Header, root: Root,
                                         ts: seq<Transition>, k: nat, j: nat)
    requires Chained(tip, root, ts) && Agrees(headers, chain, tip, ts)
    requires j < k <= |ts| && chain(HeaderAt(tip, ts, k).height) == HeaderAt(tip, ts, k)
    ensures OnChain(chain, ts[j])
    decreases k
  {
    if j < k - 1 {
      ParentOnChain(headers, chain, tip, root, ts, k - 1);
      PrefixOnChain(headers, chain, tip, root, ts, k - 1, j);
    }
  }

  lemma ShorterChain(headers: Hash -> Header, chain: Chain, tip: Header, root: Root, ts: seq<Transition>, n: nat)
    requires Chained(tip, root, ts) && Agrees(headers, chain, tip, ts) && n <= |ts|
    ensures Chained(tip, root, ts[..n]) && Agrees(headers, chain, tip, ts[..n])
  {
    forall k: nat | k < n ensures Continues(tip, root, ts[..n], k) {
      assert Continues(tip, root, ts, k);
    }
  }

  /** Rewinding a fork always meets the DA chain: it keeps exactly the longest prefix of seen transitions
      on that chain, resumes at the block right after it, and restores the root before that block. */
  lemma {:induction false} RewindKeepsCommonPrefix(headers: Hash -> Header, chain: Chain, tip: Header, root: Root,
                                                   ts: seq<Transition>)
    requires Chained(tip, root, ts) && Agrees(headers, chain, tip, ts) && chain(tip.height) == tip
    requires ts != [] && !OnChain(chain, ts[|ts| - 1])
    ensures var n := Common(ts, chain);
            n < |ts| && Rewind(ts, chain) == Ok(ForkPoint(ts[..n], chain(tip.height + 1 + n), RootAt(root, ts, n)))
    decreases |ts|
  {
    var last := |ts| - 1;
    var rest := ts[..last];
    ParentOnChain(headers, chain, tip, root, ts, last);
    assert Continues(tip, root, ts, last);
    if chain(ts[last].header.height).prev == ts[last].header.prev {
      forall j | 0 <= j < last ensures OnChain(chain, ts[j]) {
        PrefixOnChain(headers, chain, tip, root, ts, last, j);
      }
      CommonIs(ts, chain, last);
    } else {
      ShorterChain(headers, chain, tip, root, ts, last);
      RewindKeepsCommonPrefix(headers, chain, tip, root, rest);
      var n := Common(rest, chain);
      CommonPrefix(rest, ts, chain);
      assert rest[..n] == ts[..n];
    }
  }

  lemma {:induction false} CommonPrefix(rest: seq<Transition>, ts: seq<Transition>, chain: Chain)
    requires rest <= ts && Common(rest, chain) < |rest|
    ensures Common(ts, chain) == Common(rest, chain)
  {
    if OnChain(chain, rest[0]) {
      CommonPrefix(rest[1..], ts[1..], chain);
    }
  }

  /** The rewind gives up exactly when the DA chain no longer holds the block below all seen ones. */
  lemma {:induction false} RewindFailsIff(headers: Hash -> Header, chain: Chain, tip: Header, root: Root,
                                          ts: seq<Transition>)
    requires Chained(tip, root, ts) && Agrees(headers, chain, tip, ts)
    requires ts != [] && !OnChain(chain, ts[|ts| - 1])
    ensures Rewind(ts, chain).Err? <==> chain(tip.height) != tip
    decreases |ts|
  {
    var last := |ts| - 1;
    if chain(tip.height) == tip {
      RewindKeepsCommonPrefix(headers, chain, tip, root, ts);
    } else {
      ParentOnChain(headers, chain, tip, root, ts, last);
      assert !OnChain(chain, ts[0]) by {
        if OnChain(chain, ts[0]) {
          ParentOnChain(headers, chain, tip, root, ts, 0);
        }
      }
      if chain(HeaderAt(tip, ts, last).height) == HeaderAt(tip, ts, last) {
        PrefixOnChain(headers, chain, tip, root, ts, last, 0);
      } else if last > 0 {
        ShorterChain(headers, chain, tip, root, ts, last);
        RewindFailsIff(headers, chain, tip, root, ts[..last]);
      }
    }
  }

  /** The fetched block continues the last seen transition exactly when that transition is on the chain. */
  lemma ForkedIff(headers: Hash -> Header, chain: Chain, tip: Header, root: Root, ts: seq<Transition>)
    requires Chained(tip, root, ts) && Agrees(headers, chain, tip, ts) && LinkedAt(chain, tip.height + |ts|)
    ensures Forked(ts, chain(tip.height + |ts| + 1)) <==> ts != [] && !OnChain(chain, ts[|ts| - 1])
  {
    if ts != [] {
      assert Continues(tip, root, ts, |ts| - 1);
      var h := tip.height + |ts|;
      assert headers(chain(h).hash) == chain(h);
    }
  }

  lemma {:induction false} CommonMeans(ts: seq<Transition>, chain: Chain)
    ensures var n := Common(ts, chain);
            && (forall k {:trigger OnChain(chain, ts[k])} :: 0 <= k < n ==> OnChain(chain, ts[k]))
            && (n < |ts| ==> !OnChain(chain, ts[n]))
  {
    if ts != [] && OnChain(chain, ts[0]) {
      CommonMeans(ts[1..], chain);
      assert forall k :: 0 < k < |ts| ==> ts[k] == ts[1..][k - 1];
    }
  }

  lemma UnforkedOnChain(headers: Hash -> Header, chain: Chain, tip: Header, root: Root, ts: seq<Transition>)
    requires Chained(tip, root, ts) && Agrees(headers, chain, tip, ts)
    requires ts == [] || OnChain(chain, ts[|ts| - 1])
    ensures forall k {:trigger OnChain(chain, ts[k])} :: 0 <= k < |ts| ==> OnChain(chain, ts[k])
  {
    if ts != [] {
      forall j | 0 <= j < |ts| ensures OnChain(chain, ts[j]) {
        PrefixOnChain(headers, chain, tip, root, ts, |ts|, j);
      }
    }
  }

  /** The block right above what is kept continues it, and is none of the dropped ones. */
  lemma ResumesAbove(headers: Hash -> Header, chain: Chain, tip: Header, root: Root, ts: seq<Transition>, n: nat)
    requires Chained(tip, root, ts) && Agrees(headers, chain, tip, ts)
    requires n <= |ts| && chain(tip.height) == tip && LinkedAt(chain, tip.height + n)
    requires (n > 0 ==> OnChain(chain, ts[n - 1])) && (n < |ts| ==> !OnChain(chain, ts[n]))
    ensures var b := chain(tip.height + 1 + n);
            && b.prev == HeaderAt(tip, ts, n).hash
            && (forall k :: n <= k < |ts| ==> ts[k].header.hash != b.hash)
  {
    assert n > 0 ==> Continues(tip, root, ts, n - 1);
    forall k | n <= k < |ts| ensures ts[k].header.hash != chain(tip.height + 1 + n).hash {
      assert Continues(tip, root, ts, k);
      assert headers(ts[k].header.hash) == ts[k].header;
      assert n < |ts| ==> headers(chain(tip.height + 1 + n).hash) == chain(tip.height + 1 + n);
    }
  }
}
