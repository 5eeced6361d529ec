/** The three snapshot containers (state, accessory, ledger) that sit above the databases.
    A container holds a committed database and the change sets saved above it; the pointers from a
    snapshot to its parent are shared by all three. */
module Containers {
  import opened Wrappers

  type SnapshotId = nat
  type Key = nat
  type Value = nat
  type Table = map<Key, Value>

  /** `None` is a deletion. */
  type ChangeSet = map<Key, Option<Value>>

  /** The parent pointer of each snapshot that does not read straight from the database. */
  type Links = map<SnapshotId, SnapshotId>

  /** What a reader sees once `changes` are written above `base`. */
  function Overlay(base: Table, changes: ChangeSet): Table {
    map k | k in base.Keys + changes.Keys && (k in changes ==> changes[k].Some?) ::
      if k in changes then changes[k].value else base[k]
  }

  function Lookup(t: Table, key: Key): Option<Value> {
    if key in t then Some(t[key]) else None
  }

  /** What a write decides: the value it names, absence if it deletes, and otherwise nothing changes. */
  lemma OverlayIs(base: Table, changes: ChangeSet, key: Key)
    ensures Lookup(Overlay(base, changes), key) == if key in changes then changes[key] else Lookup(base, key)
  {
  }

  /** One value per container. */
  datatype Group<+T> = Group(state: T, accessory: T, ledger: T)

  /** Which of the three containers. */
  datatype Kind = OfState | OfAccessory | OfLedger

  function Of<T>(g: Group<T>, kind: Kind): T {
    match kind
    case OfState => g.state
    case OfAccessory => g.accessory
    case OfLedger => g.ledger
  }

  function OverlayAll(base: Group<Table>, changes: Group<ChangeSet>): Group<Table> {
    Group(Overlay(base.state, changes.state),
          Overlay(base.accessory, changes.accessory),
          Overlay(base.ledger, changes.ledger))
  }

  /** In each container, the keys that `changes` mention are as it says, and all others as they were. */
  ghost predicate Written(base: Group<Table>, changes: Group<ChangeSet>, result: Group<Table>) {
    forall kind, key {:trigger Lookup(Of(result, kind), key)} ::
      Lookup(Of(result, kind), key) ==
      if key in Of(changes, kind) then Of(changes, kind)[key] else Lookup(Of(base, kind), key)
  }

  lemma AllWritten(base: Group<Table>, changes: Group<ChangeSet>)
    ensures Written(base, changes, OverlayAll(base, changes))
  {
    var result := OverlayAll(base, changes);
    forall kind, key
      ensures Lookup(Of(result, kind), key) ==
              if key in Of(changes, kind) then Of(changes, kind)[key] else Lookup(Of(base, kind), key)
    {
      OverlayIs(Of(base, kind), Of(changes, kind), key);
      assert Of(result, kind) == Overlay(Of(base, kind), Of(changes, kind));
    }
  }

  datatype Container = Container(db: Table, snapshots: map<SnapshotId, ChangeSet>) {

    /** Every pointer leads to an older snapshot that is still held here. */
    ghost predicate Resolves(links: Links) {
      forall i :: i in links ==> links[i] < i && links[i] in snapshots
    }

    ghost function Changes(id: SnapshotId): ChangeSet {
      if id in snapshots then snapshots[id] else map[]
    }

    /** The table a reader of snapshot `id` sees: saved change sets along the pointers, oldest first,
        above the database. */
    ghost function View(links: Links, id: SnapshotId): Table
      decreases id
    {
      if id in links && links[id] < id then Overlay(View(links, links[id]), Changes(links[id])) else db
    }
  }

  /** Following pointers from `i` leads to `t`. */
  ghost predicate Reaches(links: Links, i: SnapshotId, t: SnapshotId)
    decreases i
  {
    i in links && (links[i] == t || (links[i] < i && Reaches(links, links[i], t)))
  }

  /** Pointers that neither start nor end at one of `ids`. */
  ghost function Unlinked(links: Links, ids: set<SnapshotId>): Links {
    map i | i in links && i !in ids && links[i] !in ids :: links[i]
  }

  /** Committing everything below and including `t`, and dropping `ids` with `t` among them, does not
      change what a reader above `t` sees, provided no snapshot above `t` is dropped. */
  lemma {:induction false} CommitKeepsView(c: Container, links: Links, ids: set<SnapshotId>, t: SnapshotId,
                                           i: SnapshotId)
    requires c.Resolves(links) && t in ids
    requires forall j :: Reaches(links, j, t) ==> j !in ids
    requires Reaches(links, i, t)
    ensures var c' := Container(Overlay(c.View(links, t), c.Changes(t)), c.snapshots - ids);
            c'.View(Unlinked(links, ids), i) == c.View(links, i)
    decreases i
  {
    if links[i] != t {
      CommitKeepsView(c, links, ids, t, links[i]);
    }
  }

  lemma {:induction false} ReachesTransitive(links: Links, i: SnapshotId, t: SnapshotId, u: SnapshotId)
    requires Reaches(links, i, t) && Reaches(links, t, u)
    requires forall j :: j in links ==> links[j] < j
    ensures Reaches(links, i, u)
    decreases i
  {
    if links[i] != t {
      ReachesTransitive(links, links[i], t, u);
    }
  }

  /** Pointers above `t` survive when no snapshot above `t` is dropped. */
  lemma {:induction false} ReachesKept(links: Links, ids: set<SnapshotId>, i: SnapshotId, u: SnapshotId, t: SnapshotId)
    requires forall j :: j in links ==> links[j] < j
    requires forall j :: Reaches(links, j, t) ==> j !in ids
    requires Reaches(links, i, u) && Reaches(links, u, t)
    ensures Reaches(Unlinked(links, ids), i, u)
    decreases i
  {
    ReachesTransitive(links, i, u, t);
    if links[i] != u {
      ReachesKept(links, ids, links[i], u, t);
      ReachesTransitive(links, links[i], u, t);
    }
  }

  ghost predicate Steps(links: Links, ids: seq<SnapshotId>, m: nat)
    requires 1 <= m < |ids|
  {
    ids[m] in links && links[ids[m]] == ids[m - 1]
  }

  lemma {:induction false} StepsReach(links: Links, ids: seq<SnapshotId>, k: nat, j: nat)
    requires forall i :: i in links ==> links[i] < i
    requires forall m: nat {:trigger Steps(links, ids, m)} :: 1 <= m < |ids| ==> Steps(links, ids, m)
    requires j < k < |ids|
    ensures Reaches(links, ids[k], ids[j])
    decreases k
  {
    assert Steps(links, ids, k);
    if j < k - 1 {
      StepsReach(links, ids, k - 1, j);
    }
  }

  /** Whoever reaches the newest of a line of snapshots reaches all of them. */
  lemma LineReached(links: Links, ids: seq<SnapshotId>, i: SnapshotId, k: nat)
    requires forall i :: i in links ==> links[i] < i
    requires forall m: nat {:trigger Steps(links, ids, m)} :: 1 <= m < |ids| ==> Steps(links, ids, m)
    requires k < |ids| && Reaches(links, i, ids[|ids| - 1])
    ensures Reaches(links, i, ids[k])
  {
    if k < |ids| - 1 {
      StepsReach(links, ids, |ids| - 1, k);
      ReachesTransitive(links, i, ids[|ids| - 1], ids[k]);
    }
  }

  // ----- the value of a key

  /** Of the change sets that `i` reads through, that of `j` is the nearest that mentions the key. */
  ghost predicate Nearest(c: Container, links: Links, i: SnapshotId, key: Key, j: SnapshotId) {
    && Reaches(links, i, j) && key in c.Changes(j)
    && forall u :: Reaches(links, i, u) && Reaches(links, u, j) ==> key !in c.Changes(u)
  }

  /** No change set that `i` reads through mentions the key. */
  ghost predicate Unmentioned(c: Container, links: Links, i: SnapshotId, key: Key) {
    forall u :: Reaches(links, i, u) ==> key !in c.Changes(u)
  }

  /** The nearest change set that mentions a key decides what is read: its value, or absence if it deletes the key. */
  lemma {:induction false} ViewIsNearest(c: Container, links: Links, i: SnapshotId, key: Key, j: SnapshotId)
    requires c.Resolves(links) && Nearest(c, links, i, key, j)
    ensures Lookup(c.View(links, i), key) == c.Changes(j)[key]
    decreases i
  {
    var parent := links[i];
    OverlayIs(c.View(links, parent), c.Changes(parent), key);
    if parent != j {
      assert Reaches(links, i, parent);
      forall u | Reaches(links, parent, u) ensures Reaches(links, i, u) {
      }
      ViewIsNearest(c, links, parent, key, j);
    }
  }

  /** A key that no change set on the way mentions is read from the database. */
  lemma {:induction false} ViewIsDatabase(c: Container, links: Links, i: SnapshotId, key: Key)
    requires c.Resolves(links) && Unmentioned(c, links, i, key)
    ensures Lookup(c.View(links, i), key) == Lookup(c.db, key)
    decreases i
  {
    if i in links {
      var parent := links[i];
      OverlayIs(c.View(links, parent), c.Changes(parent), key);
      assert Reaches(links, i, parent);
      forall u | Reaches(links, parent, u) ensures Reaches(links, i, u) {
      }
      ViewIsDatabase(c, links, parent, key);
    }
  }

  /** One of the two cases holds. */
  lemma {:induction false} SomeNearest(c: Container, links: Links, i: SnapshotId, key: Key)
    returns (j: Option<SnapshotId>)
    requires c.Resolves(links)
    ensures if j.Some? then Nearest(c, links, i, key, j.value) else Unmentioned(c, links, i, key)
    decreases i
  {
    if i !in links {
      j := None;
    } else if key in c.Changes(links[i]) {
      j := Some(links[i]);
      forall u ensures !(Reaches(links, i, u) && Reaches(links, u, links[i])) {
        NothingBetween(links, i, u);
      }
    } else {
      j := SomeNearest(c, links, links[i], key);
    }
  }

  lemma {:induction false} ReachesSmaller(links: Links, i: SnapshotId, t: SnapshotId)
    requires (forall j :: j in links ==> links[j] < j) && Reaches(links, i, t)
    ensures t <= links[i] < i
    decreases i
  {
    if links[i] != t {
      ReachesSmaller(links, links[i], t);
    }
  }

  lemma NothingBetween(links: Links, i: SnapshotId, u: SnapshotId)
    requires (forall j :: j in links ==> links[j] < j) && i in links
    ensures !(Reaches(links, i, u) && Reaches(links, u, links[i]))
  {
    if Reaches(links, i, u) && Reaches(links, u, links[i]) {
      ReachesSmaller(links, u, links[i]);
      ReachesSmaller(links, i, u);
      assert false;
    }
  }

  /** A read: the walk stops at the first change set that mentions the key. No pointer is broken, so it
      ends, and it finds what the view holds. */
  method Read(c: Container, links: Links, id: SnapshotId, key: Key) returns (v: Option<Value>)
    requires c.Resolves(links)
    ensures v == Lookup(c.View(links, id), key)
    ensures forall j :: Nearest(c, links, id, key, j) ==> v == c.Changes(j)[key]
    ensures Unmentioned(c, links, id, key) ==> v == Lookup(c.db, key)
  {
    v := Walk(c, links, id, key);
    forall j | Nearest(c, links, id, key, j) ensures v == c.Changes(j)[key] {
      ViewIsNearest(c, links, id, key, j);
    }
    if Unmentioned(c, links, id, key) {
      ViewIsDatabase(c, links, id, key);
    }
  }

  method Walk(c: Container, links: Links, id: SnapshotId, key: Key) returns (v: Option<Value>)
    requires c.Resolves(links)
    ensures v == Lookup(c.View(links, id), key)
  {
    var current := id;
    while current in links
      invariant Lookup(c.View(links, id), key) == Lookup(c.View(links, current), key)
      decreases current
    {
      OverlayIs(c.View(links, links[current]), c.Changes(links[current]), key);
      current := links[current];
      if key in c.snapshots[current] {
        return c.snapshots[current][key];
      }
    }
    return Lookup(c.db, key);
  }

  /** The containers hold change sets for the same snapshots. */
  ghost predicate Aligned(g: Group<Container>) {
    g.state.snapshots.Keys == g.accessory.snapshots.Keys == g.ledger.snapshots.Keys
  }

  /** Every pointer leads to a smaller id whose change set is saved in each container. */
  ghost predicate ResolvesAll(g: Group<Container>, links: Links) {
    g.state.Resolves(links) && g.accessory.Resolves(links) && g.ledger.Resolves(links)
  }

  /** What snapshot `id` reads in each container. */
  ghost function Views(g: Group<Container>, links: Links, id: SnapshotId): Group<Table> {
    Group(g.state.View(links, id), g.accessory.View(links, id), g.ledger.View(links, id))
  }

  ghost function Databases(g: Group<Container>): Group<Table> {
    Group(g.state.db, g.accessory.db, g.ledger.db)
  }

  ghost function Saved(g: Group<Container>): set<SnapshotId> {
    g.state.snapshots.Keys
  }

  ghost function ChangesOf(g: Group<Container>, id: SnapshotId): Group<ChangeSet> {
    Group(g.state.Changes(id), g.accessory.Changes(id), g.ledger.Changes(id))
  }

  /** The group with databases `dbs` and without the snapshots in `gone`. */
  ghost function Settle(g: Group<Container>, dbs: Group<Table>, gone: set<SnapshotId>): Group<Container> {
    Group(Container(dbs.state, g.state.snapshots - gone),
          Container(dbs.accessory, g.accessory.snapshots - gone),
          Container(dbs.ledger, g.ledger.snapshots - gone))
  }

  /** The group with the change sets `cs` saved under `id`. */
  ghost function Insert(g: Group<Container>, id: SnapshotId, cs: Group<ChangeSet>): Group<Container> {
    Group(Container(g.state.db, g.state.snapshots[id := cs.state]),
          Container(g.accessory.db, g.accessory.snapshots[id := cs.accessory]),
          Container(g.ledger.db, g.ledger.snapshots[id := cs.ledger]))
  }

  lemma InsertFacts(g: Group<Container>, links: Links, id: SnapshotId, cs: Group<ChangeSet>)
    requires Aligned(g) && ResolvesAll(g, links)
    ensures Aligned(Insert(g, id, cs)) && Saved(Insert(g, id, cs)) == Saved(g) + {id}
    ensures ResolvesAll(Insert(g, id, cs), links)
  {
  }

  lemma {:induction false} InsertKeepsView(c: Container, links: Links, id: SnapshotId, cs: ChangeSet, i: SnapshotId)
    requires c.Resolves(links) && id !in c.snapshots
    ensures c.(snapshots := c.snapshots[id := cs]).View(links, i) == c.View(links, i)
    decreases i
  {
    if i in links {
      InsertKeepsView(c, links, id, cs, links[i]);
    }
  }

  /** A newly saved change set is invisible to every snapshot that exists. */
  lemma InsertKeepsViews(g: Group<Container>, links: Links, id: SnapshotId, cs: Group<ChangeSet>, i: SnapshotId)
    requires Aligned(g) && ResolvesAll(g, links) && id !in Saved(g)
    ensures ResolvesAll(Insert(g, id, cs), links)
    ensures Views(Insert(g, id, cs), links, i) == Views(g, links, i)
  {
    InsertKeepsView(g.state, links, id, cs.state, i);
    InsertKeepsView(g.accessory, links, id, cs.accessory, i);
    InsertKeepsView(g.ledger, links, id, cs.ledger, i);
  }

  lemma LinkResolves(g: Group<Container>, links: Links, id: SnapshotId, target: SnapshotId)
    requires Aligned(g) && ResolvesAll(g, links) && target < id && target in Saved(g)
    ensures ResolvesAll(g, links[id := target])
  {
  }

  lemma {:induction false} LinkKeepsView(c: Container, links: Links, id: SnapshotId, target: SnapshotId, i: SnapshotId)
    requires c.Resolves(links) && target < id && target in c.snapshots && i < id
    ensures c.View(links[id := target], i) == c.View(links, i)
    decreases i
  {
    if i in links {
      LinkKeepsView(c, links, id, target, links[i]);
    }
  }

  /** A new pointer is invisible to older snapshots, and reads the target's result. */
  lemma LinkKeepsViews(g: Group<Container>, links: Links, id: SnapshotId, target: SnapshotId, i: SnapshotId)
    requires Aligned(g) && ResolvesAll(g, links) && target < id && target in Saved(g) && i < id
    ensures ResolvesAll(g, links[id := target])
    ensures Views(g, links[id := target], i) == Views(g, links, i)
    ensures Views(g, links[id := target], id) == OverlayAll(Views(g, links, target), ChangesOf(g, target))
  {
    forall j: SnapshotId | j < id
      ensures g.state.View(links[id := target], j) == g.state.View(links, j)
      ensures g.accessory.View(links[id := target], j) == g.accessory.View(links, j)
      ensures g.ledger.View(links[id := target], j) == g.ledger.View(links, j)
    {
      LinkKeepsView(g.state, links, id, target, j);
      LinkKeepsView(g.accessory, links, id, target, j);
      LinkKeepsView(g.ledger, links, id, target, j);
    }
  }

  lemma SettleFacts(g: Group<Container>, dbs: Group<Table>, gone: set<SnapshotId>)
    requires Aligned(g)
    ensures Aligned(Settle(g, dbs, gone)) && Saved(Settle(g, dbs, gone)) == Saved(g) - gone
  {
  }

  lemma SettleResolves(g: Group<Container>, links: Links, dbs: Group<Table>, gone: set<SnapshotId>)
    requires ResolvesAll(g, links)
    ensures ResolvesAll(Settle(g, dbs, gone), Unlinked(links, gone))
  {
  }

  /** The three containers, moved in lockstep. */
  class ContainerGroup {
    var state: Container
    var accessory: Container
    var ledger: Container

    ghost function Model(): Group<Container>
      reads this
    {
      Group(state, accessory, ledger)
    }

    constructor (dbs: Group<Table>)
      ensures Databases(Model()) == dbs && Saved(Model()) == {} && Aligned(Model())
    {
      state := Container(dbs.state, map[]);
      accessory := Container(dbs.accessory, map[]);
      ledger := Container(dbs.ledger, map[]);
    }

    /** The discrepancy assertion of the source is the `assert` below. */
    method ContainsSnapshot(id: SnapshotId) returns (found: bool)
      requires Aligned(Model())
      ensures found == (id in Saved(Model()))
    {
      var inState, inAccessory, inLedger :=
        id in state.snapshots, id in accessory.snapshots, id in ledger.snapshots;
      assert inState == inAccessory == inLedger;
      return inState;
    }

    /** All three change sets are stored, or the id was taken already and none is. */
    method AddSnapshot(id: SnapshotId, cs: Group<ChangeSet>) returns (ok: bool)
      requires Aligned(Model())
      modifies this
      ensures ok == (id !in Saved(old(Model())))
      ensures Model() == if ok then Insert(old(Model()), id, cs) else old(Model())
      ensures Aligned(Model())
    {
      if id in state.snapshots {
        return false;
      }
      state := state.(snapshots := state.snapshots[id := cs.state]);
      if id in accessory.snapshots {
        return false;
      }
      accessory := accessory.(snapshots := accessory.snapshots[id := cs.accessory]);
      if id in ledger.snapshots {
        return false;
      }
      ledger := ledger.(snapshots := ledger.snapshots[id := cs.ledger]);
      return true;
    }

    method CommitSnapshot(id: SnapshotId)
      requires Aligned(Model()) && id in Saved(Model())
      modifies this
      ensures Model() == Settle(old(Model()),
                                OverlayAll(Databases(old(Model())), ChangesOf(old(Model()), id)), {id})
      ensures Aligned(Model())
      ensures Written(Databases(old(Model())), ChangesOf(old(Model()), id), Databases(Model()))
    {
      AllWritten(Databases(Model()), ChangesOf(Model(), id));
      state := Container(Overlay(state.db, state.snapshots[id]), state.snapshots - {id});
      accessory := Container(Overlay(accessory.db, accessory.snapshots[id]), accessory.snapshots - {id});
      ledger := Container(Overlay(ledger.db, ledger.snapshots[id]), ledger.snapshots - {id});
    }

    method DiscardSnapshot(id: SnapshotId) returns (discarded: bool)
      requires Aligned(Model())
      modifies this
      ensures discarded == (id in Saved(old(Model())))
      ensures Model() == Settle(old(Model()), Databases(old(Model())), {id})
      ensures Aligned(Model())
    {
      var inState, inAccessory, inLedger :=
        id in state.snapshots, id in accessory.snapshots, id in ledger.snapshots;
      state := state.(snapshots := state.snapshots - {id});
      accessory := accessory.(snapshots := accessory.snapshots - {id});
      ledger := ledger.(snapshots := ledger.snapshots - {id});
      assert inState == inAccessory == inLedger;
      return inState;
    }
  }
}
