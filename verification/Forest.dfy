/** Values of the fork-aware storage manager: its bookkeeping maps as one record, the invariant they
    keep, and each operation as a function on that record. */
module Forest {
  import opened Wrappers
  import opened Basics
  import opened Containers

  type Hash = nat

  /** Snapshot ids are 64-bit. */
  const ID_LIMIT: nat := 0x1_0000_0000_0000_0000

  datatype Header = Header(hash: Hash, prev: Hash, height: nat)

  datatype StorageError =
    | CorruptBlock
    | ParentNotSaved
    | BlockNotSaved
    | UnknownBlock
    | DuplicateChangeSet
    | NonExistingSnapshot

  /** `children` are the tracked blocks of each parent hash, `parent` the reverse map, `snap` the
      snapshot id of each tracked block, `dangled` the ids that are never saved, `links` the parent
      pointers that all containers share. */
  datatype Forest = Forest(
    children: map<Hash, seq<Hash>>,
    parent: map<Hash, Hash>,
    latest: SnapshotId,
    snap: map<Hash, SnapshotId>,
    dangled: set<SnapshotId>,
    links: Links,
    group: Group<Container>)

  // ----- the invariant

  /** Children lists and the parent map are mutually inverse, without duplicates. */
  ghost predicate Tree(children: map<Hash, seq<Hash>>, parent: map<Hash, Hash>) {
    && (forall p :: p in children ==> children[p] != [] && NoDuplicates(children[p]))
    && (forall p, c :: p in children && c in children[p] ==> c in parent && parent[c] == p)
    && (forall c :: c in parent ==> parent[c] in children && c in children[parent[c]])
  }

  /** Ids are handed out once, and never both to a block and to a reader. */
  ghost predicate Numbered(latest: SnapshotId, snap: map<Hash, SnapshotId>, dangled: set<SnapshotId>) {
    && latest < ID_LIMIT
    && (forall b :: b in snap ==> 0 < snap[b] <= latest && snap[b] !in dangled)
    && (forall b, c :: b in snap && c in snap && snap[b] == snap[c] ==> b == c)
    && (forall i :: i in dangled ==> 0 < i <= latest)
  }

  ghost predicate IsBlockId(snap: map<Hash, SnapshotId>, i: SnapshotId) {
    exists b :: b in snap && snap[b] == i
  }

  /** The pointer of block `b` agrees with its parent. */
  ghost predicate Points(parent: map<Hash, Hash>, snap: map<Hash, SnapshotId>, links: Links, b: Hash)
    requires b in snap && b in parent
  {
    if parent[b] in snap
    then snap[b] in links && links[snap[b]] == snap[parent[b]]
    else snap[b] !in links
  }

  /** Snapshot pointers agree with block parents, and only tracked blocks are saved. */
  ghost predicate Linked(parent: map<Hash, Hash>, snap: map<Hash, SnapshotId>, dangled: set<SnapshotId>,
                         links: Links, saved: set<SnapshotId>)
  {
    && parent.Keys == snap.Keys
    && (forall b {:trigger Points(parent, snap, links, b)} :: b in snap ==> Points(parent, snap, links, b))
    && (forall i :: i in links ==> i in dangled || IsBlockId(snap, i))
    && (forall i :: i in saved ==> IsBlockId(snap, i))
  }

  ghost predicate Inv(f: Forest) {
    match f
    case Forest(children, parent, latest, snap, dangled, links, group) =>
      && Aligned(group)
      && ResolvesAll(group, links)
      && Tree(children, parent)
      && Numbered(latest, snap, dangled)
      && Linked(parent, snap, dangled, links, Saved(group))
  }

  ghost function Empty(dbs: Group<Table>): Forest {
    Forest(map[], map[], 0, map[], {}, map[],
           Group(Container(dbs.state, map[]), Container(dbs.accessory, map[]), Container(dbs.ledger, map[])))
  }

  /** The snapshot id of a tracked block. */
  function IdOf(f: Forest, b: Hash): SnapshotId {
    if b in f.snap then f.snap[b] else 0
  }

  // ----- reading

  /** What the storage with snapshot id `i` reads in each container. */
  ghost function View(f: Forest, i: SnapshotId): Group<Table> {
    Views(f.group, f.links, i)
  }

  ghost predicate IsSaved(f: Forest, b: Hash) {
    b in f.snap && f.snap[b] in Saved(f.group)
  }

  /** What a reader placed after block `b` sees. */
  ghost function ViewAfter(f: Forest, b: Hash): Group<Table> {
    OverlayAll(View(f, IdOf(f, b)), ChangesOf(f.group, IdOf(f, b)))
  }

  // ----- shape of the forest

  /** The parent of `x` is tracked and older, so climbing from `x` makes progress. */
  predicate Climbs(f: Forest, x: Hash) {
    && x in f.parent && x in f.snap
    && f.parent[x] in f.snap && f.snap[f.parent[x]] < f.snap[x]
  }

  /** The oldest tracked ancestor of `x`. */
  function Root(f: Forest, x: Hash): Hash
    decreases IdOf(f, x)
  {
    if Climbs(f, x) then Root(f, f.parent[x]) else x
  }

  /** The hash that the tree of `x` hangs under. */
  function Stem(f: Forest, x: Hash): Hash {
    var r := Root(f, x);
    if r in f.parent then f.parent[r] else r
  }

  /** `x` is a strict descendant of `b`. */
  predicate Descends(f: Forest, x: Hash, b: Hash)
    decreases IdOf(f, x)
  {
    x in f.parent && (f.parent[x] == b || (Climbs(f, x) && Descends(f, f.parent[x], b)))
  }

  /** Snapshot `i` reads through the change set of block `b`. */
  ghost predicate Below(f: Forest, i: SnapshotId, b: Hash)
  {
    b in f.snap && Reaches(f.links, i, f.snap[b])
  }

  // ----- the operations

  function WrappingNext(id: SnapshotId): (next: SnapshotId)
    ensures id < ID_LIMIT ==> next == (id + 1) % ID_LIMIT
  {
    if id + 1 < ID_LIMIT then id + 1 else 0
  }

  ghost function Fresh(f: Forest): SnapshotId {
    WrappingNext(f.latest)
  }

  ghost function Bootstrapped(f: Forest): Forest {
    f.(latest := Fresh(f), dangled := f.dangled + {Fresh(f)})
  }

  ghost function Appended(children: map<Hash, seq<Hash>>, p: Hash, b: Hash): map<Hash, seq<Hash>> {
    children[p := (if p in children then children[p] else []) + [b]]
  }

  /** The first request of a state for `h`. */
  ghost function Grown(f: Forest, h: Header): Forest {
    f.(children := Appended(f.children, h.prev, h.hash),
       parent := f.parent[h.hash := h.prev],
       latest := Fresh(f),
       snap := f.snap[h.hash := Fresh(f)],
       links := if h.prev in f.snap then f.links[Fresh(f) := f.snap[h.prev]] else f.links)
  }

  ghost function StateFor(f: Forest, h: Header): Result<Forest, StorageError> {
    if h.hash == h.prev then Err(CorruptBlock)
    else if h.prev in f.snap && !IsSaved(f, h.prev) then Err(ParentNotSaved)
    else if h.hash in f.snap then Ok(f)
    else Ok(Grown(f, h))
  }

  ghost function StateAfter(f: Forest, h: Header): Result<Forest, StorageError> {
    if h.hash == h.prev then Err(CorruptBlock)
    else if !IsSaved(f, h.hash) then Err(BlockNotSaved)
    else Ok(f.(latest := Fresh(f),
               links := f.links[Fresh(f) := f.snap[h.hash]],
               dangled := f.dangled + {Fresh(f)}))
  }

  ghost function ChangesSaved(f: Forest, h: Header, cs: Group<ChangeSet>): Result<Forest, StorageError> {
    if h.prev !in f.children || h.hash !in f.snap then Err(UnknownBlock)
    else if IsSaved(f, h.hash) then Err(DuplicateChangeSet)
    else Ok(f.(group := Insert(f.group, f.snap[h.hash], cs)))
  }

  /** The blocks that finalizing `b` removes: of all trees that hang under the same hash as the tree
      of `b`, everything that does not descend from `b`. */
  ghost function Gone(f: Forest, b: Hash): set<Hash> {
    set x | x in f.snap && Stem(f, x) == Stem(f, b) && !Descends(f, x, b)
  }

  ghost function IdsOf(snap: map<Hash, SnapshotId>, blocks: set<Hash>): set<SnapshotId> {
    set b | b in blocks && b in snap :: snap[b]
  }

  /** `f` without the blocks `gone`, which hung under `p`, above the databases `dbs`; of `gone`, only
      `b` leaves children behind. */
  ghost function Pruned(f: Forest, gone: set<Hash>, b: Hash, p: Hash, dbs: Group<Table>): Forest {
    Forest(f.children - (gone - {b} + {p}), f.parent - gone, f.latest, f.snap - gone, f.dangled,
           Unlinked(f.links, IdsOf(f.snap, gone)), Settle(f.group, dbs, IdsOf(f.snap, gone)))
  }

  /** The outcome of finalizing `b`: the databases become what a reader after `b` sees, and of the
      trees around `b` only its strict descendants stay. */
  ghost function Finalized(f: Forest, b: Hash): Forest {
    Pruned(f, Gone(f, b), b, Stem(f, b), ViewAfter(f, b))
  }

  ghost function Settled(f: Forest, h: Header): Result<Forest, StorageError> {
    if h.hash !in f.snap then Err(NonExistingSnapshot)
    else if !IsSaved(f, h.hash) then Err(BlockNotSaved)
    else Ok(Finalized(f, h.hash))
  }
}
