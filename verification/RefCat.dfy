/** Reference-catalog shards: resharding one parent file, the module-wide shard cache, and a store
    for one pointing. */
module RefCat {
  import opened Lru

  type ShardId = int
  type ChildId = int
  type Row = int
  type Catalog = seq<Row>
  type Children = map<ChildId, Catalog>

  const SHARD_CACHE_CAP: nat := 24

  /** The files, and the pixel lookup applied to their rows; both uninterpreted. */
  datatype Sky = Sky(rows: ShardId -> seq<Row>, childOf: Row -> ChildId)

  // ---------------------------------------------------------------- resharding one file

  function Select(rows: seq<Row>, childOf: Row -> ChildId, c: ChildId): Catalog {
    if rows == [] then []
    else Select(rows[..|rows| - 1], childOf, c)
         + if childOf(rows[|rows| - 1]) == c then [rows[|rows| - 1]] else []
  }

  function ReshardOne(sky: Sky, id: ShardId): Children {
    map c | c in (set r | r in sky.rows(id) :: sky.childOf(r)) :: Select(sky.rows(id), sky.childOf, c)
  }

  /** Resharding partitions the rows: each row is in its own child's catalog, as often as in the
      file, and in no other. */
  lemma {:induction false} SelectCounts(rows: seq<Row>, childOf: Row -> ChildId, c: ChildId, r: Row)
    ensures multiset(Select(rows, childOf, c))[r] == if childOf(r) == c then multiset(rows)[r] else 0
  {
    if rows != [] {
      SelectCounts(rows[..|rows| - 1], childOf, c, r);
      assert rows == rows[..|rows| - 1] + [rows[|rows| - 1]];
    }
  }

  /** `catalog` is the rows of child `c`, all of them and in the file's order: the ones at the positions
      `at`. */
  ghost predicate Picks(rows: seq<Row>, childOf: Row -> ChildId, c: ChildId, catalog: Catalog, at: seq<nat>) {
    && |at| == |catalog|
    && (forall i, j :: 0 <= i < j < |at| ==> at[i] < at[j])
    && (forall i :: 0 <= i < |at| ==> at[i] < |rows| && childOf(rows[at[i]]) == c && catalog[i] == rows[at[i]])
    && (forall k: nat :: k < |rows| && childOf(rows[k]) == c ==> k in at)
  }

  ghost predicate OwnRows(rows: seq<Row>, childOf: Row -> ChildId, c: ChildId, catalog: Catalog) {
    exists at: seq<nat> :: Picks(rows, childOf, c, catalog, at)
  }

  lemma {:induction false} SelectPicks(rows: seq<Row>, childOf: Row -> ChildId, c: ChildId) returns (at: seq<nat>)
    ensures Picks(rows, childOf, c, Select(rows, childOf, c), at)
  {
    at := [];
    if rows != [] {
      hide Picks;
      var n := |rows| - 1;
      at := SelectPicks(rows[..n], childOf, c);
      assert rows == rows[..n] + [rows[n]];
      if childOf(rows[n]) == c {
        at := at + [n];
      } else {
        assert Select(rows[..n], childOf, c) + [] == Select(rows[..n], childOf, c);
      }
    }
  }

  /** Some row of the file belongs to the child. */
  ghost predicate HasRow(sky: Sky, id: ShardId, c: ChildId) {
    exists r :: r in sky.rows(id) && sky.childOf(r) == c
  }

  /** Splitting a file gives a catalog to exactly the children that have rows in it, and each holds exactly
      its own rows. */
  lemma {:induction false} ReshardExact(sky: Sky, id: ShardId, c: ChildId)
    ensures c in ReshardOne(sky, id) <==> HasRow(sky, id, c)
    ensures c in ReshardOne(sky, id) ==> OwnRows(sky.rows(id), sky.childOf, c, ReshardOne(sky, id)[c])
    ensures c in ReshardOne(sky, id) ==> forall r ::
              multiset(ReshardOne(sky, id)[c])[r] == if sky.childOf(r) == c then multiset(sky.rows(id))[r] else 0
  {
    hide Picks;
    var at := SelectPicks(sky.rows(id), sky.childOf, c);
    forall r ensures multiset(Select(sky.rows(id), sky.childOf, c))[r]
                     == if sky.childOf(r) == c then multiset(sky.rows(id))[r] else 0 {
      SelectCounts(sky.rows(id), sky.childOf, c, r);
    }
  }

  // ---------------------------------------------------------------- sums over catalogs

  /** Some element of a set that has one. */
  ghost function Pick<T>(s: set<T>): (x: T)
    requires s != {}
    ensures x in s
  {
    var x :| x in s; x
  }

  /** The rows of the catalogs at the listed children. */
  ghost function RowsAt(shards: Children, cs: set<ChildId>): nat
    requires cs <= shards.Keys
  {
    if cs == {} then 0 else
      var c := Pick(cs);
      |shards[c]| + RowsAt(shards, cs - {c})
  }

  ghost function NRows(shards: Children): nat {
    RowsAt(shards, shards.Keys)
  }

  lemma {:induction false} RowsAtRemove(shards: Children, cs: set<ChildId>, c: ChildId)
    requires cs <= shards.Keys && c in cs
    ensures RowsAt(shards, cs) == |shards[c]| + RowsAt(shards, cs - {c})
  {
    var d := Pick(cs);
    if d != c {
      RowsAtRemove(shards, cs - {d}, c);
      RowsAtRemove(shards, cs - {c}, d);
      assert cs - {d} - {c} == cs - {c} - {d};
    }
  }

  lemma {:induction false} RowsAtSame(a: Children, b: Children, cs: set<ChildId>)
    requires cs <= a.Keys && cs <= b.Keys && forall c :: c in cs ==> |a[c]| == |b[c]|
    ensures RowsAt(a, cs) == RowsAt(b, cs)
  {
    if cs != {} {
      var c := Pick(cs);
      RowsAtRemove(a, cs, c);
      RowsAtRemove(b, cs, c);
      RowsAtSame(a, b, cs - {c});
    }
  }

  lemma {:induction false} RowsAtUnion(shards: Children, a: set<ChildId>, b: set<ChildId>)
    requires a + b <= shards.Keys && a !! b
    ensures RowsAt(shards, a + b) == RowsAt(shards, a) + RowsAt(shards, b)
  {
    if b == {} {
      assert a + b == a;
    } else {
      var c := Pick(b);
      RowsAtRemove(shards, a + b, c);
      RowsAtRemove(shards, b, c);
      RowsAtUnion(shards, a, b - {c});
      assert a + b - {c} == a + (b - {c});
    }
  }

  /** `n_rows`, summed over the catalogs in whatever order the dict gives them. */
  method CountRows(shards: Children) returns (n: nat)
    ensures n == NRows(shards)
  {
    n := 0;
    var left := shards.Keys;
    while left != {}
      invariant left <= shards.Keys
      invariant n + RowsAt(shards, left) == NRows(shards)
      decreases left
    {
      ghost var some := Pick(left);
      var c :| c in left;
      RowsAtRemove(shards, left, c);
      n := n + |shards[c]|;
      left := left - {c};
    }
  }

  ghost function Selected(rows: seq<Row>, childOf: Row -> ChildId, cs: set<ChildId>): Children {
    map c | c in cs :: Select(rows, childOf, c)
  }

  lemma {:induction false} SelectedRows(rows: seq<Row>, childOf: Row -> ChildId, cs: set<ChildId>)
    requires forall r :: r in rows ==> childOf(r) in cs
    ensures RowsAt(Selected(rows, childOf, cs), cs) == |rows|
  {
    var m := Selected(rows, childOf, cs);
    if rows == [] {
      NothingSelected(m, cs);
    } else {
      var front, last := rows[..|rows| - 1], rows[|rows| - 1];
      var c, before := childOf(last), Selected(front, childOf, cs);
      SelectedRows(front, childOf, cs);
      RowsAtRemove(m, cs, c);
      RowsAtRemove(before, cs, c);
      RowsAtSame(m, before, cs - {c});
    }
  }

  lemma {:induction false} NothingSelected(m: Children, cs: set<ChildId>)
    requires cs <= m.Keys && forall c :: c in cs ==> m[c] == []
    ensures RowsAt(m, cs) == 0
  {
    if cs != {} {
      var c := Pick(cs);
      RowsAtRemove(m, cs, c);
      NothingSelected(m, cs - {c});
    }
  }

  /** No row is lost or counted twice when a file is split. */
  lemma {:induction false} ReshardKeepsRows(sky: Sky, id: ShardId)
    ensures NRows(ReshardOne(sky, id)) == |sky.rows(id)|
  {
    var m := ReshardOne(sky, id);
    SelectedRows(sky.rows(id), sky.childOf, m.Keys);
    assert m == Selected(sky.rows(id), sky.childOf, m.Keys);
  }

  // ---------------------------------------------------------------- loading without a cache

  function LoadAndReshard(sky: Sky, ids: seq<ShardId>): Children {
    if ids == [] then map[]
    else LoadAndReshard(sky, ids[..|ids| - 1]) + ReshardOne(sky, ids[|ids| - 1])
  }

  method LoadAndReshardLoop(sky: Sky, ids: seq<ShardId>) returns (shards: Children)
    ensures shards == LoadAndReshard(sky, ids)
  {
    shards := map[];
    var i := 0;
    while i < |ids|
      invariant 0 <= i <= |ids| && shards == LoadAndReshard(sky, ids[..i])
    {
      assert ids[..i + 1][..i] == ids[..i];
      shards := shards + ReshardOne(sky, ids[i]);
      i := i + 1;
    }
    assert ids[..i] == ids;
  }

  function FileRows(sky: Sky, ids: seq<ShardId>): nat {
    if ids == [] then 0 else FileRows(sky, ids[..|ids| - 1]) + |sky.rows(ids[|ids| - 1])|
  }

  /** A file holds only the rows of its own pixel's children. */
  ghost predicate Tiled(sky: Sky, parentOf: ChildId -> ShardId) {
    forall id, r :: r in sky.rows(id) ==> parentOf(sky.childOf(r)) == id
  }

  lemma {:induction false} LoadedParents(sky: Sky, parentOf: ChildId -> ShardId, ids: seq<ShardId>)
    requires Tiled(sky, parentOf)
    ensures forall c :: c in LoadAndReshard(sky, ids) ==> parentOf(c) in ids
  {
    if ids != [] {
      LoadedParents(sky, parentOf, ids[..|ids| - 1]);
      assert ids == ids[..|ids| - 1] + [ids[|ids| - 1]];
    }
  }

  lemma {:induction false} OnlyOwnFile(sky: Sky, parentOf: ChildId -> ShardId, id: ShardId, c: ChildId)
    requires Tiled(sky, parentOf) && HasRow(sky, id, c)
    ensures parentOf(c) == id
  {
  }

  /** A load holds exactly the children that have rows in one of its files, and each holds exactly its own
      rows of its own parent's file, whichever other files were loaded and in whatever order. */
  lemma {:induction false} LoadExact(sky: Sky, parentOf: ChildId -> ShardId, ids: seq<ShardId>, c: ChildId)
    requires Tiled(sky, parentOf)
    ensures var shards := LoadAndReshard(sky, ids);
            && (c in shards <==> parentOf(c) in ids && HasRow(sky, parentOf(c), c))
            && (c in shards ==> OwnRows(sky.rows(parentOf(c)), sky.childOf, c, shards[c]))
  {
    hide ReshardOne, HasRow, OwnRows, Tiled;
    if ids != [] {
      var front, last := ids[..|ids| - 1], ids[|ids| - 1];
      assert ids == front + [last];
      LoadExact(sky, parentOf, front, c);
      ReshardExact(sky, last, c);
      if c in ReshardOne(sky, last) {
        OnlyOwnFile(sky, parentOf, last, c);
      }
    }
  }

  /** So the rows of a load are the rows of its files, for distinct files. */
  lemma {:induction false} LoadKeepsRows(sky: Sky, parentOf: ChildId -> ShardId, ids: seq<ShardId>)
    requires Tiled(sky, parentOf) && Distinct(ids)
    ensures NRows(LoadAndReshard(sky, ids)) == FileRows(sky, ids)
  {
    if ids != [] {
      var front, last := ids[..|ids| - 1], ids[|ids| - 1];
      var a, b := LoadAndReshard(sky, front), ReshardOne(sky, last);
      LoadKeepsRows(sky, parentOf, front);
      LoadedParents(sky, parentOf, front);
      ReshardKeepsRows(sky, last);
      assert last !in front;
      assert a.Keys !! b.Keys;
      assert (a + b).Keys == a.Keys + b.Keys;
      RowsAtUnion(a + b, a.Keys, b.Keys);
      RowsAtSame(a + b, a, a.Keys);
      RowsAtSame(a + b, b, b.Keys);
    }
  }

  // ---------------------------------------------------------------- the shard cache

  datatype Walked = Walked(cache: Dict<ShardId, Children>, shards: Children, loaded: nat) | Failed(cache: Dict<ShardId, Children>)

  /** Visit the ids in order: a cached parent moves to the end, an absent one is read if its file is
      there. */
  function Walk(sky: Sky, cache: Dict<ShardId, Children>, ids: seq<ShardId>, present: set<ShardId>): Walked {
    if ids == [] then Walked(cache, map[], 0) else
      var id := ids[|ids| - 1];
      match Walk(sky, cache, ids[..|ids| - 1], present)
      case Failed(c) => Failed(c)
      case Walked(c, shards, loaded) =>
        match Get(c, id)
        case Hit(children) => Walked(Touch(c, id, children), shards + children, loaded)
        case Missing =>
          if id !in present then Failed(c)
          else Walked(Touch(c, id, ReshardOne(sky, id)), shards + ReshardOne(sky, id), loaded + 1)
  }

  datatype Shards = Ok(shards: Children, loaded: nat) | NoFile

  datatype Ensured = Ensured(cache: Dict<ShardId, Children>, result: Shards)

  /** Only a complete walk is followed by eviction. */
  function EnsureShards(sky: Sky, cache: Dict<ShardId, Children>, ids: seq<ShardId>, present: set<ShardId>): Ensured {
    match Walk(sky, cache, ids, present)
    case Failed(c) => Ensured(c, NoFile)
    case Walked(c, shards, loaded) => Ensured(Trim(c, SHARD_CACHE_CAP), Ok(shards, loaded))
  }

  lemma {:induction false} WalkFailed(sky: Sky, cache: Dict<ShardId, Children>, ids: seq<ShardId>, present: set<ShardId>, i: nat)
    requires i <= |ids| && Walk(sky, cache, ids[..i], present).Failed?
    ensures Walk(sky, cache, ids, present) == Walk(sky, cache, ids[..i], present)
    decreases |ids|
  {
    if i < |ids| {
      var front := ids[..|ids| - 1];
      assert front[..i] == ids[..i];
      WalkFailed(sky, cache, front, present, i);
    } else {
      assert ids[..i] == ids;
    }
  }

  /** The module-wide cache, shared by every store. */
  class ShardCache {
    var entries: Dict<ShardId, Children>

    constructor ()
      ensures entries == []
    {
      entries := [];
    }

    method Ensure(sky: Sky, ids: seq<ShardId>, present: set<ShardId>) returns (r: Shards)
      modifies this
      ensures Ensured(entries, r) == EnsureShards(sky, old(entries), ids, present)
      ensures CacheValid(sky, old(entries)) ==>
                CacheValid(sky, entries) && (r.Ok? ==> r.shards == LoadAndReshard(sky, ids))
    {
      hide CacheValid, LoadAndReshard;
      EnsureIsLoad(sky, entries, ids, present);
      var loaded: nat, shards: Children, i := 0, map[], 0;
      while i < |ids|
        invariant 0 <= i <= |ids|
        invariant Walk(sky, old(entries), ids[..i], present) == Walked(entries, shards, loaded)
      {
        var id := ids[i];
        assert ids[..i + 1][..i] == ids[..i];
        var children;
        match Get(entries, id) {
          case Hit(c) => children := c;
          case Missing =>
            if id !in present {
              WalkFailed(sky, old(entries), ids, present, i + 1);
              return NoFile;
            }
            children := ReshardOne(sky, id);
            loaded := loaded + 1;
        }
        entries := Touch(entries, id, children);
        shards := shards + children;
        i := i + 1;
      }
      assert ids[..i] == ids;
      entries := Evict(entries, SHARD_CACHE_CAP);
      return Ok(shards, loaded);
    }
  }

  // ---------------------------------------------------------------- the cache refines direct loading

  /** Every cached parent holds what its file reshards to. */
  ghost predicate CacheValid(sky: Sky, cache: Dict<ShardId, Children>) {
    forall id {:trigger Get(cache, id)} :: Get(cache, id).Hit? ==> Get(cache, id).value == ReshardOne(sky, id)
  }

  lemma {:induction false} TouchValid(sky: Sky, cache: Dict<ShardId, Children>, id: ShardId)
    requires CacheValid(sky, cache)
    ensures CacheValid(sky, Touch(cache, id, ReshardOne(sky, id)))
  {
    forall q ensures Get(Touch(cache, id, ReshardOne(sky, id)), q) == if q == id then Hit(ReshardOne(sky, id)) else Get(cache, q) {
      GetTouch(cache, id, ReshardOne(sky, id), q);
    }
  }

  lemma {:induction false} TrimValid(sky: Sky, cache: Dict<ShardId, Children>, cap: nat)
    requires CacheValid(sky, cache)
    ensures CacheValid(sky, Trim(cache, cap))
  {
    forall q | Get(Trim(cache, cap), q).Hit? ensures Get(Trim(cache, cap), q) == Get(cache, q) {
      GetTrim(cache, cap, q);
    }
  }

  lemma {:induction false} WalkValid(sky: Sky, cache: Dict<ShardId, Children>, ids: seq<ShardId>, present: set<ShardId>)
    requires CacheValid(sky, cache)
    ensures var w := Walk(sky, cache, ids, present);
            CacheValid(sky, w.cache) && (w.Walked? ==> w.shards == LoadAndReshard(sky, ids))
  {
    hide CacheValid, ReshardOne, Touch;
    if ids != [] {
      var id, w := ids[|ids| - 1], Walk(sky, cache, ids[..|ids| - 1], present);
      WalkValid(sky, cache, ids[..|ids| - 1], present);
      if w.Walked? {
        TouchValid(sky, w.cache, id);
        HitIsReshard(sky, w.cache, id);
      }
    }
  }

  lemma {:induction false} HitIsReshard(sky: Sky, cache: Dict<ShardId, Children>, id: ShardId)
    requires CacheValid(sky, cache)
    ensures Get(cache, id).Hit? ==> Get(cache, id).value == ReshardOne(sky, id)
  {
  }

  /** From any valid cache the answer is the uncached one, and the cache stays valid, failures
      included. */
  lemma {:induction false} EnsureRefinesLoad(sky: Sky, cache: Dict<ShardId, Children>, ids: seq<ShardId>, present: set<ShardId>)
    requires CacheValid(sky, cache)
    ensures var e := EnsureShards(sky, cache, ids, present);
            CacheValid(sky, e.cache) && (e.result.Ok? ==> e.result.shards == LoadAndReshard(sky, ids))
  {
    hide CacheValid;
    WalkValid(sky, cache, ids, present);
    var w := Walk(sky, cache, ids, present);
    TrimValid(sky, w.cache, SHARD_CACHE_CAP);
  }

  lemma {:induction false} EnsureIsLoad(sky: Sky, cache: Dict<ShardId, Children>, ids: seq<ShardId>, present: set<ShardId>)
    ensures var e := EnsureShards(sky, cache, ids, present);
            CacheValid(sky, cache) ==> CacheValid(sky, e.cache) && (e.result.Ok? ==> e.result.shards == LoadAndReshard(sky, ids))
  {
    hide CacheValid, EnsureShards;
    if CacheValid(sky, cache) {
      EnsureRefinesLoad(sky, cache, ids, present);
    }
  }

  // ---------------------------------------------------------------- what was read, and what is kept

  /** How many of the ids the cache lacks. */
  function Absent(cache: Dict<ShardId, Children>, ids: seq<ShardId>): nat {
    if ids == [] then 0 else Absent(cache, ids[..|ids| - 1]) + if Get(cache, ids[|ids| - 1]).Missing? then 1 else 0
  }

  function DropAll(ks: seq<ShardId>, ids: seq<ShardId>): seq<ShardId> {
    if ids == [] then ks else Drop(DropAll(ks, ids[..|ids| - 1]), ids[|ids| - 1])
  }

  lemma {:induction false} WalkGet(sky: Sky, cache: Dict<ShardId, Children>, ids: seq<ShardId>, present: set<ShardId>, q: ShardId)
    requires q !in ids
    ensures Get(Walk(sky, cache, ids, present).cache, q) == Get(cache, q)
  {
    if ids != [] {
      var id, w := ids[|ids| - 1], Walk(sky, cache, ids[..|ids| - 1], present);
      WalkGet(sky, cache, ids[..|ids| - 1], present, q);
      GetTouch(w.cache, id, ReshardOne(sky, id), q);
      match Get(w.cache, id) {
        case Hit(c) => GetTouch(w.cache, id, c, q);
        case Missing =>
      }
    }
  }

  lemma {:induction false} DropAllMembers(ks: seq<ShardId>, ids: seq<ShardId>)
    ensures forall q :: q in DropAll(ks, ids) <==> q in ks && q !in ids
    ensures Distinct(ks) ==> Distinct(DropAll(ks, ids))
  {
    if ids != [] {
      var n := |ids| - 1;
      DropAllMembers(ks, ids[..n]);
      DropMembers(DropAll(ks, ids[..n]), ids[n]);
      assert ids == ids[..n] + [ids[n]];
      if Distinct(ks) {
        DropDistinct(DropAll(ks, ids[..n]), ids[n]);
      }
    }
  }

  lemma {:induction false} KeysTouchOnly(cache: Dict<ShardId, Children>, id: ShardId, c: Children)
    ensures Keys(Touch(cache, id, c)) == Drop(Keys(cache), id) + [id]
  {
    KeysWithout(cache, id);
    KeysConcat(Without(cache, id), [(id, c)]);
  }

  /** A walk over `ids` that got through: what it read, and the order it left. */
  ghost predicate WalkedAll(cache: Dict<ShardId, Children>, ids: seq<ShardId>, present: set<ShardId>, w: Walked) {
    && w.Walked? && w.loaded == Absent(cache, ids) && Keys(w.cache) == DropAll(Keys(cache), ids) + ids
    && forall i :: 0 <= i < |ids| ==> Get(cache, ids[i]).Hit? || ids[i] in present
  }

  /** `ids[k]` is the first parent that is neither cached nor on disk. */
  ghost predicate FirstUnreadable(cache: Dict<ShardId, Children>, ids: seq<ShardId>, present: set<ShardId>, k: nat) {
    && k < |ids| && Get(cache, ids[k]).Missing? && ids[k] !in present
    && forall i :: 0 <= i < k ==> Get(cache, ids[i]).Hit? || ids[i] in present
  }

  /** A walk that stopped at the first unreadable parent: the ids before it have moved. */
  ghost predicate StoppedAt(cache: Dict<ShardId, Children>, ids: seq<ShardId>, present: set<ShardId>, w: Walked, k: nat) {
    && w.Failed? && FirstUnreadable(cache, ids, present, k)
    && Keys(w.cache) == DropAll(Keys(cache), ids[..k]) + ids[..k]
  }

  ghost predicate Stopped(cache: Dict<ShardId, Children>, ids: seq<ShardId>, present: set<ShardId>, w: Walked) {
    exists k: nat :: StoppedAt(cache, ids, present, w, k)
  }

  lemma {:induction false} WalkOnward(cache: Dict<ShardId, Children>, ids: seq<ShardId>, present: set<ShardId>, w: Walked, v: Walked)
    requires ids != [] && ids[|ids| - 1] !in ids[..|ids| - 1]
    requires WalkedAll(cache, ids[..|ids| - 1], present, w) && v.Walked?
    requires Keys(v.cache) == Drop(Keys(w.cache), ids[|ids| - 1]) + [ids[|ids| - 1]]
    requires v.loaded == w.loaded + if Get(cache, ids[|ids| - 1]).Missing? then 1 else 0
    requires Get(cache, ids[|ids| - 1]).Hit? || ids[|ids| - 1] in present
    ensures WalkedAll(cache, ids, present, v)
  {
    var front, id := ids[..|ids| - 1], ids[|ids| - 1];
    var ks := DropAll(Keys(cache), front);
    DropConcat(ks, front, id);
    DropNone(front, id);
    assert Drop(ks, id) + front + [id] == Drop(ks, id) + ids;
  }

  /** The walk reads exactly the parents the cache lacked, and moves the visited ids to the end in
      their order, stopping at the first parent it can get from nowhere. */
  lemma {:induction false} WalkOrder(sky: Sky, cache: Dict<ShardId, Children>, ids: seq<ShardId>, present: set<ShardId>)
    requires Distinct(ids)
    ensures var w := Walk(sky, cache, ids, present);
            WalkedAll(cache, ids, present, w) || Stopped(cache, ids, present, w)
  {
    if ids == [] {
      assert DropAll(Keys(cache), ids) + ids == Keys(cache);
    } else {
      WalkOrder(sky, cache, ids[..|ids| - 1], present);
      WalkOrderStep(sky, cache, ids, present);
    }
  }

  lemma {:induction false} StillStopped(cache: Dict<ShardId, Children>, ids: seq<ShardId>, present: set<ShardId>, w: Walked, k: nat)
    requires ids != [] && StoppedAt(cache, ids[..|ids| - 1], present, w, k)
    ensures StoppedAt(cache, ids, present, w, k)
  {
    hide Keys, DropAll;
    assert ids[..|ids| - 1][..k] == ids[..k];
  }

  lemma {:induction false} WalkOrderStep(sky: Sky, cache: Dict<ShardId, Children>, ids: seq<ShardId>, present: set<ShardId>)
    requires Distinct(ids) && ids != []
    requires var w := Walk(sky, cache, ids[..|ids| - 1], present);
             WalkedAll(cache, ids[..|ids| - 1], present, w) || Stopped(cache, ids[..|ids| - 1], present, w)
    ensures var w := Walk(sky, cache, ids, present);
            WalkedAll(cache, ids, present, w) || Stopped(cache, ids, present, w)
  {
    hide Touch, ReshardOne, Keys, Absent, DropAll, Drop;
    var n := |ids| - 1;
    var front, id := ids[..n], ids[n];
    var w, v := Walk(sky, cache, front, present), Walk(sky, cache, ids, present);
    assert id !in front;
    WalkGet(sky, cache, front, present, id);
    if !WalkedAll(cache, front, present, w) {
      var k: nat :| StoppedAt(cache, front, present, w, k);
      StillStopped(cache, ids, present, w, k);
    } else if v.Failed? {
      assert StoppedAt(cache, ids, present, v, n);
    } else {
      match Get(w.cache, id) {
        case Hit(children) => KeysTouchOnly(w.cache, id, children);
        case Missing => KeysTouchOnly(w.cache, id, ReshardOne(sky, id));
      }
      WalkOnward(cache, ids, present, w, v);
    }
  }

  /** After a successful call the cache keeps the last `cap` of (the old order without the wanted
      ids, then the wanted ids), even when more are wanted than the cap; the call fails exactly when a
      wanted parent is neither cached nor on disk. */
  lemma {:induction false} EnsureOrder(sky: Sky, cache: Dict<ShardId, Children>, ids: seq<ShardId>, present: set<ShardId>)
    requires Distinct(ids)
    ensures var e := EnsureShards(sky, cache, ids, present);
            && (e.result.Ok? <==> forall i :: 0 <= i < |ids| ==> Get(cache, ids[i]).Hit? || ids[i] in present)
            && (e.result.Ok? ==> e.result.loaded == Absent(cache, ids)
                                 && Keys(e.cache) == Trim(DropAll(Keys(cache), ids) + ids, SHARD_CACHE_CAP))
  {
    WalkOrder(sky, cache, ids, present);
    KeysTrim(Walk(sky, cache, ids, present).cache, SHARD_CACHE_CAP);
  }

  // ---------------------------------------------------------------- when the cap is exceeded

  lemma {:induction false} DropAllLength(cache: Dict<ShardId, Children>, ids: seq<ShardId>)
    requires Distinct(Keys(cache)) && Distinct(ids)
    ensures |DropAll(Keys(cache), ids)| + |ids| == |cache| + Absent(cache, ids)
  {
    if ids != [] {
      hide Keys, Get, Drop;
      var n := |ids| - 1;
      var id, ks := ids[n], DropAll(Keys(cache), ids[..n]);
      DropAllLength(cache, ids[..n]);
      DropAllMembers(Keys(cache), ids[..n]);
      HitIsKey(cache, id);
      assert id !in ids[..n];
      if id in ks {
        DropLength(ks, id);
      } else {
        DropNone(ks, id);
      }
    }
  }

  lemma {:induction false} FrontThenIds(ks: seq<ShardId>, ids: seq<ShardId>)
    requires Distinct(ks) && Distinct(ids)
    ensures Distinct(DropAll(ks, ids) + ids)
  {
    DropAllMembers(ks, ids);
    DistinctConcat(DropAll(ks, ids), ids);
  }

  /** A call that fails at `ids[k]` has kept every parent it had and the ones it read before. */
  lemma {:induction false} StoppedSize(cache: Dict<ShardId, Children>, ids: seq<ShardId>, present: set<ShardId>, w: Walked, k: nat)
    requires Distinct(Keys(cache)) && Distinct(ids) && StoppedAt(cache, ids, present, w, k)
    ensures |w.cache| == |cache| + Absent(cache, ids[..k])
    ensures Distinct(Keys(w.cache))
  {
    DropAllLength(cache, ids[..k]);
    FrontThenIds(Keys(cache), ids[..k]);
  }

  lemma {:induction false} OneFirst(cache: Dict<ShardId, Children>, ids: seq<ShardId>, present: set<ShardId>, j: nat, k: nat)
    requires FirstUnreadable(cache, ids, present, j) && FirstUnreadable(cache, ids, present, k)
    ensures j == k
  {
  }

  /** A failed call skips eviction, so the cap is not an invariant. It is exceeded after a call exactly when
      some wanted parent is neither cached nor on disk and the parents cached, with the ones read before the
      first such, are more than the cap. */
  lemma {:induction false} CapExceededWhen(sky: Sky, cache: Dict<ShardId, Children>, ids: seq<ShardId>, present: set<ShardId>)
    requires Distinct(Keys(cache)) && Distinct(ids)
    ensures |EnsureShards(sky, cache, ids, present).cache| > SHARD_CACHE_CAP
            <==> exists k: nat :: FirstUnreadable(cache, ids, present, k)
                             && |cache| + Absent(cache, ids[..k]) > SHARD_CACHE_CAP
    ensures Distinct(Keys(EnsureShards(sky, cache, ids, present).cache))
  {
    hide Keys, Absent, DropAll, Walk, Distinct;
    WalkOrder(sky, cache, ids, present);
    var w := Walk(sky, cache, ids, present);
    if WalkedAll(cache, ids, present, w) {
      KeysTrim(w.cache, SHARD_CACHE_CAP);
      FrontThenIds(Keys(cache), ids);
      TrimDistinct(Keys(w.cache), SHARD_CACHE_CAP);
    } else {
      var k: nat :| StoppedAt(cache, ids, present, w, k);
      StoppedSize(cache, ids, present, w, k);
      forall j: nat | FirstUnreadable(cache, ids, present, j) ensures j == k {
        OneFirst(cache, ids, present, j, k);
      }
    }
  }

  const FIRST_SHARD: ShardId := 8192

  /** A cache at its cap. */
  function Full(): (cache: Dict<ShardId, Children>)
    ensures |cache| == SHARD_CACHE_CAP
    ensures Keys(cache) == seq(SHARD_CACHE_CAP, i => FIRST_SHARD + i)
  {
    var cache: Dict<ShardId, Children> := seq(SHARD_CACHE_CAP, i => (FIRST_SHARD + i, map[]));
    assert forall i :: 0 <= i < SHARD_CACHE_CAP ==> Keys(cache)[i] == FIRST_SHARD + i;
    cache
  }

  /** So a full cache overflows by one when a pointing wants two more parents and only the first is there. */
  lemma {:induction false} FailureOverflows(sky: Sky)
    ensures var e := EnsureShards(sky, Full(), [FIRST_SHARD + 24, FIRST_SHARD + 25], {FIRST_SHARD + 24});
            e.result.NoFile? && |e.cache| == 25 > SHARD_CACHE_CAP
  {
    hide Full, Walk, DropAll;
    var cache, ids, present := Full(), [FIRST_SHARD + 24, FIRST_SHARD + 25], {FIRST_SHARD + 24};
    HitIsKey(cache, ids[0]);
    HitIsKey(cache, ids[1]);
    WalkOrder(sky, cache, ids, present);
    assert FirstUnreadable(cache, ids, present, 1);
    var k: nat :| StoppedAt(cache, ids, present, Walk(sky, cache, ids, present), k);
    OneFirst(cache, ids, present, 1, k);
    StoppedSize(cache, ids, present, Walk(sky, cache, ids, present), 1);
    assert ids[..1] == [ids[0]] && ids[..1][..0] == [];
  }

  // ---------------------------------------------------------------- one pointing's store

  datatype Store = Store(shardIds: set<ShardId>, shards: Children, nRows: nat)

  /** What a call reports, but for the time it took and the pointing it was given. */
  datatype Report = Report(reused: bool, files: nat, shards: nat, rows: nat, loaded: nat, kept: int) | LoadError

  function ReportOf(reused: bool, loaded: nat, store: Store): Report {
    Report(reused, |store.shardIds|, |store.shards|, store.nRows, loaded, if reused then 0 else |store.shardIds| - loaded)
  }

  ghost predicate Least(s: set<ShardId>, m: ShardId) {
    m in s && forall x :: x in s ==> m <= x
  }

  lemma {:induction false} LeastExists(s: set<ShardId>) returns (m: ShardId)
    requires s != {}
    ensures Least(s, m)
  {
    m := Pick(s);
    if s != {m} {
      var rest := s - {m};
      var n := LeastExists(rest);
      m := if m < n then m else n;
      assert forall x :: x in s ==> x in rest || x == Pick(s);
    }
  }

  function Min(s: set<ShardId>): (m: ShardId)
    requires s != {}
    ensures Least(s, m)
  {
    SomeLeast(s);
    var m :| m in s && forall x :: x in s ==> m <= x;
    m
  }

  lemma {:induction false} SomeLeast(s: set<ShardId>)
    requires s != {}
    ensures exists m :: m in s && forall x :: x in s ==> m <= x
  {
    var m := LeastExists(s);
  }

  /** `sorted(...)` of a set of ids. */
  function Sorted(s: set<ShardId>): (ids: seq<ShardId>)
    ensures forall x :: x in ids <==> x in s
    ensures forall i, j :: 0 <= i < j < |ids| ==> ids[i] < ids[j]
  {
    if s == {} then [] else
      var m := Min(s);
      assert forall x :: x in s <==> x == m || x in s - {m};
      [m] + Sorted(s - {m})
  }

  ghost function EnsureStore(sky: Sky, cache: Dict<ShardId, Children>, store: Store, wanted: set<ShardId>, present: set<ShardId>)
    : (Dict<ShardId, Children>, Store, Report)
  {
    if wanted == store.shardIds then (cache, store, ReportOf(true, 0, store)) else
      var e := EnsureShards(sky, cache, Sorted(wanted), present);
      match e.result
      case NoFile => (e.cache, store, LoadError)
      case Ok(shards, loaded) =>
        var after := Store(wanted, shards, NRows(shards));
        (e.cache, after, ReportOf(false, loaded, after))
  }

  class RefCatStore {
    var shardIds: set<ShardId>
    var shards: Children
    var nRows: nat

    ghost function Value(): Store
      reads this
    {
      Store(shardIds, shards, nRows)
    }

    constructor (s: Store)
      ensures Value() == s
    {
      shardIds, shards, nRows := s.shardIds, s.shards, s.nRows;
    }

    method Ensure(sky: Sky, cache: ShardCache, wanted: set<ShardId>, present: set<ShardId>) returns (r: Report)
      modifies this, cache
      ensures (cache.entries, Value(), r) == EnsureStore(sky, old(cache.entries), old(Value()), wanted, present)
      ensures CacheValid(sky, old(cache.entries)) && old(Value()) == Loaded(sky, old(shardIds)) ==>
                && CacheValid(sky, cache.entries)
                && (if r.LoadError? then Value() == old(Value()) else Value() == Loaded(sky, wanted))
    {
      hide CacheValid, Loaded, EnsureShards;
      EnsureStoreIsLoad(sky, cache.entries, Value(), wanted, present);
      if wanted == shardIds {
        return Report(true, |shardIds|, |shards|, nRows, 0, 0);
      }
      var found := cache.Ensure(sky, Sorted(wanted), present);
      match found {
        case NoFile => r := LoadError;
        case Ok(s, loaded) =>
          shards := s;
          shardIds := wanted;
          nRows := CountRows(s);
          r := Report(false, |shardIds|, |shards|, nRows, loaded, |wanted| - loaded);
      }
    }
  }

  const EMPTY_STORE: Store := Store({}, map[], 0)

  /** The store an uncached load of `wanted` gives. */
  ghost function Loaded(sky: Sky, wanted: set<ShardId>): Store {
    Store(wanted, LoadAndReshard(sky, Sorted(wanted)), NRows(LoadAndReshard(sky, Sorted(wanted))))
  }

  lemma {:induction false} SortedDistinct(s: set<ShardId>)
    ensures Distinct(Sorted(s))
  {
    assert forall i, j :: 0 <= i < j < |Sorted(s)| ==> Sorted(s)[i] < Sorted(s)[j];
  }

  /** A store is always the uncached load of some shard set; a call that returns leaves it the load of
      the wanted set, and a failed call leaves it untouched. */
  lemma {:induction false} StoreRefinesLoad(sky: Sky, cache: Dict<ShardId, Children>, store: Store, wanted: set<ShardId>, present: set<ShardId>)
    requires CacheValid(sky, cache) && store == Loaded(sky, store.shardIds)
    ensures var (c, s, r) := EnsureStore(sky, cache, store, wanted, present);
            && CacheValid(sky, c)
            && (if r.LoadError? then s == store else s == Loaded(sky, wanted))
            && (r.Report? && r.reused ==> s == store && c == cache)
            && (r.Report? ==> r.files == |wanted| && r.shards == |s.shards| && r.rows == s.nRows)
            && (r.Report? ==> r.loaded == if r.reused then 0 else Absent(cache, Sorted(wanted)))
            && (r.Report? ==> r.kept == if r.reused then 0 else |wanted| - r.loaded)
  {
    hide CacheValid, Loaded;
    EnsureRefinesLoad(sky, cache, Sorted(wanted), present);
    SortedDistinct(wanted);
    EnsureOrder(sky, cache, Sorted(wanted), present);
    LoadedIs(sky, wanted);
  }

  /** A store answers from what it has exactly when that is what is wanted; otherwise the call returns exactly
      when every wanted parent is cached or on disk. */
  lemma {:induction false} StoreReturnsWhen(sky: Sky, cache: Dict<ShardId, Children>, store: Store, wanted: set<ShardId>, present: set<ShardId>)
    ensures var (_, _, r) := EnsureStore(sky, cache, store, wanted, present);
            && (r.Report? <==> wanted == store.shardIds || forall id :: id in wanted ==> Get(cache, id).Hit? || id in present)
            && (r.Report? ==> (r.reused <==> wanted == store.shardIds))
  {
    hide EnsureShards;
    SortedDistinct(wanted);
    EnsureOrder(sky, cache, Sorted(wanted), present);
  }

  lemma {:induction false} EnsureStoreIsLoad(sky: Sky, cache: Dict<ShardId, Children>, store: Store, wanted: set<ShardId>, present: set<ShardId>)
    ensures var (c, s, r) := EnsureStore(sky, cache, store, wanted, present);
            CacheValid(sky, cache) && store == Loaded(sky, store.shardIds) ==>
              && CacheValid(sky, c)
              && (if r.LoadError? then s == store else s == Loaded(sky, wanted))
  {
    hide CacheValid, Loaded, EnsureStore;
    if CacheValid(sky, cache) && store == Loaded(sky, store.shardIds) {
      StoreRefinesLoad(sky, cache, store, wanted, present);
    }
  }

  lemma {:induction false} LoadedIs(sky: Sky, wanted: set<ShardId>)
    ensures Loaded(sky, wanted) == Store(wanted, LoadAndReshard(sky, Sorted(wanted)), NRows(LoadAndReshard(sky, Sorted(wanted))))
  {
  }

  lemma {:induction false} EmptyStoreLoaded(sky: Sky)
    ensures EMPTY_STORE == Loaded(sky, {})
  {
    assert Sorted({}) == [];
  }

  /** After a call that returns, the store holds exactly the children of the wanted parents that have rows,
      each with exactly its own rows in their file's order. */
  lemma {:induction false} StoreExact(sky: Sky, parentOf: ChildId -> ShardId, cache: Dict<ShardId, Children>, store: Store,
                                      wanted: set<ShardId>, present: set<ShardId>, c: ChildId)
    requires Tiled(sky, parentOf) && CacheValid(sky, cache) && store == Loaded(sky, store.shardIds)
    ensures var (_, s, r) := EnsureStore(sky, cache, store, wanted, present);
            r.Report? ==>
              && (c in s.shards <==> parentOf(c) in wanted && HasRow(sky, parentOf(c), c))
              && (c in s.shards ==> OwnRows(sky.rows(parentOf(c)), sky.childOf, c, s.shards[c]))
              && s.nRows == FileRows(sky, Sorted(wanted))
  {
    hide CacheValid, EnsureStore, Loaded, HasRow, OwnRows, Tiled, FileRows;
    StoreRefinesLoad(sky, cache, store, wanted, present);
    LoadExact(sky, parentOf, Sorted(wanted), c);
    LoadedIs(sky, wanted);
    StoreRows(sky, parentOf, wanted);
  }

  /** The row count a store reports is the rows of its parents' files. */
  lemma {:induction false} StoreRows(sky: Sky, parentOf: ChildId -> ShardId, wanted: set<ShardId>)
    requires Tiled(sky, parentOf)
    ensures Loaded(sky, wanted).nRows == FileRows(sky, Sorted(wanted))
  {
    SortedDistinct(wanted);
    LoadKeepsRows(sky, parentOf, Sorted(wanted));
  }
}
