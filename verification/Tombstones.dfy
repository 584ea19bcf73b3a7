/**
 * The bounded table of destroyed rooms. The broker and the reconnect manager each keep one, with
 * their own lifetimes; the code is the same.
 */
module Tombstones {

  const MAX_ROOMS: nat := 4096

  type Table = map<string, int>

  /** What pruning may do: drop what is out of date, then the oldest while over the bound. */
  ghost predicate Pruned(ttl: int, before: Table, now: int, after: Table) {
    && (forall r <- after :: r in before && after[r] == before[r] && now - before[r] < ttl)
    && |after| <= MAX_ROOMS
    && (forall r <- before :: r in after || now - before[r] >= ttl || Evicted(before, after, r))
  }

  /** Dropped for room: the table stays full and keeps nothing older. */
  ghost predicate Evicted(before: Table, after: Table, r: string)
    requires r in before && forall k <- after :: k in before
  {
    |after| == MAX_ROOMS && forall k <- after :: before[r] <= before[k]
  }

  ghost predicate Inserted(ttl: int, before: Table, room: string, now: int, after: Table) {
    exists mid: Table :: Pruned(ttl, before, now, mid) && Pruned(ttl, mid[room := now], now, after)
  }

  class Tombstones {
    const ttl: int
    var rooms: Table

    constructor (ttl: int)
      ensures rooms == map[] && this.ttl == ttl
    {
      this.ttl, rooms := ttl, map[];
    }

    /** The key with the least time. */
    method Oldest() returns (oldest: string)
      requires rooms != map[]
      ensures oldest in rooms && forall k <- rooms :: rooms[oldest] <= rooms[k]
    {
      var todo := rooms.Keys;
      assert todo == {} ==> rooms == map[];
      oldest :| oldest in todo;
      todo := todo - {oldest};
      while todo != {}
        invariant todo <= rooms.Keys && oldest in rooms
        invariant forall k <- rooms :: k in todo || rooms[oldest] <= rooms[k]
        decreases |todo|
      {
        var k :| k in todo;
        if rooms[k] < rooms[oldest] {
          oldest := k;
        }
        todo := todo - {k};
      }
    }

    /** `prune`: forget what is out of date, then the oldest until the bound holds. */
    method Prune(now: int)
      modifies this`rooms
      ensures Pruned(ttl, old(rooms), now, rooms)
    {
      ghost var before := rooms;
      rooms := map r | r in rooms && now - rooms[r] < ttl :: rooms[r];
      while |rooms| > MAX_ROOMS
        invariant forall r <- rooms :: r in before && rooms[r] == before[r] && now - before[r] < ttl
        invariant forall r <- before ::
          r in rooms || now - before[r] >= ttl || (|rooms| >= MAX_ROOMS && forall k <- rooms :: before[r] <= before[k])
        decreases |rooms|
      {
        var oldest := Oldest();
        rooms := rooms - {oldest};
      }
    }

    /** `insert` of the cache, `tombstone` of the broker. */
    method Insert(room: string, now: int)
      modifies this`rooms
      ensures Inserted(ttl, old(rooms), room, now, rooms)
    {
      Prune(now);
      rooms := rooms[room := now];
      Prune(now);
    }

    method Contains(room: string, now: int) returns (found: bool)
      modifies this`rooms
      ensures Pruned(ttl, old(rooms), now, rooms) && found == (room in rooms)
    {
      Prune(now);
      found := room in rooms;
    }
  }

  ghost function AtLeast(m: Table, t: int): set<string> {
    set r | r in m && m[r] >= t
  }

  lemma PruneKeeps(ttl: int, before: Table, now: int, after: Table, r: string, t: int)
    requires Pruned(ttl, before, now, after)
    requires r in before && before[r] >= t && now - t < ttl && |AtLeast(before, t)| <= MAX_ROOMS
    ensures r in after && after[r] == before[r]
    ensures |AtLeast(after, t)| <= |AtLeast(before, t)|
  {
    CardinalityLe(AtLeast(after, t), AtLeast(before, t));
    CardinalityLe(after.Keys + {r}, AtLeast(before, t));
    assert |after.Keys| == |after|;
    assert Evicted(before, after, r) ==> after.Keys + {r} <= AtLeast(before, t);
  }

  lemma CardinalityLe(a: set<string>, b: set<string>)
    ensures a <= b ==> |a| <= |b|
  {
    if a <= b {
      assert b == a + (b - a);
    }
  }

  datatype Op = Insert(room: string, now: int) | Look(now: int)

  ghost predicate Does(ttl: int, before: Table, op: Op, after: Table) {
    match op
    case Insert(room, now) => Inserted(ttl, before, room, now, after)
    case Look(now) => Pruned(ttl, before, now, after)
  }

  /** A run: the table after each operation. */
  ghost predicate Runs(ttl: int, tables: seq<Table>, ops: seq<Op>) {
    |tables| == |ops| + 1 && forall i :: 0 <= i < |ops| ==> Does(ttl, tables[i], ops[i], tables[i + 1])
  }

  function Inserts(ops: seq<Op>): nat {
    if ops == [] then 0 else Inserts(ops[..|ops| - 1]) + (if ops[|ops| - 1].Insert? then 1 else 0)
  }

  lemma OpKeeps(ttl: int, before: Table, op: Op, after: Table, r: string, t: int)
    requires Does(ttl, before, op, after) && t <= op.now < t + ttl
    requires r in before && before[r] >= t
    requires |AtLeast(before, t)| + (if op.Insert? then 1 else 0) <= MAX_ROOMS
    ensures r in after && after[r] >= t
    ensures |AtLeast(after, t)| <= |AtLeast(before, t)| + (if op.Insert? then 1 else 0)
  {
    match op
    case Look(now) =>
      PruneKeeps(ttl, before, now, after, r, t);
    case Insert(room, now) =>
      var mid: Table :| Pruned(ttl, before, now, mid) && Pruned(ttl, mid[room := now], now, after);
      PruneKeeps(ttl, before, now, mid, r, t);
      assert AtLeast(mid[room := now], t) == AtLeast(mid, t) + {room};
      PruneKeeps(ttl, mid[room := now], now, after, r, t);
  }

  /**
   * How long a tombstone stands: until its lifetime is over, unless as many later destructions fill
   * the table. Times never go back; `t` is when the room was destroyed.
   */
  lemma {:induction false} RetainedThrough(ttl: int, tables: seq<Table>, ops: seq<Op>, r: string, t: int)
    requires Runs(ttl, tables, ops) && forall i :: 0 <= i < |ops| ==> t <= ops[i].now < t + ttl
    requires r in tables[0] && tables[0][r] >= t
    requires |AtLeast(tables[0], t)| + Inserts(ops) <= MAX_ROOMS
    ensures r in tables[|ops|] && tables[|ops|][r] >= t
    ensures |AtLeast(tables[|ops|], t)| <= |AtLeast(tables[0], t)| + Inserts(ops)
    decreases |ops|
  {
    if ops != [] {
      var n := |ops| - 1;
      RetainedThrough(ttl, tables[..n + 1], ops[..n], r, t);
      OpKeeps(ttl, tables[n], ops[n], tables[n + 1], r, t);
    }
  }
}
