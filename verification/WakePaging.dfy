/** The room log as the wake bridge sees it, and the two loops that page through it. */
module WakePaging {
  import opened Prelude

  /** Durable identity of a wake event: the primary key of the bridge's event table. */
  datatype EventKey = EventKey(target: string, source: string, eventId: string)

  /** A room message. `wake` is the identity carried in the metadata of an agent_wake message. */
  datatype Msg = Msg(seqNo: int, id: string, wake: Option<EventKey>)

  const PAGE: nat := 1000

  /** The room's high-water mark: the sequence of its newest message, 0 when it has none. */
  function Tip(log: seq<Msg>): int {
    if log == [] then 0 else log[|log| - 1].seqNo
  }

  /** Sequences are positive and strictly increasing. */
  ghost predicate Increasing(log: seq<Msg>) {
    && (forall i :: 0 <= i < |log| ==> 0 < log[i].seqNo)
    && (forall i, j :: 0 <= i < j < |log| ==> log[i].seqNo < log[j].seqNo)
  }

  /** How many messages of an increasing log are at or below the cursor. */
  function Pos(log: seq<Msg>, cursor: int): nat {
    if log == [] then 0
    else if log[|log| - 1].seqNo <= cursor then |log|
    else Pos(log[..|log| - 1], cursor)
  }

  lemma {:induction false} PosMeans(log: seq<Msg>, cursor: int)
    ensures Pos(log, cursor) <= |log|
    ensures Pos(log, cursor) > 0 ==> log[Pos(log, cursor) - 1].seqNo <= cursor
    ensures forall i :: Pos(log, cursor) <= i < |log| ==> log[i].seqNo > cursor
  {
    if log != [] {
      var init := log[..|log| - 1];
      PosMeans(init, cursor);
      assert forall i :: 0 <= i < |init| ==> log[i] == init[i];
    }
  }

  /** The messages at or below the cursor of an increasing log are exactly the first `p`. */
  lemma PosUnique(log: seq<Msg>, cursor: int, p: nat)
    requires Increasing(log) && p <= |log|
    requires p > 0 ==> log[p - 1].seqNo <= cursor
    requires p < |log| ==> log[p].seqNo > cursor
    ensures Pos(log, cursor) == p
  {
    PosMeans(log, cursor);
  }

  /**
   * The server's history query against the first `visible` messages of the log: those above the
   * cursor, oldest first, at most `limit`.
   */
  function History(log: seq<Msg>, visible: nat, cursor: int, limit: nat): seq<Msg>
    requires visible <= |log|
  {
    var lo := Min(Pos(log, cursor), visible);
    log[lo..Min(lo + limit, visible)]
  }

  predicate IsWakeFor(m: Msg, target: string) {
    m.wake.Some? && m.wake.value.target == target
  }

  /** What a search for one event means: the first message of the log carrying its identity. */
  function FirstMatch(log: seq<Msg>, key: EventKey): Option<Msg> {
    if log == [] then None
    else if log[0].wake == Some(key) then Some(log[0])
    else FirstMatch(log[1..], key)
  }

  lemma {:induction false} FirstMatchMeans(log: seq<Msg>, key: EventKey)
    ensures var r := FirstMatch(log, key);
            if r.Some? then r.value in log && r.value.wake == Some(key)
            else forall m :: m in log ==> m.wake != Some(key)
  {
    if log != [] {
      FirstMatchMeans(log[1..], key);
      assert log == [log[0]] + log[1..];
    }
  }

  lemma {:induction false} FirstMatchAppend(a: seq<Msg>, b: seq<Msg>, key: EventKey)
    ensures FirstMatch(a + b, key) == if FirstMatch(a, key).Some? then FirstMatch(a, key) else FirstMatch(b, key)
  {
    if a == [] {
      assert a + b == b;
    } else {
      assert (a + b)[0] == a[0] && (a + b)[1..] == a[1..] + b;
      FirstMatchAppend(a[1..], b, key);
    }
  }

  /** The wake messages for the target among positions `start` up to `q` of the log. */
  function Gathered(log: seq<Msg>, target: string, start: nat, q: nat): seq<Msg>
    requires q <= |log|
  {
    if q <= start then []
    else
      var rest := Gathered(log, target, start, q - 1);
      if IsWakeFor(log[q - 1], target) then rest + [log[q - 1]] else rest
  }

  /** What an inbox read means: the first `limit` wake messages for the target above the cursor. */
  function Inbox(log: seq<Msg>, visible: nat, target: string, after: int, limit: nat): seq<Msg>
    requires visible <= |log|
  {
    Take(Gathered(log, target, Pos(log, after), visible), limit)
  }

  /** Reading further than `q` only extends what was gathered. */
  lemma {:induction false} GatheredGrows(log: seq<Msg>, target: string, start: nat, q: nat, v: nat)
    requires q <= v <= |log|
    ensures Gathered(log, target, start, q) <= Gathered(log, target, start, v)
  {
    if q < v {
      GatheredGrows(log, target, start, q, v - 1);
    }
  }

  /** Successive fetches see ever longer prefixes of the append-only log. */
  ghost predicate Growing(log: seq<Msg>, visible: seq<nat>) {
    && Increasing(log)
    && |visible| > 0
    && (forall k :: 0 <= k < |visible| ==> visible[k] <= |log|)
    && (forall j, k :: 0 <= j <= k < |visible| ==> visible[j] <= visible[k])
  }

  function VisibleAt(visible: seq<nat>, k: nat): nat
    requires |visible| > 0
  {
    if k < |visible| then visible[k] else visible[|visible| - 1]
  }

  /** One nonempty page moves the cursor exactly past it. */
  lemma NextPage(log: seq<Msg>, visible: nat, cursor: int, limit: nat)
    requires Increasing(log) && visible <= |log|
    ensures var p := Pos(log, cursor);
            var page := History(log, visible, cursor, limit);
            && p <= |log|
            && (page != [] ==>
                  && p + |page| <= visible
                  && page == log[p..p + |page|]
                  && Pos(log, page[|page| - 1].seqNo) == p + |page|)
            && (|page| < limit && p <= visible ==> p + |page| == visible)
  {
    var p := Pos(log, cursor);
    var page := History(log, visible, cursor, limit);
    PosMeans(log, cursor);
    if page != [] {
      PosUnique(log, log[p + |page| - 1].seqNo, p + |page|);
    }
  }

  lemma SearchPage(log: seq<Msg>, p: nat, q: nat, key: EventKey)
    requires p <= q <= |log| && FirstMatch(log[..p], key).None?
    ensures FirstMatch(log[..q], key) == FirstMatch(log[p..q], key)
  {
    assert log[..q] == log[..p] + log[p..q];
    FirstMatchAppend(log[..p], log[p..q], key);
  }

  /** A match in a prefix is the match of every longer prefix. */
  lemma FirstMatchGrows(log: seq<Msg>, q: nat, v: nat, key: EventKey)
    requires q <= v <= |log| && FirstMatch(log[..q], key).Some?
    ensures FirstMatch(log[..v], key) == FirstMatch(log[..q], key)
  {
    assert log[..v] == log[..q] + log[q..v];
    FirstMatchAppend(log[..q], log[q..v], key);
  }

  /**
   * The paged search. The log may grow between two page fetches; the answer is the first match in
   * the prefix seen by the last fetch, so the whole loop acts at that instant.
   */
  method FindEvent(log: seq<Msg>, visible: seq<nat>, key: EventKey) returns (r: Option<Msg>, fetches: nat)
    requires Growing(log, visible)
    ensures VisibleAt(visible, fetches) <= |log|
    ensures r == FirstMatch(log[..VisibleAt(visible, fetches)], key)
  {
    var cursor := 0;
    fetches := 0;
    ghost var p := 0;
    PosUnique(log, 0, 0);
    while true
      invariant p == Pos(log, cursor) <= VisibleAt(visible, if fetches == 0 then 0 else fetches - 1)
      invariant FirstMatch(log[..p], key).None?
      decreases |log| - p
    {
      var v := VisibleAt(visible, fetches);
      var page := History(log, v, cursor, PAGE);
      NextPage(log, v, cursor, PAGE);
      ghost var q := p + |page|;
      SearchPage(log, p, q, key);
      if page == [] {
        return None, fetches;
      }
      var hit := FirstMatch(page, key);
      if hit.Some? {
        FirstMatchGrows(log, q, v, key);
        return hit, fetches;
      }
      cursor := page[|page| - 1].seqNo;
      if |page| < PAGE {
        return None, fetches;
      }
      p := q;
      fetches := fetches + 1;
    }
  }

  /** Appends the wake messages of one page until the limit is reached. */
  method Collect(found: seq<Msg>, page: seq<Msg>, target: string, limit: nat,
                 ghost log: seq<Msg>, ghost start: nat, ghost p: nat) returns (result: seq<Msg>, ghost q: nat)
    requires start <= p && p + |page| <= |log| && page == log[p..p + |page|]
    requires found == Gathered(log, target, start, p) && |found| < limit
    ensures p <= q <= p + |page| && (q == p + |page| || |result| == limit)
    ensures result == Gathered(log, target, start, q) && |result| <= limit
  {
    result := found;
    var j := 0;
    while j < |page| && |result| < limit
      invariant 0 <= j <= |page|
      invariant result == Gathered(log, target, start, p + j) && |result| <= limit
    {
      assert page[j] == log[p + j];
      if IsWakeFor(page[j], target) {
        result := result + [page[j]];
      }
      j := j + 1;
    }
    q := p + j;
  }

  /** The read may stop once the limit is reached or the visible part of the log is exhausted. */
  lemma MayStop(log: seq<Msg>, v: nat, target: string, after: int, limit: nat, q: nat)
    requires q <= v <= |log|
    requires var found := Gathered(log, target, Pos(log, after), q);
             |found| == limit || (q == v && |found| <= limit)
    ensures Inbox(log, v, target, after, limit) == Gathered(log, target, Pos(log, after), q)
  {
    GatheredGrows(log, target, Pos(log, after), q, v);
  }

  /**
   * The paged inbox read: it terminates and returns the first `limit` wake messages above the
   * cursor in the prefix of the log seen by its last fetch.
   */
  method ReadEvents(log: seq<Msg>, visible: seq<nat>, target: string, after: int, limit: nat)
    returns (result: seq<Msg>, fetches: nat)
    requires Growing(log, visible)
    ensures VisibleAt(visible, fetches) <= |log|
    ensures result == Inbox(log, VisibleAt(visible, fetches), target, after, limit)
  {
    var cursor := after;
    result := [];
    fetches := 0;
    ghost var start := Pos(log, after);
    PosMeans(log, after);
    ghost var p := start;
    while |result| < limit
      invariant start <= p == Pos(log, cursor) && p <= |log|
      invariant result == Gathered(log, target, start, p)
      invariant result == [] || |result| < limit
      invariant p == start || p <= VisibleAt(visible, fetches)
      decreases |log| - p
    {
      var v := VisibleAt(visible, fetches);
      var page := History(log, v, cursor, PAGE);
      NextPage(log, v, cursor, PAGE);
      if page == [] {
        return;
      }
      cursor := page[|page| - 1].seqNo;
      ghost var q;
      result, q := Collect(result, page, target, limit, log, start, p);
      if |result| == limit || |page| < PAGE {
        MayStop(log, v, target, after, limit, q);
        return;
      }
      p := q;
      fetches := fetches + 1;
    }
  }
}
