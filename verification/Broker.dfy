/** Room membership in join order, the turn token, and destruction: what each broker call does. */
module Broker {
  import opened Prelude
  import T = Tombstones

  /**
   * `members` and `holders` are the broker's tables, `dead` the tombstones still kept. `rooms` are
   * the rooms on record and `used` every identifier ever given out: none is given out twice.
   */
  datatype State = State(members: map<string, seq<string>>, holders: map<string, string>, dead: set<string>,
                         rooms: set<string>, used: set<string>)

  function MembersOf(members: map<string, seq<string>>, room: string): seq<string> {
    if room in members then members[room] else []
  }

  /** Where an agent stands in the join order. */
  function Position(members: seq<string>, agent: string): Option<nat> {
    if members == [] then None
    else if members[|members| - 1] == agent && Position(members[..|members| - 1], agent).None? then Some(|members| - 1)
    else Position(members[..|members| - 1], agent)
  }

  lemma {:induction false} PositionMeans(members: seq<string>, agent: string)
    ensures Position(members, agent).None? <==> agent !in members
    ensures var p := Position(members, agent);
            p.Some? ==> (&& p.value < |members| && members[p.value] == agent
                         && forall j :: 0 <= j < p.value ==> members[j] != agent)
  {
    if members != [] {
      var init := members[..|members| - 1];
      PositionMeans(init, agent);
      assert members == init + [members[|members| - 1]];
      assert forall j :: 0 <= j < |init| ==> members[j] == init[j];
      assert forall j :: 0 <= j < |init| ==> init[j] in init;
    }
  }

  function Joined(members: seq<string>, agent: string): seq<string> {
    if agent in members then members else members + [agent]
  }

  function DoJoin(s: State, agent: string, room: string, accessible: bool): State {
    if room in s.dead || room !in s.rooms || !accessible then s
    else
      s.(members := s.members[room := Joined(MembersOf(s.members, room), agent)],
         holders := if room in s.holders then s.holders else s.holders[room := agent])
  }

  function Without(members: seq<string>, agent: string): seq<string> {
    Filter(members, (m: string) => m != agent)
  }

  function DoLeave(s: State, agent: string, room: string): State {
    var left := Without(MembersOf(s.members, room), agent);
    var members := if room in s.members then s.members[room := left] else s.members;
    s.(members := members,
       holders := if room in s.holders && s.holders[room] == agent then
                    (if left == [] then s.holders - {room} else s.holders[room := left[0]])
                  else s.holders)
  }

  /** The member after the sender, in join order and around; the first one for a stranger. */
  function NextTurn(members: seq<string>, sender: string): string
    requires members != []
  {
    PositionMeans(members, sender);
    var at := Position(members, sender);
    if at.Some? then members[(at.value + 1) % |members|] else members[0]
  }

  /** Whom `advance_turn_from` chooses when it reads the members. */
  function Chosen(s: State, room: string, sender: string): Option<string> {
    var members := MembersOf(s.members, room);
    if members == [] then None else Some(NextTurn(members, sender))
  }

  /** What it then does to the holder. */
  function PassTo(s: State, room: string, next: Option<string>): State {
    s.(holders := if next.None? then s.holders - {room} else s.holders[room := next.value])
  }

  function DoAdvance(s: State, room: string, sender: string): State {
    PassTo(s, room, Chosen(s, room, sender))
  }

  function DoDestroy(s: State, room: string): State {
    s.(rooms := s.rooms - {room}, dead := s.dead + {room}, members := s.members - {room}, holders := s.holders - {room})
  }

  /** The operations that hold the lifecycle lock, and the creation of a room on record. */
  datatype Op =
    | Create(room: string)
    | Join(agent: string, room: string, accessible: bool)
    | Leave(agent: string, room: string)
    | Destroy(room: string)
    | Expire(room: string)

  predicate Allowed(s: State, op: Op) {
    match op
    case Create(room) => room !in s.used
    case Destroy(room) => room in s.used
    case _ => true
  }

  function Whole(s: State, op: Op): State
    requires Allowed(s, op)
  {
    match op
    case Create(room) => s.(rooms := s.rooms + {room}, used := s.used + {room})
    case Join(agent, room, accessible) => DoJoin(s, agent, room, accessible)
    case Leave(agent, room) => DoLeave(s, agent, room)
    case Destroy(room) => DoDestroy(s, room)
    case Expire(room) => s.(dead := s.dead - {room})
  }

  predicate Distinct(members: seq<string>) {
    forall i, j :: 0 <= i < j < |members| ==> members[i] != members[j]
  }

  /** One room: distinct members, and a holder among them exactly while there are members. */
  predicate RoomOK(s: State, room: string) {
    var members := MembersOf(s.members, room);
    && Distinct(members)
    && (room in s.holders <==> members != [])
    && (room in s.holders ==> s.holders[room] in members)
    && (room !in s.rooms ==> room !in s.members)
  }

  lemma JoinedDistinct(members: seq<string>, agent: string)
    requires Distinct(members)
    ensures Distinct(Joined(members, agent)) && agent in Joined(members, agent)
    ensures forall m <- members :: m in Joined(members, agent)
  {
    if agent !in members {
      assert (members + [agent])[|members|] == agent;
      assert forall i :: 0 <= i < |members| ==> (members + [agent])[i] in members;
    }
  }

  lemma WithoutMembers(members: seq<string>, agent: string)
    ensures forall m :: m in Without(members, agent) <==> m in members && m != agent
  {
    FilterMembers(members, (m: string) => m != agent);
  }

  lemma {:induction false} WithoutDistinct(members: seq<string>, agent: string)
    requires Distinct(members)
    ensures Distinct(Without(members, agent))
    ensures forall m :: m in Without(members, agent) <==> m in members && m != agent
  {
    WithoutMembers(members, agent);
    if members != [] {
      var rest := members[1..];
      assert forall i :: 0 <= i < |rest| ==> rest[i] == members[i + 1];
      WithoutDistinct(rest, agent);
      assert members[0] !in rest;
      var tail := Without(rest, agent);
      assert Without(members, agent) == (if members[0] != agent then [members[0]] else []) + tail;
    }
  }

  /** Each whole operation keeps every room: distinct members, and a holder among them or neither. */
  lemma RoomStep(s: State, op: Op, room: string)
    requires RoomOK(s, room) && Allowed(s, op)
    ensures RoomOK(Whole(s, op), room)
  {
    var members := MembersOf(s.members, room);
    match op
    case Join(agent, _, _) => JoinedDistinct(members, agent);
    case Leave(agent, _) => WithoutDistinct(members, agent);
    case _ =>
  }

  /** One member joined before another. */
  predicate Before(members: seq<string>, a: string, b: string) {
    exists i, j :: 0 <= i < j < |members| && members[i] == a && members[j] == b
  }

  lemma {:induction false} WithoutBefore(members: seq<string>, gone: string, a: string, b: string)
    requires Before(members, a, b) && a != gone && b != gone
    ensures Before(Without(members, gone), a, b)
    decreases |members|
  {
    var i, j :| 0 <= i < j < |members| && members[i] == a && members[j] == b;
    var rest := members[1..];
    var tail := Without(rest, gone);
    var head := if members[0] != gone then [members[0]] else [];
    assert Without(members, gone) == head + tail;
    if i == 0 {
      assert rest[j - 1] == b;
      WithoutMembers(rest, gone);
      assert b in tail;
      var k :| 0 <= k < |tail| && tail[k] == b;
      assert (head + tail)[0] == a && (head + tail)[1 + k] == b;
    } else {
      assert rest[i - 1] == a && rest[j - 1] == b;
      WithoutBefore(rest, gone, a, b);
      var k, l :| 0 <= k < l < |tail| && tail[k] == a && tail[l] == b;
      assert (head + tail)[|head| + k] == a && (head + tail)[|head| + l] == b;
    }
  }

  lemma JoinedBefore(members: seq<string>, agent: string, a: string, b: string)
    requires Before(members, a, b)
    ensures Before(Joined(members, agent), a, b)
  {
    var i, j :| 0 <= i < j < |members| && members[i] == a && members[j] == b;
    assert Joined(members, agent)[i] == a && Joined(members, agent)[j] == b;
  }

  /** Who joins goes behind everyone who is there. */
  lemma NewcomerIsLast(s: State, agent: string, room: string, other: string)
    requires RoomOK(s, room) && room in s.rooms && room !in s.dead
    requires agent !in MembersOf(s.members, room) && other in MembersOf(s.members, room)
    ensures Before(MembersOf(DoJoin(s, agent, room, true).members, room), other, agent)
  {
    var members := MembersOf(s.members, room);
    var i :| 0 <= i < |members| && members[i] == other;
    assert (members + [agent])[i] == other && (members + [agent])[|members|] == agent;
  }

  /** A leaving holder passes the token to whoever joined first of those left; others leave it where it is. */
  lemma LeavePassesToTheEldest(s: State, agent: string, room: string, other: string)
    requires RoomOK(s, room) && room in s.holders
    requires other in MembersOf(s.members, room) && other != agent
    ensures var holders := DoLeave(s, agent, room).holders;
            && room in holders
            && (s.holders[room] != agent ==> holders[room] == s.holders[room])
            && (s.holders[room] == agent ==>
                  holders[room] == other || Before(MembersOf(s.members, room), holders[room], other))
  {
    var members := MembersOf(s.members, room);
    WithoutDistinct(members, agent);
    if s.holders[room] == agent {
      FirstIsEldest(members, agent, other);
    }
  }

  lemma {:induction false} FirstIsEldest(members: seq<string>, gone: string, other: string)
    requires other in members && other != gone
    ensures Without(members, gone) != []
    ensures var first := Without(members, gone)[0]; first == other || Before(members, first, other)
    decreases |members|
  {
    var j :| 0 <= j < |members| && members[j] == other;
    var rest := members[1..];
    if members[0] == gone {
      assert rest[j - 1] == other;
      FirstIsEldest(rest, gone, other);
      var first := Without(rest, gone)[0];
      if first != other {
        var k, l :| 0 <= k < l < |rest| && rest[k] == first && rest[l] == other;
        assert members[k + 1] == first && members[l + 1] == other;
      }
    } else if j > 0 {
      assert members[0] == Without(members, gone)[0];
    }
  }

  /** The state after the holder has sent `k` times and nobody joined or left. */
  function AfterSends(s: State, room: string, k: nat): State {
    if k == 0 then s
    else
      var before := AfterSends(s, room, k - 1);
      if room in before.holders then DoAdvance(before, room, before.holders[room]) else before
  }

  lemma PositionAt(members: seq<string>, i: nat)
    requires Distinct(members) && i < |members|
    ensures Position(members, members[i]) == Some(i)
  {
    PositionMeans(members, members[i]);
  }

  /** The place `k` further than `i`, around `n` places. */
  function Turn(i: nat, k: nat, n: nat): (at: nat)
    requires i < n
    ensures at < n
  {
    if k == 0 then i
    else if Turn(i, k - 1, n) + 1 == n then 0
    else Turn(i, k - 1, n) + 1
  }

  lemma Around(at: nat, n: nat)
    requires at < n
    ensures (at + 1) % n == if at + 1 == n then 0 else at + 1
  {
  }

  /** Within one round no place comes twice. */
  lemma {:induction false} TurnOnce(i: nat, k: nat, n: nat)
    requires i < n && k < n
    ensures Turn(i, k, n) == if i + k < n then i + k else i + k - n
  {
    if k > 0 {
      TurnOnce(i, k - 1, n);
    }
  }

  lemma SendMoves(s: State, room: string, at: nat)
    requires at < |MembersOf(s.members, room)| && Distinct(MembersOf(s.members, room))
    ensures var members := MembersOf(s.members, room);
            var next := if at + 1 == |members| then 0 else at + 1;
            DoAdvance(s, room, members[at]) == s.(holders := s.holders[room := members[next]])
  {
    PositionAt(MembersOf(s.members, room), at);
    Around(at, |MembersOf(s.members, room)|);
  }

  /** The token goes round in join order: after `k` sends it is `k` places further. */
  lemma {:induction false} TokenRotates(s: State, room: string, i: nat, k: nat)
    requires RoomOK(s, room) && i < |MembersOf(s.members, room)| && room in s.holders
    requires s.holders[room] == MembersOf(s.members, room)[i]
    ensures var members := MembersOf(s.members, room);
            var end := AfterSends(s, room, k);
            end.members == s.members && room in end.holders && end.holders[room] == members[Turn(i, k, |members|)]
  {
    if k > 0 {
      TokenRotates(s, room, i, k - 1);
      SendMoves(AfterSends(s, room, k - 1), room, Turn(i, k - 1, |MembersOf(s.members, room)|));
    }
  }

  /** Every `n` sends each of the `n` members has held the token exactly once. */
  lemma EveryMemberOnce(s: State, room: string, i: nat, j: nat)
    requires RoomOK(s, room) && i < |MembersOf(s.members, room)| && room in s.holders
    requires s.holders[room] == MembersOf(s.members, room)[i] && j < |MembersOf(s.members, room)|
    ensures var members := MembersOf(s.members, room);
            exists k :: 0 <= k < |members| && HoldsAfter(s, room, k, members[j])
              && forall other :: 0 <= other < |members| && HoldsAfter(s, room, other, members[j]) ==> other == k
  {
    var members := MembersOf(s.members, room);
    var n := |members|;
    var k := if j >= i then j - i else j + n - i;
    TokenRotates(s, room, i, k);
    TurnOnce(i, k, n);
    assert HoldsAfter(s, room, k, members[j]);
    forall other | 0 <= other < n && HoldsAfter(s, room, other, members[j])
      ensures other == k
    {
      TokenRotates(s, room, i, other);
      TurnOnce(i, other, n);
      assert members[Turn(i, other, n)] == members[j];
    }
  }

  predicate HoldsAfter(s: State, room: string, k: nat, agent: string) {
    var end := AfterSends(s, room, k);
    room in end.holders && end.holders[room] == agent
  }

  datatype JoinResult = Refused | Admitted(newHolder: Option<string>)

  datatype LeaveOutcome = LeaveOutcome(nowEmpty: bool, newHolder: Option<string>, holderChanged: bool)

  /** The broker's tables and the methods that change them. */
  class Broker {
    var members: map<string, seq<string>>
    var holders: map<string, string>
    const lifecycle: T.Tombstones

    constructor (ttl: int)
      ensures members == map[] && holders == map[]
      ensures fresh(lifecycle) && lifecycle.rooms == map[] && lifecycle.ttl == ttl
    {
      members, holders := map[], map[];
      lifecycle := new T.Tombstones(ttl);
    }

    ghost function View(rooms: set<string>, used: set<string>): State
      reads this, lifecycle
    {
      State(members, holders, lifecycle.rooms.Keys, rooms, used)
    }

    twostate predicate Steps(now: int, op: Op, rooms: set<string>, used: set<string>)
      reads this, lifecycle
    {
      && T.Pruned(lifecycle.ttl, old(lifecycle.rooms), now, lifecycle.rooms)
      && var s := State(old(members), old(holders), lifecycle.rooms.Keys, rooms, used);
         Allowed(s, op) && View(rooms, used) == Whole(s, op)
    }

    /** `join_room`; `accessible` is what the authoritative lookup says of the room. */
    method JoinRoom(agent: string, room: string, accessible: bool, now: int,
                    ghost rooms: set<string>, ghost used: set<string>)
      returns (result: JoinResult)
      requires accessible ==> room in rooms
      modifies this, lifecycle
      ensures Steps(now, Join(agent, room, accessible), rooms, used)
      ensures result.Refused? <==> room in lifecycle.rooms || !accessible
      ensures result.Admitted? ==> result.newHolder == (if room in old(holders) then None else Some(agent))
    {
      lifecycle.Prune(now);
      if room in lifecycle.rooms || !accessible {
        return Refused;
      }
      var entry := if room in members then members[room] else [];
      if agent !in entry {
        entry := entry + [agent];
      }
      members := members[room := entry];
      if room !in holders {
        holders := holders[room := agent];
        return Admitted(Some(agent));
      }
      return Admitted(None);
    }

    /** `leave_room`: a leaving holder passes the token to the first member left. */
    method LeaveRoom(agent: string, room: string, now: int, ghost rooms: set<string>, ghost used: set<string>)
      returns (outcome: LeaveOutcome)
      modifies this, lifecycle
      ensures Steps(now, Leave(agent, room), rooms, used)
      ensures outcome.nowEmpty <==> MembersOf(members, room) == []
      ensures outcome.holderChanged <==> room in old(holders) && old(holders)[room] == agent
      ensures outcome.newHolder ==
              if outcome.holderChanged && !outcome.nowEmpty then Some(MembersOf(members, room)[0]) else None
    {
      lifecycle.Prune(now);
      var wasHolder := room in holders && holders[room] == agent;
      var nowEmpty := true;
      if room in members {
        members := members[room := Without(members[room], agent)];
        nowEmpty := members[room] == [];
      }
      assert Without([], agent) == [];
      if !wasHolder {
        return LeaveOutcome(nowEmpty, None, false);
      }
      if nowEmpty {
        holders := holders - {room};
        return LeaveOutcome(true, None, true);
      }
      holders := holders[room := members[room][0]];
      return LeaveOutcome(false, Some(members[room][0]), true);
    }

    /** The first half of `advance_turn_from`: a search for the sender, then the next place around. */
    method ChooseNext(room: string, sender: string, ghost s: State) returns (next: Option<string>)
      requires s.members == members
      ensures next == Chosen(s, room, sender)
    {
      var order := MembersOf(members, room);
      if order == [] {
        return None;
      }
      var i := 0;
      while i < |order| && order[i] != sender
        invariant 0 <= i <= |order| && forall j :: 0 <= j < i ==> order[j] != sender
      {
        i := i + 1;
      }
      PositionFound(order, sender, i);
      return Some(if i < |order| then order[(i + 1) % |order|] else order[0]);
    }

    /** The second half, on whatever the tables have become. */
    method PassTurn(room: string, next: Option<string>, ghost s: State)
      requires s.holders == holders
      modifies this`holders
      ensures holders == PassTo(s, room, next).holders
    {
      if next.None? {
        holders := holders - {room};
      } else {
        holders := holders[room := next.value];
      }
    }

    /** `advance_turn_from`, when nothing comes between its halves. */
    method AdvanceTurnFrom(room: string, sender: string, ghost s: State) returns (next: Option<string>)
      requires s.members == members && s.holders == holders
      modifies this`holders
      ensures holders == DoAdvance(s, room, sender).holders
      ensures next == Chosen(s, room, sender)
    {
      next := ChooseNext(room, sender, s);
      PassTurn(room, next, s);
    }

    /** `destroy_room_with`: `deleted` is what the authoritative deletion answered. */
    method DestroyRoomWith(room: string, deleted: bool, now: int, ghost rooms: set<string>, ghost used: set<string>)
      returns (gone: Option<seq<string>>)
      modifies this, lifecycle
      ensures !deleted ==> gone.None? && members == old(members) && holders == old(holders)
      ensures !deleted ==> T.Pruned(lifecycle.ttl, old(lifecycle.rooms), now, lifecycle.rooms)
      ensures deleted ==> gone == Some(MembersOf(old(members), room))
      ensures deleted ==>
              var s := State(old(members), old(holders), old(lifecycle.rooms.Keys), rooms, used);
              View(rooms - {room}, used) == DoDestroy(s, room).(dead := lifecycle.rooms.Keys)
      ensures deleted ==> Retired(lifecycle.ttl, old(lifecycle.rooms), room, now, lifecycle.rooms)
    {
      lifecycle.Prune(now);
      if !deleted {
        return None;
      }
      ghost var mid := lifecycle.rooms;
      lifecycle.Insert(room, now);
      assert T.Inserted(lifecycle.ttl, mid, room, now, lifecycle.rooms);
      gone := Some(MembersOf(members, room));
      members := members - {room};
      holders := holders - {room};
    }
  }

  /** The tombstones after a destruction: pruned, then with the room added. */
  ghost predicate Retired(ttl: int, before: T.Table, room: string, now: int, after: T.Table) {
    exists mid: T.Table :: T.Pruned(ttl, before, now, mid) && T.Inserted(ttl, mid, room, now, after)
  }

  lemma PositionFound(order: seq<string>, sender: string, i: nat)
    requires i <= |order| && (forall j :: 0 <= j < i ==> order[j] != sender) && (i < |order| ==> order[i] == sender)
    ensures Position(order, sender) == if i < |order| then Some(i) else None
  {
    PositionMeans(order, sender);
  }
}
