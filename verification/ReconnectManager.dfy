/** The reconnect manager itself: its table of stashes and its tombstones, changed in place. */
module ReconnectManager {
  import opened Prelude
  import opened Frames
  import opened Reconnect
  import T = Tombstones

  /** Looking rooms up prunes the tombstones, if anything was looked up at all. */
  ghost predicate Looked(ttl: int, before: T.Table, now: int, after: T.Table) {
    after == before || T.Pruned(ttl, before, now, after)
  }

  lemma Settled(ttl: int, before: T.Table, now: int, mid: T.Table, after: T.Table)
    requires T.Pruned(ttl, before, now, mid) && T.Pruned(ttl, mid, now, after)
    ensures after == mid
  {
    forall r <- mid
      ensures r in after
    {
      if T.Evicted(mid, after, r) {
        T.CardinalityLe(after.Keys + {r}, mid.Keys);
        assert |after.Keys| == |after| && |mid.Keys| == |mid|;
      }
    }
  }

  /** The rooms kept so far: those not looked at yet, and those without a tombstone. */
  predicate Filtered(rooms: set<string>, todo: set<string>, dead: set<string>, kept: set<string>) {
    (forall r <- kept :: r in rooms) && (forall r <- rooms :: r in kept <==> r in todo || r !in dead)
  }

  lemma LookedSettles(ttl: int, before: T.Table, now: int, mid: T.Table, after: T.Table)
    requires T.Pruned(ttl, before, now, mid) && Looked(ttl, mid, now, after)
    ensures after == mid
  {
    if after != mid {
      Settled(ttl, before, now, mid, after);
    }
  }

  /** None of the entries visited so far needed the tombstones. */
  predicate Blind(before: map<string, Stash>, todo: set<string>, audience: set<string>, frame: Frame) {
    forall a <- before :: a !in todo ==> before[a].key !in audience || frame.room.None?
  }

  /** The visited entries have been offered the event, the others not. */
  predicate Offered(before: map<string, Stash>, todo: set<string>, dead: set<string>, audience: set<string>,
                    frame: Frame, stashed: map<string, Stash>, buffered: set<string>)
  {
    && stashed.Keys == before.Keys && buffered <= before.Keys
    && (forall a <- before :: a in buffered <==> a !in todo && Takes(before[a], dead, audience, frame))
    && (forall a <- before :: stashed[a] == if a in buffered then Buffered(before[a], frame) else before[a])
  }

  lemma BlindAnyDead(before: map<string, Stash>, todo: set<string>, dead: set<string>, other: set<string>,
                     audience: set<string>, frame: Frame, stashed: map<string, Stash>, buffered: set<string>)
    requires Blind(before, todo, audience, frame) && Offered(before, todo, dead, audience, frame, stashed, buffered)
    ensures Offered(before, todo, other, audience, frame, stashed, buffered)
  {
  }

  lemma OfferedStep(before: map<string, Stash>, todo: set<string>, dead: set<string>, audience: set<string>,
                    frame: Frame, was: map<string, Stash>, buffered: set<string>, agent: string,
                    stashed: map<string, Stash>)
    requires Offered(before, todo, dead, audience, frame, was, buffered) && agent in todo && todo <= before.Keys
    requires stashed ==
             if Takes(was[agent], dead, audience, frame) then was[agent := Buffered(was[agent], frame)] else was
    ensures Offered(before, todo - {agent}, dead, audience, frame, stashed,
                    if Takes(was[agent], dead, audience, frame) then buffered + {agent} else buffered)
  {
  }

  lemma OfferedAll(before: map<string, Stash>, dead: set<string>, audience: set<string>, frame: Frame,
                   stashed: map<string, Stash>, buffered: set<string>, issued: int)
    requires Offered(before, {}, dead, audience, frame, stashed, buffered)
    ensures Manager(stashed, dead, issued) == DoVisible(Manager(before, dead, issued), audience, frame)
    ensures buffered == VisibleResult(Manager(before, dead, issued), audience, frame)
  {
  }

  /** The visited entries are without the room, the others untouched. */
  predicate Forgotten(before: map<string, Stash>, todo: set<string>, room: string, stashed: map<string, Stash>) {
    && stashed.Keys == before.Keys
    && (forall a <- before :: stashed[a] == if a in todo then before[a] else Without(before[a], room))
  }

  lemma ForgottenStep(before: map<string, Stash>, todo: set<string>, room: string, stashed: map<string, Stash>,
                      agent: string)
    requires Forgotten(before, todo, room, stashed) && agent in todo && agent in before
    ensures Forgotten(before, todo - {agent}, room, stashed[agent := Without(stashed[agent], room)])
  {
  }

  lemma ForgottenAll(before: map<string, Stash>, room: string, stashed: map<string, Stash>)
    requires Forgotten(before, {}, room, stashed)
    ensures stashed == map a | a in before :: Without(before[a], room)
  {
  }

  class ReconnectManager {
    var stashed: map<string, Stash>
    var issued: int
    const destroyed: T.Tombstones

    constructor (ttl: int)
      ensures stashed == map[] && fresh(destroyed) && destroyed.rooms == map[] && destroyed.ttl == ttl && issued == 0
    {
      stashed, issued := map[], 0;
      destroyed := new T.Tombstones(ttl);
    }

    ghost function View(): Manager
      reads this, destroyed
    {
      Manager(stashed, destroyed.rooms.Keys, issued)
    }

    method RoomIsDestroyed(room: string, now: int) returns (gone: bool)
      modifies destroyed
      ensures T.Pruned(destroyed.ttl, old(destroyed.rooms), now, destroyed.rooms)
      ensures gone == (room in destroyed.rooms)
    {
      gone := destroyed.Contains(room, now);
    }

    /** `retain` of the rooms that have no tombstone. */
    method Living(rooms: set<string>, now: int) returns (kept: set<string>)
      modifies destroyed
      ensures if rooms == {} then destroyed.rooms == old(destroyed.rooms)
              else T.Pruned(destroyed.ttl, old(destroyed.rooms), now, destroyed.rooms)
      ensures kept == rooms - destroyed.rooms.Keys
    {
      ghost var before := destroyed.rooms;
      var todo := rooms;
      kept := rooms;
      while todo != {}
        invariant todo <= rooms
        invariant if todo == rooms then destroyed.rooms == before
                  else T.Pruned(destroyed.ttl, before, now, destroyed.rooms)
        invariant Filtered(rooms, todo, destroyed.rooms.Keys, kept)
        decreases |todo|
      {
        var room :| room in todo;
        ghost var mid := destroyed.rooms;
        var gone := RoomIsDestroyed(room, now);
        if todo != rooms {
          Settled(destroyed.ttl, before, now, mid, destroyed.rooms);
        }
        if gone {
          kept := kept - {room};
        }
        todo := todo - {room};
      }
    }

    /** `stash`: filter, insert, and filter once more. */
    method Keep(agent: string, key: string, rooms: set<string>, now: int)
      modifies this, destroyed
      ensures Looked(destroyed.ttl, old(destroyed.rooms), now, destroyed.rooms)
      ensures View() == DoKeep(Manager(old(stashed), destroyed.rooms.Keys, old(issued)), agent, key, rooms, now)
    {
      var kept := Living(rooms, now);
      ghost var mid := destroyed.rooms;
      stashed := stashed[agent := Stash(key, kept, [], now, None)];
      var still := Living(stashed[agent].rooms, now);
      if kept != {} {
        Settled(destroyed.ttl, old(destroyed.rooms), now, mid, destroyed.rooms);
      }
      assert still == rooms - destroyed.rooms.Keys;
      stashed := stashed[agent := stashed[agent].(rooms := still)];
    }

    /** `begin_reclaim`. */
    method BeginReclaim(agent: string, key: string, noAuth: bool, now: int)
      returns (result: Result<Option<Lease>, ReclaimError>)
      modifies this
      ensures View() == DoBegin(old(View()), agent, key, noAuth, now)
      ensures result == BeginResult(old(View()), agent, key, noAuth, now)
    {
      if agent !in stashed {
        return Ok(None);
      }
      var entry := stashed[agent];
      if now - entry.since >= WINDOW {
        stashed := stashed - {agent};
        return Ok(None);
      }
      if !noAuth && entry.key != key {
        return Err(CredentialMismatch);
      }
      if entry.token.Some? {
        return Err(AlreadyClaimed);
      }
      var token := issued;
      issued := issued + 1;
      stashed := stashed[agent := entry.(token := Some(token))];
      return Ok(Some(Lease(agent, token)));
    }

    /** `commit`: take the stash out, if the lease still owns it. */
    method Commit(lease: Lease) returns (taken: Option<Stash>)
      modifies this
      ensures View() == DoCommit(old(View()), lease)
      ensures taken == CommitResult(old(View()), lease)
    {
      if lease.agent !in stashed || stashed[lease.agent].token != Some(lease.token) {
        return None;
      }
      taken := Some(stashed[lease.agent].(token := None));
      stashed := stashed - {lease.agent};
    }

    /** `drop` of an uncommitted lease. */
    method Drop(lease: Lease)
      modifies this
      ensures View() == DoDrop(old(View()), lease)
    {
      if lease.agent in stashed {
        var entry := stashed[lease.agent];
        if entry.token == Some(lease.token) {
          stashed := stashed[lease.agent := entry.(token := None)];
        }
      }
    }

    /** `buffer_message`. */
    method BufferMessage(agent: string, frame: Frame, now: int)
      modifies this, destroyed
      ensures Looked(destroyed.ttl, old(destroyed.rooms), now, destroyed.rooms)
      ensures View() == DoMessage(Manager(old(stashed), destroyed.rooms.Keys, old(issued)), agent, frame)
    {
      if frame.room.Some? {
        var gone := RoomIsDestroyed(frame.room.value, now);
        if gone {
          return;
        }
      }
      if agent in stashed {
        var entry := stashed[agent];
        if |entry.frames| < MAX_BUFFERED {
          stashed := stashed[agent := entry.(frames := entry.frames + [frame])];
        }
      }
    }

    /** One entry of `buffer_visible_room_event`. */
    method OfferTo(agent: string, audience: set<string>, frame: Frame, now: int) returns (took: bool)
      requires agent in stashed
      modifies this, destroyed
      ensures Looked(destroyed.ttl, old(destroyed.rooms), now, destroyed.rooms)
      ensures took == Takes(old(stashed)[agent], destroyed.rooms.Keys, audience, frame)
      ensures old(stashed)[agent].key !in audience || frame.room.None?
              || T.Pruned(destroyed.ttl, old(destroyed.rooms), now, destroyed.rooms)
      ensures issued == old(issued)
      ensures stashed == if took then old(stashed)[agent := Buffered(old(stashed)[agent], frame)] else old(stashed)
    {
      var entry := stashed[agent];
      if entry.key !in audience {
        return false;
      }
      if frame.room.Some? {
        var gone := RoomIsDestroyed(frame.room.value, now);
        if gone {
          return false;
        }
      }
      if |entry.frames| >= MAX_BUFFERED {
        return false;
      }
      stashed := stashed[agent := entry.(frames := entry.frames + [frame])];
      return true;
    }

    /** `buffer_visible_room_event`: every entry in turn; returns whose buffers took the event. */
    method BufferVisible(audience: set<string>, frame: Frame, now: int) returns (buffered: set<string>)
      modifies this, destroyed
      ensures Looked(destroyed.ttl, old(destroyed.rooms), now, destroyed.rooms)
      ensures View() == DoVisible(Manager(old(stashed), destroyed.rooms.Keys, old(issued)), audience, frame)
      ensures buffered == VisibleResult(Manager(old(stashed), destroyed.rooms.Keys, old(issued)), audience, frame)
    {
      ghost var before, table := stashed, destroyed.rooms;
      var todo := stashed.Keys;
      buffered := {};
      while todo != {}
        invariant todo <= before.Keys && issued == old(issued)
        invariant Looked(destroyed.ttl, table, now, destroyed.rooms)
        invariant destroyed.rooms == table || T.Pruned(destroyed.ttl, table, now, destroyed.rooms)
        invariant T.Pruned(destroyed.ttl, table, now, destroyed.rooms) || Blind(before, todo, audience, frame)
        invariant Offered(before, todo, destroyed.rooms.Keys, audience, frame, stashed, buffered)
        decreases |todo|
      {
        var agent :| agent in todo;
        ghost var mid, was := destroyed.rooms, stashed;
        var took := OfferTo(agent, audience, frame, now);
        if T.Pruned(destroyed.ttl, table, now, mid) {
          LookedSettles(destroyed.ttl, table, now, mid, destroyed.rooms);
        } else {
          BlindAnyDead(before, todo, mid.Keys, destroyed.rooms.Keys, audience, frame, was, buffered);
        }
        OfferedStep(before, todo, destroyed.rooms.Keys, audience, frame, was, buffered, agent, stashed);
        if took {
          buffered := buffered + {agent};
        }
        todo := todo - {agent};
      }
      OfferedAll(before, destroyed.rooms.Keys, audience, frame, stashed, buffered, issued);
    }

    /** `forget_room`: tombstone first, then every entry. */
    method ForgetRoom(room: string, now: int)
      modifies this, destroyed
      ensures T.Inserted(destroyed.ttl, old(destroyed.rooms), room, now, destroyed.rooms)
      ensures stashed == DoForget(old(View()), room).stash && issued == old(issued)
    {
      destroyed.Insert(room, now);
      ghost var before := stashed;
      var todo := stashed.Keys;
      while todo != {}
        invariant todo <= before.Keys && issued == old(issued)
        invariant Forgotten(before, todo, room, stashed)
        modifies this`stashed
        decreases |todo|
      {
        var agent :| agent in todo;
        var entry := stashed[agent];
        ForgottenStep(before, todo, room, stashed, agent);
        stashed := stashed[agent := entry.(rooms := entry.rooms - {room},
                                           frames := Filter(entry.frames, (f: Frame) => f.room != Some(room)))];
        todo := todo - {agent};
      }
      ForgottenAll(before, room, stashed);
    }

    /** The periodic task: stashes past the window, tombstones past their time. */
    method CleanUp(now: int)
      modifies this, destroyed
      ensures T.Pruned(destroyed.ttl, old(destroyed.rooms), now, destroyed.rooms)
      ensures View() == DoCleanup(Manager(old(stashed), destroyed.rooms.Keys, old(issued)), now)
    {
      stashed := map a | a in stashed && now - stashed[a].since < WINDOW :: stashed[a];
      destroyed.Prune(now);
    }
  }
}
