/**
 * Acknowledged means read: when everything up to the read cursor has been handed out, what breaks
 * that, and how an event is then acknowledged unread.
 */
module WakeAcked {
  import opened Prelude
  import opened WakePaging
  import opened WakeStore
  import opened WakeProtocol
  import opened WakeNoLost
  import opened WakeDedup
  import opened WakeReads

  /** Every wake message of the target up to `upTo` was handed out by a recorded read. */
  predicate ReadTo(c: Config, w: World, target: string, upTo: int)
    requires target in c.targets
  {
    var log := LogOf(w, RoomOf(c, target));
    forall i :: 0 <= i < |log| && IsWakeFor(log[i], target) && log[i].seqNo <= upTo ==>
      (target, log[i].seqNo) in w.returned
  }

  /** Nothing unread is at or below the cursor, now or ever: it is not beyond the end of the log either. */
  predicate Covered(c: Config, w: World, target: string, cursor: int)
    requires target in c.targets
  {
    ReadTo(c, w, target, cursor) && cursor <= Tip(LogOf(w, RoomOf(c, target)))
  }

  predicate PrefixAt(c: Config, w: World, target: string)
    requires target in c.targets
  {
    Covered(c, w, target, MaxRead(w, target))
  }

  /** Everything up to each target's read cursor has been handed out. */
  predicate PrefixRead(c: Config, w: World) {
    forall target :: target in c.targets ==> PrefixAt(c, w, target)
  }

  /** The record of a read whose own cursor was not covered. */
  predicate Outruns(c: Config, w: World, s: Step)
    requires Enabled(c, w, s)
  {
    s.RecordStep? && !Covered(c, w, w.calls[s.id].target, w.calls[s.id].after)
  }

  lemma PostCovers(c: Config, w: World, room: string, msgId: string, wake: Option<EventKey>, target: string,
                   cursor: int)
    requires LogsOK(w) && target in c.targets && Covered(c, w, target, cursor)
    ensures Covered(c, Post(w, room, msgId, wake), target, cursor)
  {
  }

  lemma CoveredMore(c: Config, w: World, w': World, target: string, cursor: int)
    requires target in c.targets && Covered(c, w, target, cursor)
    requires w'.rooms == w.rooms && w.returned <= w'.returned
    ensures Covered(c, w', target, cursor)
  {
  }

  /** A covered cursor stays covered: what arrives later has a greater sequence. */
  lemma CoveredStays(c: Config, w: World, s: Step, target: string, cursor: int)
    requires Enabled(c, w, s) && LogsOK(w) && target in c.targets && Covered(c, w, target, cursor)
    ensures Covered(c, Next(c, w, s), target, cursor)
  {
    var w' := Next(c, w, s);
    RoomsAfter(c, w, s);
    OnlyRecordsReturn(c, w, s);
    var posted := w;
    if s.Append? {
      posted := Post(w, RoomOf(c, w.calls[s.id].key.target), s.msgId, Some(w.calls[s.id].key));
      PostCovers(c, w, RoomOf(c, w.calls[s.id].key.target), s.msgId, Some(w.calls[s.id].key), target, cursor);
    } else if s.Foreign? {
      posted := Post(w, s.room, s.msgId, None);
      PostCovers(c, w, s.room, s.msgId, None, target, cursor);
    }
    CoveredMore(c, posted, w', target, cursor);
  }

  lemma CoveredBelow(c: Config, w: World, target: string, cursor: int, below: int)
    requires target in c.targets && Covered(c, w, target, cursor) && below <= cursor
    ensures Covered(c, w, target, below)
  {
  }

  lemma MaxReadAfter(c: Config, w: World, s: Step, target: string)
    requires Enabled(c, w, s) && CursorsOK(w.tables) && ReadsOK(w)
    ensures MaxRead(Next(c, w, s), target) ==
            if s.RecordStep? && w.calls[s.id].target == target
            then Max(MaxRead(w, target), Highest(w.calls[s.id].after, w.calls[s.id].items))
            else MaxRead(w, target)
  {
    if s.RecordStep? {
      assert ReadOK(w.calls[s.id]);
    }
  }

  /** A record raises the read cursor over its page; that is covered exactly when its own cursor was. */
  lemma RecordCovers(c: Config, w: World, id: nat, call: Call)
    requires call.Fetched? && call.target in c.targets && PageOf(c, w, call) && PrefixAt(c, w, call.target)
    requires MaxRead(DoRecord(w, id, call), call.target) ==
             Max(MaxRead(w, call.target), Highest(call.after, call.items))
    ensures PrefixAt(c, DoRecord(w, id, call), call.target) <==> Covered(c, w, call.target, call.after)
  {
    var target, w' := call.target, DoRecord(w, id, call);
    var log := LogOf(w, RoomOf(c, target));
    assert call.items != [] ==> call.items[|call.items| - 1] in call.items;
    if Covered(c, w, target, call.after) {
      forall i | 0 <= i < |log| && IsWakeFor(log[i], target) && log[i].seqNo <= MaxRead(w', target)
        ensures (target, log[i].seqNo) in w'.returned
      {
        if log[i].seqNo > MaxRead(w, target) && log[i].seqNo > call.after {
          assert OnPage(log[i], call);
        }
      }
    }
    if PrefixAt(c, w', target) {
      forall i | 0 <= i < |log| && IsWakeFor(log[i], target) && log[i].seqNo <= call.after
        ensures (target, log[i].seqNo) in w.returned
      {
        assert (target, log[i].seqNo) in w'.returned;
      }
    }
  }

  lemma PrefixAtStep(c: Config, w: World, s: Step, target: string)
    requires Enabled(c, w, s) && ReadInv(c, w) && target in c.targets && PrefixAt(c, w, target)
    ensures PrefixAt(c, Next(c, w, s), target) <==> !(Outruns(c, w, s) && w.calls[s.id].target == target)
  {
    MaxReadAfter(c, w, s, target);
    if s.RecordStep? && w.calls[s.id].target == target {
      assert PageOf(c, w, w.calls[s.id]);
      RecordCovers(c, w, s.id, w.calls[s.id]);
    } else {
      CoveredStays(c, w, s, target, MaxRead(w, target));
    }
  }

  lemma PrefixStep(c: Config, w: World, s: Step)
    requires Enabled(c, w, s) && ReadInv(c, w) && PrefixRead(c, w)
    ensures PrefixRead(c, Next(c, w, s)) <==> !Outruns(c, w, s)
  {
    forall target | target in c.targets
      ensures PrefixAt(c, Next(c, w, s), target) <==> !(Outruns(c, w, s) && w.calls[s.id].target == target)
    {
      assert PrefixAt(c, w, target);
      PrefixAtStep(c, w, s, target);
    }
  }

  predicate AlwaysPrefixRead(c: Config, w: World, steps: seq<Step>)
    decreases |steps|
  {
    PrefixRead(c, w)
    && (steps == [] || (Enabled(c, w, steps[0]) && AlwaysPrefixRead(c, Next(c, w, steps[0]), steps[1..])))
  }

  predicate NeverOutruns(c: Config, w: World, steps: seq<Step>)
    decreases |steps|
  {
    steps == [] || (Enabled(c, w, steps[0]) && !Outruns(c, w, steps[0])
                    && NeverOutruns(c, Next(c, w, steps[0]), steps[1..]))
  }

  /**
   * Over every run of interleaved calls: all along it everything up to the read cursors has been
   * handed out, if and only if no recorded read had started beyond the end of its log or beyond an
   * event still unread.
   */
  lemma {:induction false} PrefixReadExactly(c: Config, w: World, steps: seq<Step>, end: World)
    requires ReadInv(c, w) && PrefixRead(c, w) && Runs(c, w, steps, end)
    ensures AlwaysPrefixRead(c, w, steps) <==> NeverOutruns(c, w, steps)
    ensures ReadInv(c, end) && (NeverOutruns(c, w, steps) ==> PrefixRead(c, end))
    decreases |steps|
  {
    if steps != [] {
      ReadInvPreserved(c, w, steps[0]);
      PrefixStep(c, w, steps[0]);
      if Outruns(c, w, steps[0]) {
        AlwaysReadInv(c, Next(c, w, steps[0]), steps[1..], end);
      } else {
        PrefixReadExactly(c, Next(c, w, steps[0]), steps[1..], end);
      }
    }
  }

  lemma {:induction false} AlwaysReadInv(c: Config, w: World, steps: seq<Step>, end: World)
    requires ReadInv(c, w) && Runs(c, w, steps, end)
    ensures ReadInv(c, end)
    decreases |steps|
  {
    if steps != [] {
      ReadInvPreserved(c, w, steps[0]);
      AlwaysReadInv(c, Next(c, w, steps[0]), steps[1..], end);
    }
  }

  /** An event counts as acknowledged and no recorded read ever returned it. */
  predicate AckedUnread(c: Config, w: World, target: string)
    requires target in c.targets
  {
    var log := LogOf(w, RoomOf(c, target));
    exists i :: 0 <= i < |log| && IsWakeFor(log[i], target) && (target, log[i].seqNo) !in w.returned
                && log[i].seqNo <= TargetOf(w.tables, target).lastAcked
  }

  /** Then every acknowledged event was returned by an earlier read. */
  lemma AckedWasRead(c: Config, steps: seq<Step>, end: World, target: string)
    requires Runs(c, START, steps, end) && NeverOutruns(c, START, steps) && target in c.targets
    ensures !AckedUnread(c, end, target)
  {
    PrefixReadExactly(c, START, steps, end);
    assert PrefixAt(c, end, target);
    assert target in end.tables.targets ==> CursorOK(end.tables.targets[target]);
  }

  /** The call reads from a covered cursor. */
  predicate ReaderOK(c: Config, w: World, call: Call) {
    (call.Reading? || call.Fetched?) && call.target in c.targets ==> Covered(c, w, call.target, call.after)
  }

  predicate ReadersOK(c: Config, w: World) {
    forall id :: id in w.calls ==> ReaderOK(c, w, w.calls[id])
  }

  /** Readers pass no cursor, or one that is covered when they call. */
  predicate StartsCovered(c: Config, w: World, s: Step)
    requires Enabled(c, w, s)
  {
    s.ReadStart? && s.from.Some? ==> Covered(c, w, s.target, s.from.value)
  }

  predicate AlwaysStartsCovered(c: Config, w: World, steps: seq<Step>)
    decreases |steps|
  {
    steps == [] || (Enabled(c, w, steps[0]) && StartsCovered(c, w, steps[0])
                    && AlwaysStartsCovered(c, Next(c, w, steps[0]), steps[1..]))
  }

  /** Which reader states a step creates, and from what. */
  lemma NewReader(c: Config, w: World, s: Step, id: nat)
    requires Enabled(c, w, s) && id in Next(c, w, s).calls
    requires Next(c, w, s).calls[id].Reading? || Next(c, w, s).calls[id].Fetched?
    ensures var call := Next(c, w, s).calls[id];
            || (id in w.calls && (w.calls[id].Reading? || w.calls[id].Fetched?)
                && call.target == w.calls[id].target && call.after == w.calls[id].after)
            || (s.ReadStart? && call.target == s.target && call.after == ReadCursor(w, s.target, s.from))
  {
  }

  lemma ReadersPreserved(c: Config, w: World, s: Step)
    requires Enabled(c, w, s) && ReadInv(c, w) && PrefixRead(c, w) && ReadersOK(c, w) && StartsCovered(c, w, s)
    ensures ReadersOK(c, Next(c, w, s))
  {
    var w' := Next(c, w, s);
    forall id | id in w'.calls && (w'.calls[id].Reading? || w'.calls[id].Fetched?) && w'.calls[id].target in c.targets
      ensures ReaderOK(c, w', w'.calls[id])
    {
      var call := w'.calls[id];
      NewReader(c, w, s, id);
      if s.ReadStart? && call.target == s.target && call.after == ReadCursor(w, s.target, s.from) {
        assert PrefixAt(c, w, s.target);
        assert s.target in w.tables.targets ==> CursorOK(w.tables.targets[s.target]);
        CoveredBelow(c, w, s.target, MaxRead(w, s.target), TargetOf(w.tables, s.target).lastAcked);
      } else {
        assert ReaderOK(c, w, w.calls[id]);
      }
      CoveredStays(c, w, s, call.target, call.after);
    }
  }

  /** What callers can see to: reads that start at no cursor or at a covered one never outrun. */
  lemma {:induction false} CoveredStartsNeverOutrun(c: Config, w: World, steps: seq<Step>, end: World)
    requires ReadInv(c, w) && PrefixRead(c, w) && ReadersOK(c, w)
    requires Runs(c, w, steps, end) && AlwaysStartsCovered(c, w, steps)
    ensures NeverOutruns(c, w, steps)
    decreases |steps|
  {
    if steps != [] {
      assert steps[0].RecordStep? ==> ReaderOK(c, w, w.calls[steps[0].id]);
      ReadInvPreserved(c, w, steps[0]);
      PrefixStep(c, w, steps[0]);
      ReadersPreserved(c, w, steps[0]);
      CoveredStartsNeverOutrun(c, Next(c, w, steps[0]), steps[1..], end);
    }
  }

  /**
   * A read that nothing interleaves with keeps everything up to the read cursor handed out, for
   * good, exactly when its cursor is covered. No cursor up to the read one fails that.
   */
  lemma ExplicitCursor(c: Config, w: World, id: nat, target: string, cursor: int, limit: nat)
    requires target in c.targets && cursor >= 0 && LogsOK(w) && PrefixAt(c, w, target)
    ensures PrefixAt(c, ReadAlone(c, w, id, target, cursor, limit), target) <==> Covered(c, w, target, cursor)
    ensures cursor <= MaxRead(w, target) ==> Covered(c, w, target, cursor)
  {
    var log := LogOf(w, RoomOf(c, target));
    FetchPage(log, target, cursor, limit);
    InboxAbove(log, target, cursor, limit);
    RecordCovers(c, w, id, Fetched(target, cursor, InboxOf(c, w, target, cursor, limit)));
  }

  /** An event below the read cursor that was never handed out can be acknowledged at once. */
  lemma UnreadIsLost(c: Config, w: World, target: string, id: nat, i: nat)
    requires target in c.targets && id !in w.calls && target in w.tables.targets
    requires i < |LogOf(w, RoomOf(c, target))| && IsWakeFor(LogOf(w, RoomOf(c, target))[i], target)
    requires LogOf(w, RoomOf(c, target))[i].seqNo <= MaxRead(w, target)
    requires (target, LogOf(w, RoomOf(c, target))[i].seqNo) !in w.returned
    ensures exists steps, end :: Runs(c, w, steps, end) && AckedUnread(c, end, target)
  {
    var ack := AckStart(id, target, MaxRead(w, target));
    RunsOne(c, w, ack);
    var end := Next(c, w, ack);
    assert LogOf(end, RoomOf(c, target))[i] == LogOf(w, RoomOf(c, target))[i];
    assert AckedUnread(c, end, target);
  }

  /** A new event, delivered as far as its message. */
  lemma NewEventAppended(c: Config, w: World, id: nat, key: EventKey, json: string, rank: int, now: int, msgId: string)
    returns (mid: World)
    requires ReadInv(c, w) && id !in w.calls && key.target in c.targets && key !in w.tables.events
    ensures forall rest, end :: Runs(c, mid, rest, end) ==>
              Runs(c, w, [WakeStart(id, key, json, rank, now)] + ([Find(id)] + ([Append(id, msgId)] + rest)), end)
    ensures var room := RoomOf(c, key.target);
            LogOf(mid, room) == LogOf(w, room) + [Msg(Tip(LogOf(w, room)) + 1, msgId, Some(key))]
    ensures mid.returned == w.returned && mid.calls.Keys == w.calls.Keys + {id}
    ensures mid.tables.targets == w.tables.targets[key.target := TargetOf(w.tables, key.target)]
  {
    var room := RoomOf(c, key.target);
    var w1 := Next(c, w, WakeStart(id, key, json, rank, now));
    FirstMatchMeans(LogOf(w, room), key);
    assert room in w.rooms ==> Reserved(w.tables, room, w.rooms[room]);
    var w2 := Next(c, w1, Find(id));
    assert w2.calls[id] == Send(key, rank);
    mid := Next(c, w2, Append(id, msgId));
    forall rest, end | Runs(c, mid, rest, end)
      ensures Runs(c, w, [WakeStart(id, key, json, rank, now)] + ([Find(id)] + ([Append(id, msgId)] + rest)), end)
    {
      RunsCons(c, w2, Append(id, msgId), rest, end);
      RunsCons(c, w1, Find(id), [Append(id, msgId)] + rest, end);
      RunsCons(c, w, WakeStart(id, key, json, rank, now), [Find(id)] + ([Append(id, msgId)] + rest), end);
    }
  }

  /** With the read cursor beyond the end of the log, the next event is acknowledged before any read returns it. */
  lemma NextEventIsLost(c: Config, w: World, id: nat, acker: nat, key: EventKey, json: string, rank: int, now: int,
                        msgId: string)
    requires ReadInv(c, w) && id !in w.calls && acker !in w.calls && id != acker
    requires key.target in c.targets && key !in w.tables.events
    requires MaxRead(w, key.target) > Tip(LogOf(w, RoomOf(c, key.target)))
    ensures exists steps, end :: Runs(c, w, steps, end) && AckedUnread(c, end, key.target)
  {
    var target, log := key.target, LogOf(w, RoomOf(c, key.target));
    var mid := NewEventAppended(c, w, id, key, json, rank, now, msgId);
    var ack := AckStart(acker, target, MaxRead(w, target));
    var end := Next(c, mid, ack);
    RunsOne(c, mid, ack);
    assert forall p <- w.returned :: p.0 == target ==> p.1 <= Tip(log);
    assert LogOf(end, RoomOf(c, target))[|log|] == Msg(Tip(log) + 1, msgId, Some(key));
    assert AckedUnread(c, end, target);
  }

  /**
   * Once not everything up to the read cursor has been handed out, an event can be lost: one that
   * is there already, or the next one to come.
   */
  lemma BrokenPrefixLoses(c: Config, w: World, id: nat, acker: nat, key: EventKey, json: string, rank: int, now: int,
                          msgId: string)
    requires ReadInv(c, w) && id !in w.calls && acker !in w.calls && id != acker
    requires key.target in c.targets && key !in w.tables.events && !PrefixAt(c, w, key.target)
    ensures exists steps, end :: Runs(c, w, steps, end) && AckedUnread(c, end, key.target)
  {
    var target, log := key.target, LogOf(w, RoomOf(c, key.target));
    if MaxRead(w, target) > Tip(log) {
      NextEventIsLost(c, w, id, acker, key, json, rank, now, msgId);
    } else {
      var i :| 0 <= i < |log| && IsWakeFor(log[i], target) && log[i].seqNo <= MaxRead(w, target)
               && (target, log[i].seqNo) !in w.returned;
      assert RoomOf(c, target) in w.rooms;
      assert target in w.tables.targets;
      UnreadIsLost(c, w, target, id, i);
    }
  }

  function ReadSteps(id: nat, target: string, cursor: int, limit: Option<nat>): seq<Step> {
    [ReadStart(id, target, Some(cursor), limit), Fetch(id), RecordStep(id)]
  }

  /** An uninterleaved read raises the read cursor to its own at least, and returns nothing at or below that. */
  lemma ReadRaises(c: Config, w: World, id: nat, target: string, cursor: int, limit: Option<nat>) returns (w': World)
    requires id !in w.calls && target in c.targets && cursor >= 0 && LogsOK(w)
    ensures Runs(c, w, ReadSteps(id, target, cursor, limit), w')
    ensures w'.rooms == w.rooms && w'.calls == w.calls && w'.tables.events == w.tables.events
    ensures target in w'.tables.targets && MaxRead(w', target) >= cursor
    ensures forall seqNo :: seqNo <= cursor && (target, seqNo) in w'.returned ==> (target, seqNo) in w.returned
  {
    var log := LogOf(w, RoomOf(c, target));
    ReadAloneRuns(c, w, id, target, Some(cursor), limit);
    ItemsAbove(log, target, cursor, LimitOf(limit));
    InboxAbove(log, target, cursor, LimitOf(limit));
    w' := ReadAlone(c, w, id, target, cursor, LimitOf(limit));
    assert w'.calls == w.calls - {id} == w.calls;
  }

  /** A read from a cursor beyond an event that was never handed out lets it be acknowledged unread. */
  lemma CursorBeyondUnreadLoses(c: Config, w: World, id: nat, target: string, cursor: int, limit: Option<nat>, i: nat)
    requires target in c.targets && cursor >= 0 && LogsOK(w) && id !in w.calls
    requires i < |LogOf(w, RoomOf(c, target))| && IsWakeFor(LogOf(w, RoomOf(c, target))[i], target)
    requires LogOf(w, RoomOf(c, target))[i].seqNo <= cursor
    requires (target, LogOf(w, RoomOf(c, target))[i].seqNo) !in w.returned
    ensures exists rest, end ::
      Runs(c, w, ReadSteps(id, target, cursor, limit) + rest, end) && AckedUnread(c, end, target)
  {
    var w' := ReadRaises(c, w, id, target, cursor, limit);
    UnreadIsLost(c, w', target, id, i);
    var rest, end :| Runs(c, w', rest, end) && AckedUnread(c, end, target);
    RunsAppend(c, w, ReadSteps(id, target, cursor, limit), w', rest, end);
  }

  /** So does a read from beyond the end of the log, to the next event, even when all before was read. */
  lemma CursorBeyondTipLoses(c: Config, w: World, id: nat, acker: nat, key: EventKey, cursor: int, limit: Option<nat>,
                             json: string, rank: int, now: int, msgId: string)
    requires ReadInv(c, w) && id !in w.calls && acker !in w.calls && id != acker
    requires key.target in c.targets && key !in w.tables.events
    requires cursor > Tip(LogOf(w, RoomOf(c, key.target)))
    ensures exists rest, end ::
      Runs(c, w, ReadSteps(id, key.target, cursor, limit) + rest, end) && AckedUnread(c, end, key.target)
  {
    assert RoomOf(c, key.target) in w.rooms ==> Increasing(w.rooms[RoomOf(c, key.target)]);
    var w' := ReadRaises(c, w, id, key.target, cursor, limit);
    AlwaysReadInv(c, w, ReadSteps(id, key.target, cursor, limit), w');
    NextEventIsLost(c, w', id, acker, key, json, rank, now, msgId);
    var rest, end :| Runs(c, w', rest, end) && AckedUnread(c, end, key.target);
    RunsAppend(c, w, ReadSteps(id, key.target, cursor, limit), w', rest, end);
  }

  /** Every cursor that is not covered loses an event in some continuation. */
  lemma UncoveredCursorLoses(c: Config, w: World, id: nat, acker: nat, key: EventKey, cursor: int, limit: Option<nat>,
                             json: string, rank: int, now: int, msgId: string)
    requires ReadInv(c, w) && id !in w.calls && acker !in w.calls && id != acker
    requires key.target in c.targets && key !in w.tables.events && cursor >= 0
    requires !Covered(c, w, key.target, cursor)
    ensures exists rest, end ::
      Runs(c, w, ReadSteps(id, key.target, cursor, limit) + rest, end) && AckedUnread(c, end, key.target)
  {
    var target, log := key.target, LogOf(w, RoomOf(c, key.target));
    if cursor > Tip(log) {
      CursorBeyondTipLoses(c, w, id, acker, key, cursor, limit, json, rank, now, msgId);
    } else {
      var i :| 0 <= i < |log| && IsWakeFor(log[i], target) && log[i].seqNo <= cursor
               && (target, log[i].seqNo) !in w.returned;
      CursorBeyondUnreadLoses(c, w, id, target, cursor, limit, i);
    }
  }
}
