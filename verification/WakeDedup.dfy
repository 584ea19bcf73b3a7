/** One event, one message: what the room log and the tables agree on in every run. */
module WakeDedup {
  import opened Prelude
  import opened WakePaging
  import opened WakeStore
  import opened WakeProtocol
  import opened WakeNoLost

  predicate Holds(log: seq<Msg>, seqNo: int, key: EventKey) {
    exists i :: 0 <= i < |log| && log[i].seqNo == seqNo && log[i].wake == Some(key)
  }

  /** Every wake message belongs to a reserved event of this room. */
  predicate Reserved(t: Tables, room: string, log: seq<Msg>) {
    forall i :: 0 <= i < |log| && log[i].wake.Some? ==>
      log[i].wake.value in t.events && t.events[log[i].wake.value].room == room
  }

  /** No event has two messages in the log. */
  predicate Once(log: seq<Msg>) {
    forall i, j :: 0 <= i < j < |log| && log[i].wake.Some? ==> log[i].wake != log[j].wake
  }

  ghost predicate LogsOK(w: World) {
    forall room :: room in w.rooms ==> Increasing(w.rooms[room]) && Reserved(w.tables, room, w.rooms[room])
  }

  /** A stored sequence is that of a message of the event. */
  predicate SeqsOK(w: World) {
    forall key :: key in w.tables.events && w.tables.events[key].roomSeq.Some? ==>
      Holds(LogOf(w, w.tables.events[key].room), w.tables.events[key].roomSeq.value, key)
  }

  predicate FoundOK(c: Config, w: World, call: Call) {
    && TargetOfCall(call) in c.targets
    && (call.Located? ==> Holds(LogOf(w, RoomOf(c, call.key.target)), call.seqNo, call.key))
  }

  predicate FindsOK(c: Config, w: World) {
    forall id :: id in w.calls ==> FoundOK(c, w, w.calls[id])
  }

  ghost predicate Consistent(c: Config, w: World) {
    RowsOK(c, w.tables) && CallsOK(w) && LogsOK(w) && SeqsOK(w) && FindsOK(c, w)
  }

  lemma IncreasingPost(log: seq<Msg>, id: string, wake: Option<EventKey>)
    requires Increasing(log)
    ensures Increasing(log + [Msg(Tip(log) + 1, id, wake)])
  {
  }

  lemma HoldsPost(log: seq<Msg>, m: Msg, seqNo: int, key: EventKey)
    ensures Holds(log, seqNo, key) ==> Holds(log + [m], seqNo, key)
    ensures m.wake == Some(key) && m.seqNo == seqNo ==> Holds(log + [m], seqNo, key)
  {
    if i :| 0 <= i < |log| && log[i].seqNo == seqNo && log[i].wake == Some(key) {
      assert (log + [m])[i] == log[i];
    }
    assert (log + [m])[|log|] == m;
  }

  lemma ReservedGrows(c: Config, t: Tables, u: Tables, room: string, log: seq<Msg>)
    requires Evolves(c, t, u) && Reserved(t, room, log)
    ensures Reserved(u, room, log)
  {
  }

  /** Logs never lose or change a message. */
  predicate LogsGrow(w: World, w': World) {
    forall room :: room in w.rooms ==> room in w'.rooms && w.rooms[room] <= w'.rooms[room]
  }

  lemma RoomsGrow(c: Config, w: World, s: Step)
    requires Enabled(c, w, s)
    ensures LogsGrow(w, Next(c, w, s))
    ensures !s.Append? && !s.Foreign? ==> Next(c, w, s).rooms == w.rooms
  {
  }

  lemma HoldsGrows(w: World, w': World, room: string, seqNo: int, key: EventKey)
    requires LogsGrow(w, w') && Holds(LogOf(w, room), seqNo, key)
    ensures Holds(LogOf(w', room), seqNo, key)
  {
    var i :| 0 <= i < |LogOf(w, room)| && LogOf(w, room)[i].seqNo == seqNo && LogOf(w, room)[i].wake == Some(key);
    assert LogOf(w', room)[i] == LogOf(w, room)[i];
  }

  lemma PostKeepsLogs(w: World, room: string, msgId: string, wake: Option<EventKey>)
    requires LogsOK(w)
    requires wake.Some? ==> wake.value in w.tables.events && w.tables.events[wake.value].room == room
    ensures LogsOK(Post(w, room, msgId, wake))
  {
    var w' := Post(w, room, msgId, wake);
    forall r | r in w'.rooms ensures Increasing(w'.rooms[r]) && Reserved(w'.tables, r, w'.rooms[r]) {
      if r == room {
        IncreasingPost(LogOf(w, room), msgId, wake);
      }
    }
  }

  lemma LogsPreserved(c: Config, w: World, s: Step)
    requires Enabled(c, w, s) && Consistent(c, w)
    ensures LogsOK(Next(c, w, s))
  {
    var w' := Next(c, w, s);
    RoomsGrow(c, w, s);
    if s.Append? {
      var key := w.calls[s.id].key;
      assert CallOK(w.tables, w.calls[s.id]);
      PostKeepsLogs(w, RoomOf(c, key.target), s.msgId, Some(key));
    } else if s.Foreign? {
      PostKeepsLogs(w, s.room, s.msgId, None);
    } else {
      TablesEvolve(c, w, s);
      forall room | room in w'.rooms ensures Reserved(w'.tables, room, w'.rooms[room]) {
        ReservedGrows(c, w.tables, w'.tables, room, w.rooms[room]);
      }
    }
  }

  lemma SeqsPreserved(c: Config, w: World, s: Step)
    requires Enabled(c, w, s) && Consistent(c, w)
    ensures SeqsOK(Next(c, w, s))
  {
    var w' := Next(c, w, s);
    TablesEvolve(c, w, s);
    RoomsGrow(c, w, s);
    forall key | key in w'.tables.events && w'.tables.events[key].roomSeq.Some?
      ensures Holds(LogOf(w', w'.tables.events[key].room), w'.tables.events[key].roomSeq.value, key)
    {
      DeliveredBefore(c, w, s, key);
      if w.tables.events[key].roomSeq.Some? {
        HoldsGrows(w, w', w.tables.events[key].room, w.tables.events[key].roomSeq.value, key);
      } else {
        assert FoundOK(c, w, w.calls[s.id]);
      }
    }
  }

  lemma FoundSurvives(c: Config, w: World, w': World, call: Call)
    requires FoundOK(c, w, call) && LogsGrow(w, w')
    ensures FoundOK(c, w', call)
  {
    if call.Located? {
      HoldsGrows(w, w', RoomOf(c, call.key.target), call.seqNo, call.key);
    }
  }

  lemma FindFinds(c: Config, w: World, id: nat, key: EventKey, rank: int)
    requires key.target in c.targets
    ensures FoundOK(c, DoFind(c, w, id, key, rank), DoFind(c, w, id, key, rank).calls[id])
  {
    FirstMatchMeans(LogOf(w, RoomOf(c, key.target)), key);
  }

  lemma AppendFinds(c: Config, w: World, id: nat, key: EventKey, rank: int, msgId: string)
    requires key.target in c.targets
    ensures FoundOK(c, DoAppend(c, w, id, key, rank, msgId), DoAppend(c, w, id, key, rank, msgId).calls[id])
  {
    var log := LogOf(w, RoomOf(c, key.target));
    HoldsPost(log, Msg(Tip(log) + 1, msgId, Some(key)), Tip(log) + 1, key);
  }

  lemma FindsPreserved(c: Config, w: World, s: Step)
    requires Enabled(c, w, s) && Consistent(c, w)
    ensures FindsOK(c, Next(c, w, s))
  {
    var w' := Next(c, w, s);
    RoomsGrow(c, w, s);
    forall id | id in w'.calls ensures FoundOK(c, w', w'.calls[id]) {
      if id in w.calls && w'.calls[id] == w.calls[id] {
        FoundSurvives(c, w, w', w.calls[id]);
      } else if s.Find? {
        FindFinds(c, w, id, w.calls[id].key, w.calls[id].rank);
      } else if s.Append? {
        AppendFinds(c, w, id, w.calls[id].key, w.calls[id].rank, s.msgId);
      }
    }
  }

  lemma ConsistentPreserved(c: Config, w: World, s: Step)
    requires Enabled(c, w, s) && Consistent(c, w)
    ensures Consistent(c, Next(c, w, s))
  {
    TablesEvolve(c, w, s);
    CallsPreserved(c, w, s);
    LogsPreserved(c, w, s);
    SeqsPreserved(c, w, s);
    FindsPreserved(c, w, s);
  }

  lemma {:induction false} AlwaysConsistent(c: Config, w: World, steps: seq<Step>, end: World)
    requires Consistent(c, w) && Runs(c, w, steps, end)
    ensures Consistent(c, end)
    decreases |steps|
  {
    if steps != [] {
      ConsistentPreserved(c, w, steps[0]);
      AlwaysConsistent(c, Next(c, w, steps[0]), steps[1..], end);
    }
  }

  /** In every run, a stored sequence is a message of that event, and no other event shares it. */
  lemma StoredSequences(c: Config, steps: seq<Step>, end: World, key: EventKey, other: EventKey)
    requires Runs(c, START, steps, end)
    requires key in end.tables.events && end.tables.events[key].roomSeq.Some?
    requires other in end.tables.events && other.target == key.target
    requires end.tables.events[other].roomSeq == end.tables.events[key].roomSeq
    ensures key.target in c.targets
    ensures Holds(LogOf(end, RoomOf(c, key.target)), end.tables.events[key].roomSeq.value, key)
    ensures other == key
  {
    AlwaysConsistent(c, START, steps, end);
    var seqNo := end.tables.events[key].roomSeq.value;
    var log := LogOf(end, RoomOf(c, key.target));
    var i :| 0 <= i < |log| && log[i].seqNo == seqNo && log[i].wake == Some(key);
    var j :| 0 <= j < |log| && log[j].seqNo == seqNo && log[j].wake == Some(other);
    assert Increasing(log);
    assert i == j;
  }

  /** A stored sequence is write-once: no later step of any call changes it. */
  lemma {:induction false} SequencesAreFinal(c: Config, w: World, steps: seq<Step>, end: World, key: EventKey)
    requires Runs(c, w, steps, end)
    requires key in w.tables.events && w.tables.events[key].roomSeq.Some?
    ensures key in end.tables.events && end.tables.events[key].roomSeq == w.tables.events[key].roomSeq
    decreases |steps|
  {
    if steps != [] {
      TablesEvolve(c, w, steps[0]);
      SequencesAreFinal(c, Next(c, w, steps[0]), steps[1..], end, key);
    }
  }

  predicate Absent(log: seq<Msg>, key: EventKey) {
    forall i :: 0 <= i < |log| ==> log[i].wake != Some(key)
  }

  lemma OncePost(log: seq<Msg>, m: Msg)
    requires Once(log) && (m.wake.Some? ==> Absent(log, m.wake.value))
    ensures Once(log + [m])
  {
  }

  /** No event has two messages in any room. */
  predicate NoDuplicates(w: World) {
    forall room <- w.rooms :: Once(w.rooms[room])
  }

  /** An append of an event that its room already holds. */
  predicate Repeats(c: Config, w: World, s: Step)
    requires Enabled(c, w, s)
  {
    s.Append? && !Absent(LogOf(w, RoomOf(c, w.calls[s.id].key.target)), w.calls[s.id].key)
  }

  predicate NeverRepeats(c: Config, w: World, steps: seq<Step>)
    decreases |steps|
  {
    steps == [] || (Enabled(c, w, steps[0]) && !Repeats(c, w, steps[0])
                    && NeverRepeats(c, Next(c, w, steps[0]), steps[1..]))
  }

  lemma DuplicateStep(c: Config, w: World, s: Step)
    requires Enabled(c, w, s) && NoDuplicates(w)
    ensures NoDuplicates(Next(c, w, s)) <==> !Repeats(c, w, s)
  {
    RoomsGrow(c, w, s);
    if s.Append? {
      var key := w.calls[s.id].key;
      var room := RoomOf(c, key.target);
      var log := LogOf(w, room);
      var m := Msg(Tip(log) + 1, s.msgId, Some(key));
      assert Next(c, w, s).rooms == w.rooms[room := log + [m]];
      if Repeats(c, w, s) {
        var i :| 0 <= i < |log| && log[i].wake == Some(key);
        assert (log + [m])[i].wake == (log + [m])[|log|].wake;
      } else {
        OncePost(log, m);
      }
    } else if s.Foreign? {
      var log := LogOf(w, s.room);
      OncePost(log, Msg(Tip(log) + 1, s.msgId, None));
    }
  }

  /** Logs only grow, so a duplicate never goes away. */
  lemma DuplicateStays(c: Config, w: World, s: Step)
    requires Enabled(c, w, s) && !NoDuplicates(w)
    ensures !NoDuplicates(Next(c, w, s))
  {
    RoomsGrow(c, w, s);
    var room :| room in w.rooms && !Once(w.rooms[room]);
    var log, log' := w.rooms[room], LogOf(Next(c, w, s), room);
    assert LogOf(w, room) == log && log <= log';
    var i, j :| 0 <= i < j < |log| && log[i].wake.Some? && log[i].wake == log[j].wake;
    assert log'[i].wake.Some? && log'[i].wake == log'[j].wake;
    assert room in Next(c, w, s).rooms;
  }

  lemma {:induction false} DuplicatesStay(c: Config, w: World, steps: seq<Step>, end: World)
    requires Runs(c, w, steps, end) && !NoDuplicates(w)
    ensures !NoDuplicates(end)
    decreases |steps|
  {
    if steps != [] {
      DuplicateStays(c, w, steps[0]);
      DuplicatesStay(c, Next(c, w, steps[0]), steps[1..], end);
    }
  }

  /**
   * Durable dedup, exactly: over any run of interleaved and interrupted calls, no event ends up with
   * two messages if and only if no append was taken while the room already held its event.
   */
  lemma {:induction false} DurableDedup(c: Config, w: World, steps: seq<Step>, end: World)
    requires NoDuplicates(w) && Runs(c, w, steps, end)
    ensures NoDuplicates(end) <==> NeverRepeats(c, w, steps)
    decreases |steps|
  {
    if steps != [] {
      DuplicateStep(c, w, steps[0]);
      if Repeats(c, w, steps[0]) {
        DuplicatesStay(c, Next(c, w, steps[0]), steps[1..], end);
      } else {
        DurableDedup(c, Next(c, w, steps[0]), steps[1..], end);
      }
    }
  }

  /** A call that searched, did not find the event, and is about to append it. */
  predicate Sending(w: World, id: nat, key: EventKey) {
    id in w.calls && w.calls[id].Send? && w.calls[id].key == key
  }

  /** No two calls on one event are about to append at once. */
  predicate OneSender(w: World) {
    forall a <- w.calls, b <- w.calls ::
      w.calls[a].Send? && w.calls[b].Send? && w.calls[a].key == w.calls[b].key ==> a == b
  }

  predicate AlwaysOneSender(c: Config, w: World, steps: seq<Step>)
    decreases |steps|
  {
    && OneSender(w)
    && (steps == [] || (Enabled(c, w, steps[0]) && AlwaysOneSender(c, Next(c, w, steps[0]), steps[1..])))
  }

  predicate SendOK(c: Config, w: World, call: Call) {
    call.Send? && call.key.target in c.targets ==> Absent(LogOf(w, RoomOf(c, call.key.target)), call.key)
  }

  /** Whoever is about to append is right that the event is missing. */
  predicate SendersRight(c: Config, w: World) {
    forall id <- w.calls :: SendOK(c, w, w.calls[id])
  }

  lemma FindSends(c: Config, w: World, id: nat, key: EventKey, rank: int)
    requires key.target in c.targets
    ensures SendOK(c, DoFind(c, w, id, key, rank), DoFind(c, w, id, key, rank).calls[id])
  {
    FirstMatchMeans(LogOf(w, RoomOf(c, key.target)), key);
  }

  lemma PostSends(c: Config, w: World, room: string, msgId: string, wake: Option<EventKey>, call: Call)
    requires SendOK(c, w, call) && (call.Send? ==> wake != Some(call.key))
    ensures SendOK(c, Post(w, room, msgId, wake), call)
  {
  }

  lemma SendSurvives(c: Config, w: World, s: Step, id: nat)
    requires Enabled(c, w, s) && OneSender(w) && SendersRight(c, w)
    requires id in w.calls && (s.Append? ==> id != s.id)
    ensures SendOK(c, Next(c, w, s), w.calls[id])
  {
    assert SendOK(c, w, w.calls[id]);
    if s.Append? {
      var key := w.calls[s.id].key;
      PostSends(c, w, RoomOf(c, key.target), s.msgId, Some(key), w.calls[id]);
    } else if s.Foreign? {
      PostSends(c, w, s.room, s.msgId, None, w.calls[id]);
    } else {
      assert Next(c, w, s).rooms == w.rooms;
    }
  }

  lemma SendersStayRight(c: Config, w: World, s: Step)
    requires Enabled(c, w, s) && OneSender(w) && SendersRight(c, w)
    ensures SendersRight(c, Next(c, w, s))
  {
    var w' := Next(c, w, s);
    forall id <- w'.calls
      ensures SendOK(c, w', w'.calls[id])
    {
      if id in w.calls && w'.calls[id] == w.calls[id] {
        SendSurvives(c, w, s, id);
      } else if s.Find? {
        FindSends(c, w, id, w.calls[id].key, w.calls[id].rank);
      }
    }
  }

  /** Then no append repeats: one caller at a time on an event is enough. */
  lemma {:induction false} OneSenderNeverRepeats(c: Config, w: World, steps: seq<Step>, end: World)
    requires Runs(c, w, steps, end) && SendersRight(c, w) && AlwaysOneSender(c, w, steps)
    ensures NeverRepeats(c, w, steps)
    decreases |steps|
  {
    if steps != [] {
      assert steps[0].Append? ==> SendOK(c, w, w.calls[steps[0].id]);
      SendersStayRight(c, w, steps[0]);
      OneSenderNeverRepeats(c, Next(c, w, steps[0]), steps[1..], end);
    }
  }

  /** Read off the run: two messages of one event, in any rooms, are the same message. */
  lemma AtMostOneMessage(c: Config, steps: seq<Step>, end: World, room: string, i: nat, other: string, j: nat)
    requires Runs(c, START, steps, end) && AlwaysOneSender(c, START, steps)
    requires i < |LogOf(end, room)| && j < |LogOf(end, other)|
    requires LogOf(end, room)[i].wake.Some? && LogOf(end, room)[i].wake == LogOf(end, other)[j].wake
    ensures room == other && i == j
  {
    OneSenderNeverRepeats(c, START, steps, end);
    DurableDedup(c, START, steps, end);
    AlwaysConsistent(c, START, steps, end);
    assert Reserved(end.tables, room, LogOf(end, room)) && Reserved(end.tables, other, LogOf(end, other));
    assert Once(LogOf(end, room));
  }

  /** A call that has not got past its search and append. */
  predicate Underway(call: Call, key: EventKey) {
    (call.Search? || call.Send?) && call.key == key
  }

  ghost predicate OneUnderway(w: World) {
    forall a <- w.calls, b <- w.calls, key ::
      Underway(w.calls[a], key) && Underway(w.calls[b], key) ==> a == b
  }

  /** A call on an event starts only while no other is before its append. */
  predicate Serial(c: Config, w: World, steps: seq<Step>)
    decreases |steps|
  {
    || steps == []
    || (&& Enabled(c, w, steps[0])
        && (steps[0].WakeStart? ==> forall id <- w.calls :: !Underway(w.calls[id], steps[0].key))
        && Serial(c, Next(c, w, steps[0]), steps[1..]))
  }

  lemma OneUnderwayStep(c: Config, w: World, s: Step)
    requires Enabled(c, w, s) && OneUnderway(w)
    requires s.WakeStart? ==> forall id <- w.calls :: !Underway(w.calls[id], s.key)
    ensures OneUnderway(Next(c, w, s))
  {
    var w' := Next(c, w, s);
    forall a <- w'.calls, key | Underway(w'.calls[a], key)
      ensures (a in w.calls && Underway(w.calls[a], key)) || (s.WakeStart? && a == s.id && key == s.key)
    {
    }
  }

  /** Calls that follow one another are one sender at a time, however they crash after the append. */
  lemma {:induction false} SerialHasOneSender(c: Config, w: World, steps: seq<Step>, end: World)
    requires Runs(c, w, steps, end) && OneUnderway(w) && Serial(c, w, steps)
    ensures AlwaysOneSender(c, w, steps)
    decreases |steps|
  {
    assert forall id <- w.calls :: w.calls[id].Send? ==> Underway(w.calls[id], w.calls[id].key);
    if steps != [] {
      OneUnderwayStep(c, w, steps[0]);
      SerialHasOneSender(c, Next(c, w, steps[0]), steps[1..], end);
    }
  }

  /** From any state with two calls about to append one event, letting both do so duplicates it. */
  lemma TwoSendersDuplicate(c: Config, w: World, a: nat, b: nat, key: EventKey)
    requires Sending(w, a, key) && Sending(w, b, key) && a != b && key.target in c.targets
    ensures Enabled(c, w, Append(a, "a")) && Enabled(c, Next(c, w, Append(a, "a")), Append(b, "b"))
    ensures !NoDuplicates(Next(c, Next(c, w, Append(a, "a")), Append(b, "b")))
  {
    var room := RoomOf(c, key.target);
    var log := LogOf(w, room);
    var w1 := Next(c, w, Append(a, "a"));
    assert LogOf(w1, room) == log + [Msg(Tip(log) + 1, "a", Some(key))];
    var w2 := Next(c, w1, Append(b, "b"));
    assert LogOf(w2, room)[|log|].wake == Some(key) && LogOf(w2, room)[|log| + 1].wake == Some(key);
    assert room in w2.rooms && !Once(w2.rooms[room]);
  }

  /** Two overlapping calls on one event that have both searched an empty room. */
  lemma BothSearched(c: Config, key: EventKey, json: string, rank: int, now: int) returns (w: World)
    requires key.target in c.targets
    ensures w.calls == map[0 := Send(key, rank), 1 := Send(key, rank)] && w.rooms == map[]
    ensures var s0, s1 := WakeStart(0, key, json, rank, now), WakeStart(1, key, json, rank, now);
            forall rest, end :: Runs(c, w, rest, end) ==>
              Runs(c, START, [s0] + ([s1] + ([Find(0)] + ([Find(1)] + rest))), end)
  {
    var s0, s1 := WakeStart(0, key, json, rank, now), WakeStart(1, key, json, rank, now);
    var w1 := Next(c, START, s0);
    var w2 := Next(c, w1, s1);
    assert w2.calls == map[0 := Search(key, rank), 1 := Search(key, rank)];
    var w3 := Next(c, w2, Find(0));
    w := Next(c, w3, Find(1));
    forall rest, end | Runs(c, w, rest, end)
      ensures Runs(c, START, [s0] + ([s1] + ([Find(0)] + ([Find(1)] + rest))), end)
    {
      RunsCons(c, w3, Find(1), rest, end);
      RunsCons(c, w2, Find(0), [Find(1)] + rest, end);
      RunsCons(c, w1, s1, [Find(0)] + ([Find(1)] + rest), end);
      RunsCons(c, START, s0, [s1] + ([Find(0)] + ([Find(1)] + rest)), end);
    }
  }

  /** It happens from the empty bridge on: two calls search before either appends. */
  lemma OverlapAppendsTwice(c: Config, key: EventKey, json: string, rank: int, now: int)
    requires key.target in c.targets
    ensures exists steps, end :: Runs(c, START, steps, end) && !NoDuplicates(end)
  {
    var w := BothSearched(c, key, json, rank, now);
    TwoSendersDuplicate(c, w, 0, 1, key);
    var w' := Next(c, w, Append(0, "a"));
    var end := Next(c, w', Append(1, "b"));
    RunsOne(c, w', Append(1, "b"));
    RunsCons(c, w, Append(0, "a"), [Append(1, "b")], end);
    var s0, s1 := WakeStart(0, key, json, rank, now), WakeStart(1, key, json, rank, now);
    assert Runs(c, START, [s0] + ([s1] + ([Find(0)] + ([Find(1)] + ([Append(0, "a")] + [Append(1, "b")])))), end);
  }
}
