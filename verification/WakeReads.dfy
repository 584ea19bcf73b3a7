/** The two cursors of a target, what a fetched page holds, and what recorded reads have handed out. */
module WakeReads {
  import opened Prelude
  import opened WakePaging
  import opened WakeStore
  import opened WakeProtocol
  import opened WakeNoLost
  import opened WakeDedup

  predicate CursorOK(row: TargetRow) {
    0 <= row.lastAcked <= row.maxRead
  }

  predicate CursorsOK(t: Tables) {
    forall target :: target in t.targets ==> CursorOK(t.targets[target])
  }

  predicate ReadOK(call: Call) {
    (call.Reading? || call.Fetched? ==> call.after >= 0)
    && (call.Fetched? ==> Highest(call.after, call.items) >= call.after)
  }

  predicate ReadsOK(w: World) {
    forall id :: id in w.calls ==> ReadOK(w.calls[id])
  }

  /** What was gathered comes from the log, in log order. */
  lemma {:induction false} GatheredFrom(log: seq<Msg>, target: string, start: nat, q: nat, k: nat) returns (i: nat)
    requires q <= |log| && k < |Gathered(log, target, start, q)|
    ensures start <= i < q && log[i] == Gathered(log, target, start, q)[k]
    ensures |Gathered(log, target, start, i)| == k
  {
    if k < |Gathered(log, target, start, q - 1)| {
      i := GatheredFrom(log, target, start, q - 1, k);
    } else {
      i := q - 1;
    }
  }

  /** Every wake message in range was gathered, at the position given by those before it. */
  lemma {:induction false} GatheredHas(log: seq<Msg>, target: string, start: nat, q: nat, i: nat)
    requires start <= i < q <= |log| && IsWakeFor(log[i], target)
    ensures |Gathered(log, target, start, i)| < |Gathered(log, target, start, q)|
    ensures Gathered(log, target, start, q)[|Gathered(log, target, start, i)|] == log[i]
  {
    if i < q - 1 {
      GatheredHas(log, target, start, q - 1, i);
    }
  }

  lemma InboxAbove(log: seq<Msg>, target: string, after: int, limit: nat)
    requires Increasing(log)
    ensures var items := Inbox(log, |log|, target, after, limit);
            && Highest(after, items) >= after
            && (items != [] ==> Highest(after, items) <= Tip(log))
  {
    var start := Pos(log, after);
    PosMeans(log, after);
    var items := Inbox(log, |log|, target, after, limit);
    if items != [] {
      var i := GatheredFrom(log, target, start, |log|, |items| - 1);
    }
  }

  /** An inbox page has no holes: it holds every wake message between the cursor and its last one. */
  lemma InboxComplete(log: seq<Msg>, target: string, after: int, limit: nat, i: nat)
    requires Increasing(log) && i < |log| && IsWakeFor(log[i], target)
    requires after < log[i].seqNo <= Highest(after, Inbox(log, |log|, target, after, limit))
    ensures log[i] in Inbox(log, |log|, target, after, limit)
  {
    var start := Pos(log, after);
    PosMeans(log, after);
    var items := Inbox(log, |log|, target, after, limit);
    var last := GatheredFrom(log, target, start, |log|, |items| - 1);
    assert start <= i <= last;
    GatheredHas(log, target, start, |log|, i);
    GatheredGrows(log, target, start, i, last);
    assert items[|Gathered(log, target, start, i)|] == log[i];
  }

  lemma CursorsPreserved(c: Config, w: World, s: Step)
    requires Enabled(c, w, s) && CursorsOK(w.tables) && ReadsOK(w)
    ensures CursorsOK(Next(c, w, s).tables)
  {
    if s.RecordStep? {
      assert ReadOK(w.calls[s.id]);
    }
  }

  lemma ReadsPreserved(c: Config, w: World, s: Step)
    requires Enabled(c, w, s) && ReadsOK(w) && LogsOK(w)
    ensures ReadsOK(Next(c, w, s))
  {
    if s.Fetch? {
      var call := w.calls[s.id];
      assert ReadOK(call);
      InboxAbove(LogOf(w, RoomOf(c, call.target)), call.target, call.after, call.limit);
    }
  }

  /** In every run the cursors stay ordered, whatever cursors readers and acknowledgers pass. */
  lemma {:induction false} CursorsAlwaysOrdered(c: Config, w: World, steps: seq<Step>, end: World)
    requires CursorsOK(w.tables) && ReadsOK(w) && Consistent(c, w) && Runs(c, w, steps, end)
    ensures CursorsOK(end.tables) && ReadsOK(end)
    ensures forall target :: target in w.tables.targets ==>
              target in end.tables.targets && MovesUp(w.tables.targets[target], end.tables.targets[target])
    decreases |steps|
  {
    if steps != [] {
      CursorsPreserved(c, w, steps[0]);
      ReadsPreserved(c, w, steps[0]);
      ConsistentPreserved(c, w, steps[0]);
      TablesEvolve(c, w, steps[0]);
      CursorsAlwaysOrdered(c, Next(c, w, steps[0]), steps[1..], end);
    }
  }

  function MaxRead(w: World, target: string): int {
    TargetOf(w.tables, target).maxRead
  }

  /** A wake message of the target between the cursor and the last message of the page. */
  predicate OnPage(m: Msg, call: Call)
    requires call.Fetched?
  {
    IsWakeFor(m, call.target) && call.after < m.seqNo <= Highest(call.after, call.items)
  }

  /** A page holds messages of the log above its cursor, and every wake message up to its last one. */
  predicate PageOK(log: seq<Msg>, call: Call)
    requires call.Fetched?
  {
    && (forall m <- call.items :: call.after < m.seqNo <= Tip(log))
    && (forall i :: 0 <= i < |log| && OnPage(log[i], call) ==> log[i] in call.items)
  }

  predicate PageOf(c: Config, w: World, call: Call) {
    call.Fetched? && call.target in c.targets ==> PageOK(LogOf(w, RoomOf(c, call.target)), call)
  }

  predicate PagesOK(c: Config, w: World) {
    forall id :: id in w.calls ==> PageOf(c, w, w.calls[id])
  }

  /** Nothing is handed out that is not in the log yet. */
  predicate ReturnedOK(c: Config, w: World) {
    forall p <- w.returned :: p.0 in c.targets ==> p.1 <= Tip(LogOf(w, RoomOf(c, p.0)))
  }

  ghost predicate ReadInv(c: Config, w: World) {
    Consistent(c, w) && CursorsOK(w.tables) && ReadsOK(w) && PagesOK(c, w) && ReturnedOK(c, w)
  }

  lemma ItemsAbove(log: seq<Msg>, target: string, after: int, limit: nat)
    requires Increasing(log)
    ensures forall m :: m in Inbox(log, |log|, target, after, limit) ==> after < m.seqNo <= Tip(log)
  {
    var items := Inbox(log, |log|, target, after, limit);
    PosMeans(log, after);
    forall m | m in items ensures after < m.seqNo <= Tip(log) {
      var k :| 0 <= k < |items| && items[k] == m;
      var i := GatheredFrom(log, target, Pos(log, after), |log|, k);
    }
  }

  lemma FetchPage(log: seq<Msg>, target: string, after: int, limit: nat)
    requires Increasing(log)
    ensures PageOK(log, Fetched(target, after, Inbox(log, |log|, target, after, limit)))
  {
    var call := Fetched(target, after, Inbox(log, |log|, target, after, limit));
    ItemsAbove(log, target, after, limit);
    forall i | 0 <= i < |log| && OnPage(log[i], call) ensures log[i] in call.items {
      InboxComplete(log, target, after, limit, i);
    }
  }

  lemma PagePost(log: seq<Msg>, m: Msg, call: Call)
    requires Increasing(log) && m.seqNo == Tip(log) + 1 && call.Fetched? && PageOK(log, call)
    ensures PageOK(log + [m], call)
  {
    if call.items != [] {
      assert call.items[|call.items| - 1] in call.items;
    }
  }

  lemma PostPages(c: Config, w: World, room: string, msgId: string, wake: Option<EventKey>, call: Call)
    requires LogsOK(w) && PageOf(c, w, call)
    ensures PageOf(c, Post(w, room, msgId, wake), call)
  {
    if call.Fetched? && call.target in c.targets && room == RoomOf(c, call.target) {
      PagePost(LogOf(w, room), Msg(Tip(LogOf(w, room)) + 1, msgId, wake), call);
    }
  }

  /** What a step does to the rooms. */
  lemma RoomsAfter(c: Config, w: World, s: Step)
    requires Enabled(c, w, s)
    ensures s.Append? ==>
              var key := w.calls[s.id].key;
              Next(c, w, s).rooms == Post(w, RoomOf(c, key.target), s.msgId, Some(key)).rooms
    ensures s.Foreign? ==> Next(c, w, s).rooms == Post(w, s.room, s.msgId, None).rooms
    ensures !s.Append? && !s.Foreign? ==> Next(c, w, s).rooms == w.rooms
  {
    RoomsGrow(c, w, s);
  }

  lemma PageSurvives(c: Config, w: World, s: Step, call: Call)
    requires Enabled(c, w, s) && LogsOK(w) && PageOf(c, w, call)
    ensures PageOf(c, Next(c, w, s), call)
  {
    RoomsAfter(c, w, s);
    if s.Append? {
      PostPages(c, w, RoomOf(c, w.calls[s.id].key.target), s.msgId, Some(w.calls[s.id].key), call);
    } else if s.Foreign? {
      PostPages(c, w, s.room, s.msgId, None, call);
    }
  }

  /** Which pages a step creates. */
  lemma NewPage(c: Config, w: World, s: Step, id: nat)
    requires Enabled(c, w, s) && id in Next(c, w, s).calls && Next(c, w, s).calls[id].Fetched?
    ensures (id in w.calls && Next(c, w, s).calls[id] == w.calls[id]) || (s.Fetch? && id == s.id)
  {
  }

  lemma PagesPreserved(c: Config, w: World, s: Step)
    requires Enabled(c, w, s) && LogsOK(w) && PagesOK(c, w)
    ensures PagesOK(c, Next(c, w, s))
  {
    var w' := Next(c, w, s);
    forall id | id in w'.calls && w'.calls[id].Fetched? ensures PageOf(c, w', w'.calls[id]) {
      NewPage(c, w, s, id);
      if id in w.calls && w'.calls[id] == w.calls[id] {
        PageSurvives(c, w, s, w.calls[id]);
      } else {
        var call := w.calls[id];
        FetchPage(LogOf(w, RoomOf(c, call.target)), call.target, call.after, call.limit);
      }
    }
  }

  lemma OnlyRecordsReturn(c: Config, w: World, s: Step)
    requires Enabled(c, w, s)
    ensures !s.RecordStep? ==> Next(c, w, s).returned == w.returned
  {
  }

  lemma TipsGrow(c: Config, w: World, s: Step, room: string)
    requires Enabled(c, w, s) && LogsOK(w)
    ensures Tip(LogOf(w, room)) <= Tip(LogOf(Next(c, w, s), room))
  {
    RoomsAfter(c, w, s);
  }

  lemma ReturnedPreserved(c: Config, w: World, s: Step)
    requires Enabled(c, w, s) && LogsOK(w) && PagesOK(c, w) && ReturnedOK(c, w)
    ensures ReturnedOK(c, Next(c, w, s))
  {
    var w' := Next(c, w, s);
    OnlyRecordsReturn(c, w, s);
    forall p <- w'.returned | p.0 in c.targets ensures p.1 <= Tip(LogOf(w', RoomOf(c, p.0))) {
      TipsGrow(c, w, s, RoomOf(c, p.0));
      if p !in w.returned {
        assert PageOf(c, w, w.calls[s.id]);
      }
    }
  }

  lemma ReadInvPreserved(c: Config, w: World, s: Step)
    requires Enabled(c, w, s) && ReadInv(c, w)
    ensures ReadInv(c, Next(c, w, s))
  {
    ConsistentPreserved(c, w, s);
    CursorsPreserved(c, w, s);
    ReadsPreserved(c, w, s);
    PagesPreserved(c, w, s);
    ReturnedPreserved(c, w, s);
  }

  /** The page above a cursor. */
  function InboxOf(c: Config, w: World, target: string, after: int, limit: nat): seq<Msg>
    requires target in c.targets
  {
    var log := LogOf(w, RoomOf(c, target));
    Inbox(log, |log|, target, after, limit)
  }

  /** A whole read that no other call interleaves with. */
  function ReadAlone(c: Config, w: World, id: nat, target: string, cursor: int, limit: nat): World
    requires target in c.targets
  {
    DoRecord(w, id, Fetched(target, cursor, InboxOf(c, w, target, cursor, limit)))
  }

  /** Where a read starts: at the caller's cursor, or at the acknowledged one. */
  function ReadCursor(w: World, target: string, from: Option<int>): int {
    if from.Some? then from.value else TargetOf(w.tables, target).lastAcked
  }

  /** The three protocol steps of a read, with nothing in between. */
  lemma ReadAloneRuns(c: Config, w: World, id: nat, target: string, from: Option<int>, limit: Option<nat>)
    requires id !in w.calls && target in c.targets && ReadCursor(w, target, from) >= 0
    ensures Runs(c, w, [ReadStart(id, target, from, limit), Fetch(id), RecordStep(id)],
                 ReadAlone(c, w, id, target, ReadCursor(w, target, from), LimitOf(limit)))
  {
    var w1 := Next(c, w, ReadStart(id, target, from, limit));
    var w2 := Next(c, w1, Fetch(id));
    var w3 := Next(c, w2, RecordStep(id));
    assert w3 == ReadAlone(c, w, id, target, ReadCursor(w, target, from), LimitOf(limit)) by {
      assert w3.calls == w.calls == w.calls - {id};
    }
    RunsOne(c, w2, RecordStep(id));
    RunsCons(c, w1, Fetch(id), [RecordStep(id)], w3);
    RunsCons(c, w, ReadStart(id, target, from, limit), [Fetch(id)] + [RecordStep(id)], w3);
    assert [ReadStart(id, target, from, limit)] + ([Fetch(id)] + [RecordStep(id)])
        == [ReadStart(id, target, from, limit), Fetch(id), RecordStep(id)];
  }
}
