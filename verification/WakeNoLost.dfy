/** No wake is lost: every pending eligible event is claimed, owed by a call, or excused by a failure. */
module WakeNoLost {
  import opened Prelude
  import opened WakePaging
  import opened WakeStore
  import opened WakeProtocol

  predicate RowsOK(c: Config, t: Tables) {
    forall key :: key in t.events ==> key.target in c.targets && t.events[key].room == RoomOf(c, key.target)
  }

  /** What an in-flight call knows about the tables. */
  predicate CallOK(t: Tables, call: Call) {
    match call
    case Search(key, rank) => key in t.events && t.events[key].hintRank == rank
    case Send(key, rank) => key in t.events && t.events[key].hintRank == rank
    case Located(key, rank, _, _) => key in t.events && t.events[key].hintRank == rank
    case Deliver(key, rank, seqNo) =>
      key in t.events && t.events[key].hintRank == rank && t.events[key].roomSeq == Some(seqNo)
    case FollowupFetch(target, seqNo) => HasDelivered(t, target, seqNo)
    case _ => true
  }

  predicate CallsOK(w: World) {
    forall id :: id in w.calls ==> CallOK(w.tables, w.calls[id])
  }

  /** The call will still try to claim a wake for every event of the target up to `seqNo`. */
  predicate Covers(c: Config, call: Call, target: string, seqNo: int) {
    && Owing(c, call)
    && TargetOfCall(call) == target
    && (call.Followup? || seqNo <= call.seqNo)
  }

  predicate Owed(c: Config, w: World, target: string, seqNo: int) {
    exists id :: id in w.calls && Covers(c, w.calls[id], target, seqNo)
  }

  /** Delivered, above the acknowledged cursor, and wanted by the recipient's policy. */
  predicate Wanted(c: Config, w: World, key: EventKey) {
    key.target in c.targets && Pending(w.tables, key, key.target, Some(MinRank(c, key.target)))
  }

  predicate Attended(c: Config, w: World, target: string, seqNo: int) {
    Claimed(w, target) || target in w.excused || Owed(c, w, target, seqNo)
  }

  predicate NoneLost(c: Config, w: World) {
    forall key :: key in w.tables.events && Wanted(c, w, key) ==>
      Attended(c, w, key.target, w.tables.events[key].roomSeq.value)
  }

  predicate Inv(c: Config, w: World) {
    RowsOK(c, w.tables) && CallsOK(w) && NoneLost(c, w)
  }

  /** Rows are only added or gain their sequence; acknowledged and read cursors only move up. */
  predicate Evolves(c: Config, t: Tables, u: Tables) {
    && (forall key :: key in t.events ==> key in u.events && KeepsRow(t.events[key], u.events[key]))
    && (forall key :: key in u.events && key !in t.events ==>
          key.target in c.targets && u.events[key].room == RoomOf(c, key.target))
    && (forall target :: target in t.targets ==> target in u.targets && MovesUp(t.targets[target], u.targets[target]))
    && (forall target :: target in u.targets && target !in t.targets ==> u.targets[target].lastAcked == 0)
  }

  predicate KeepsRow(a: EventRow, b: EventRow) {
    b.hintRank == a.hintRank && b.room == a.room && (a.roomSeq.Some? ==> b.roomSeq == a.roomSeq)
  }

  predicate MovesUp(a: TargetRow, b: TargetRow) {
    a.lastAcked <= b.lastAcked && a.maxRead <= b.maxRead
  }

  lemma ReserveEvolves(c: Config, t: Tables, key: EventKey, json: string, rank: int, now: int)
    requires key.target in c.targets
    ensures Evolves(c, t, Reserve(t, key, json, RoomOf(c, key.target), rank, now).0)
  {
  }

  lemma MarkEvolves(c: Config, t: Tables, key: EventKey, seqNo: int, id: string)
    ensures MarkDelivered(t, key, seqNo, id).Ok? ==> Evolves(c, t, MarkDelivered(t, key, seqNo, id).value)
  {
  }

  lemma ClaimEvolves(c: Config, t: Tables, target: string, observed: int, now: int)
    ensures Evolves(c, t, Claim(t, target, observed, now, c.lease).0)
  {
  }

  lemma TargetOpsEvolve(c: Config, t: Tables, target: string, n: int)
    ensures Evolves(c, t, Release(t, target))
    ensures Evolves(c, t, RecordRead(t, target, n))
    ensures Acknowledge(t, target, n).Ok? ==> Evolves(c, t, Acknowledge(t, target, n).value)
  {
  }

  lemma Unchanged(c: Config, t: Tables)
    ensures Evolves(c, t, t)
  {
  }

  lemma TablesEvolve(c: Config, w: World, s: Step)
    requires Enabled(c, w, s)
    ensures Evolves(c, w.tables, Next(c, w, s).tables)
  {
    Unchanged(c, w.tables);
    if s.WakeStart? {
      ReserveEvolves(c, w.tables, s.key, s.json, s.rank, s.now);
    } else if s.Mark? {
      MarkEvolves(c, w.tables, w.calls[s.id].key, w.calls[s.id].seqNo, w.calls[s.id].msgId);
    } else if s.Trigger? {
      ClaimEvolves(c, w.tables, TargetOfCall(w.calls[s.id]), w.calls[s.id].seqNo, s.now);
    } else if s.WakeFail? {
      TargetOpsEvolve(c, w.tables, w.calls[s.id].target, 0);
    } else if s.AckStart? {
      TargetOpsEvolve(c, w.tables, s.target, s.cursor);
    } else if s.RecordStep? {
      TargetOpsEvolve(c, w.tables, w.calls[s.id].target, Highest(w.calls[s.id].after, w.calls[s.id].items));
    } else {
      assert Next(c, w, s).tables == w.tables;
    }
  }

  lemma CallSurvives(c: Config, t: Tables, u: Tables, call: Call)
    requires CallOK(t, call) && Evolves(c, t, u)
    ensures CallOK(u, call)
  {
    if call.FollowupFetch? {
      var key :| key in t.events && key.target == call.target && t.events[key].roomSeq == Some(call.seqNo);
      assert key in u.events && u.events[key].roomSeq == Some(call.seqNo);
    }
  }

  lemma CallsPreserved(c: Config, w: World, s: Step)
    requires Enabled(c, w, s) && CallsOK(w)
    ensures CallsOK(Next(c, w, s))
  {
    var w' := Next(c, w, s);
    TablesEvolve(c, w, s);
    forall id | id in w'.calls ensures CallOK(w'.tables, w'.calls[id]) {
      if id in w.calls && w'.calls[id] == w.calls[id] {
        CallSurvives(c, w.tables, w'.tables, w.calls[id]);
      } else if s.QueryPending? {
        var target := w.calls[id].target;
        var top := MaxSeq(PendingSeqs(w.tables, target, Some(MinRank(c, target))));
        assert top.value in PendingSeqs(w.tables, target, Some(MinRank(c, target)));
      }
    }
  }

  predicate OthersKept(w: World, w': World, id: nat) {
    forall other :: other in w.calls && other != id ==> other in w'.calls && w'.calls[other] == w.calls[other]
  }

  lemma StepKeepsOthers(c: Config, w: World, s: Step)
    requires Enabled(c, w, s) && !s.Foreign?
    ensures OthersKept(w, Next(c, w, s), s.id)
  {
  }

  /** What attended an event still does, unless it was the stepping call, the claim or the excuse. */
  lemma StillAttended(c: Config, w: World, w': World, id: nat, target: string, seqNo: int)
    requires Attended(c, w, target, seqNo) && OthersKept(w, w', id)
    requires Claimed(w, target) ==> Attended(c, w', target, seqNo)
    requires target in w.excused ==> Attended(c, w', target, seqNo)
    requires id in w.calls && Covers(c, w.calls[id], target, seqNo) ==> Attended(c, w', target, seqNo)
    ensures Attended(c, w', target, seqNo)
  {
    if Owed(c, w, target, seqNo) {
      var other :| other in w.calls && Covers(c, w.calls[other], target, seqNo);
      if other != id {
        assert other in w'.calls && Covers(c, w'.calls[other], target, seqNo);
      }
    }
  }

  lemma OwedBy(c: Config, w: World, id: nat, target: string, seqNo: int)
    requires id in w.calls && Covers(c, w.calls[id], target, seqNo)
    ensures Attended(c, w, target, seqNo)
  {
  }

  /** A claim attempt for a sequence leaves nothing up to it both pending and unclaimed. */
  lemma ClaimAttends(c: Config, w: World, id: nat, target: string, observed: int, now: int, key: EventKey)
    requires key in w.tables.events && key.target == target
    requires Wanted(c, DoClaim(c, w, id, target, observed, now), key)
    requires w.tables.events[key].roomSeq.Some? && w.tables.events[key].roomSeq.value <= observed
    ensures Claimed(DoClaim(c, w, id, target, observed, now), target)
  {
  }

  lemma TriggerAttends(c: Config, w: World, id: nat, now: int, key: EventKey, seqNo: int)
    requires Enabled(c, w, Trigger(id, now)) && OthersKept(w, DoTrigger(c, w, id, w.calls[id], now), id)
    requires key in w.tables.events && w.tables.events[key].roomSeq == Some(seqNo)
    requires Wanted(c, DoTrigger(c, w, id, w.calls[id], now), key)
    requires Attended(c, w, key.target, seqNo)
    ensures Attended(c, DoTrigger(c, w, id, w.calls[id], now), key.target, seqNo)
  {
    var w' := DoTrigger(c, w, id, w.calls[id], now);
    var call := w.calls[id];
    if Covers(c, call, key.target, seqNo) {
      ClaimAttends(c, w, id, key.target, call.seqNo, now, key);
    }
    StillAttended(c, w, w', id, key.target, seqNo);
  }

  lemma AckAttends(c: Config, w: World, id: nat, target: string, cursor: int, key: EventKey, seqNo: int)
    requires id !in w.calls && OthersKept(w, DoAckStart(w, id, target, cursor), id)
    requires Attended(c, w, key.target, seqNo)
    ensures Attended(c, DoAckStart(w, id, target, cursor), key.target, seqNo)
  {
    var w' := DoAckStart(w, id, target, cursor);
    if id in w'.calls && key.target == target {
      OwedBy(c, w', id, target, seqNo);
    } else {
      StillAttended(c, w, w', id, key.target, seqNo);
    }
  }

  lemma QueryAttends(c: Config, w: World, id: nat, target: string, key: EventKey, seqNo: int)
    requires id in w.calls && w.calls[id] == Followup(target) && target in c.targets
    requires OthersKept(w, DoQueryPending(c, w, id, target), id)
    requires key in w.tables.events && w.tables.events[key].roomSeq == Some(seqNo) && Wanted(c, w, key)
    requires Attended(c, w, key.target, seqNo)
    ensures Attended(c, DoQueryPending(c, w, id, target), key.target, seqNo)
  {
    var w' := DoQueryPending(c, w, id, target);
    if key.target == target {
      assert seqNo in PendingSeqs(w.tables, target, Some(MinRank(c, target)));
      OwedBy(c, w', id, target, seqNo);
    } else {
      StillAttended(c, w, w', id, key.target, seqNo);
    }
  }

  lemma LoadAttends(c: Config, w: World, id: nat, target: string, top: int, key: EventKey, seqNo: int)
    requires id in w.calls && w.calls[id] == FollowupFetch(target, top) && HasDelivered(w.tables, target, top)
    requires OthersKept(w, DoLoadEvent(w, id, target, top), id)
    requires Attended(c, w, key.target, seqNo)
    ensures Attended(c, DoLoadEvent(w, id, target, top), key.target, seqNo)
  {
    var w' := DoLoadEvent(w, id, target, top);
    if key.target == target && seqNo <= top {
      OwedBy(c, w', id, target, seqNo);
    } else {
      StillAttended(c, w, w', id, key.target, seqNo);
    }
  }

  lemma GiveUpAttends(c: Config, w: World, id: nat, target: string, seqNo: int)
    requires id in w.calls && Attended(c, w, target, seqNo)
    ensures w.calls[id].Waking? ==> Attended(c, DoWakeFail(w, id, w.calls[id].target), target, seqNo)
    ensures Attended(c, DoAbort(c, w, id, w.calls[id]), target, seqNo)
  {
    if w.calls[id].Waking? {
      StillAttended(c, w, DoWakeFail(w, id, w.calls[id].target), id, target, seqNo);
    }
    StillAttended(c, w, DoAbort(c, w, id, w.calls[id]), id, target, seqNo);
  }

  predicate Quiet(s: Step) {
    s.WakeStart? || s.Find? || s.Append? || s.Mark? || s.WakeOk? || s.ReadStart? || s.Fetch? || s.RecordStep?
  }

  lemma QuietAttends(c: Config, w: World, s: Step, target: string, seqNo: int)
    requires Enabled(c, w, s) && Quiet(s)
    requires Attended(c, w, target, seqNo)
    ensures Attended(c, Next(c, w, s), target, seqNo)
  {
    var w' := Next(c, w, s);
    StepKeepsOthers(c, w, s);
    assert TargetOf(w'.tables, target).claimedAt == TargetOf(w.tables, target).claimedAt;
    assert w'.excused == w.excused;
    StillAttended(c, w, w', s.id, target, seqNo);
  }

  /** The step lemma for an event that was already delivered before the step. */
  lemma AttendedPreserved(c: Config, w: World, s: Step, key: EventKey, seqNo: int)
    requires Enabled(c, w, s) && Inv(c, w)
    requires key in w.tables.events && w.tables.events[key].roomSeq == Some(seqNo)
    requires Wanted(c, Next(c, w, s), key) && Wanted(c, w, key)
    ensures Attended(c, Next(c, w, s), key.target, seqNo)
  {
    assert Attended(c, w, key.target, seqNo);
    if s.Foreign? {
      var w' := Next(c, w, s);
      assert w'.calls == w.calls && w'.tables == w.tables && w'.excused == w.excused;
    } else if Quiet(s) {
      QuietAttends(c, w, s, key.target, seqNo);
    } else {
      StepKeepsOthers(c, w, s);
      if s.Trigger? {
        TriggerAttends(c, w, s.id, s.now, key, seqNo);
      } else if s.AckStart? {
        AckAttends(c, w, s.id, s.target, s.cursor, key, seqNo);
      } else if s.QueryPending? {
        QueryAttends(c, w, s.id, w.calls[s.id].target, key, seqNo);
      } else if s.LoadEvent? {
        assert CallOK(w.tables, w.calls[s.id]);
        LoadAttends(c, w, s.id, w.calls[s.id].target, w.calls[s.id].seqNo, key, seqNo);
      } else {
        GiveUpAttends(c, w, s.id, key.target, seqNo);
      }
    }
  }

  /** Only a mark gives a row its sequence, and no step invents a delivered row. */
  lemma DeliveredBefore(c: Config, w: World, s: Step, key: EventKey)
    requires Enabled(c, w, s)
    requires key in Next(c, w, s).tables.events && Next(c, w, s).tables.events[key].roomSeq.Some?
    ensures key in w.tables.events
    ensures w.tables.events[key].roomSeq.None? ==> s.Mark? && w.calls[s.id].key == key
  {
  }

  /** Acknowledging only shrinks what is wanted, and only recording a delivery adds to it. */
  lemma WantedBefore(c: Config, t: Tables, u: Tables, key: EventKey)
    requires Evolves(c, t, u) && key in t.events && key.target in c.targets
    requires t.events[key].roomSeq.Some? && Pending(u, key, key.target, Some(MinRank(c, key.target)))
    ensures Pending(t, key, key.target, Some(MinRank(c, key.target))) && u.events[key].roomSeq == t.events[key].roomSeq
  {
  }

  lemma MarkAttends(c: Config, w: World, id: nat, key: EventKey)
    requires Enabled(c, w, Mark(id)) && CallsOK(w) && w.calls[id].key == key
    requires key in w.tables.events && w.tables.events[key].roomSeq.None?
    requires key in Next(c, w, Mark(id)).tables.events && Wanted(c, Next(c, w, Mark(id)), key)
    ensures Attended(c, Next(c, w, Mark(id)), key.target, Next(c, w, Mark(id)).tables.events[key].roomSeq.value)
  {
    var w' := Next(c, w, Mark(id));
    assert CallOK(w.tables, w.calls[id]);
    OwedBy(c, w', id, key.target, w.calls[id].seqNo);
  }

  /** The inductive step: no step of any call, crash or failure loses a wake. */
  lemma InvPreserved(c: Config, w: World, s: Step)
    requires Enabled(c, w, s) && Inv(c, w)
    ensures Inv(c, Next(c, w, s))
  {
    var w' := Next(c, w, s);
    TablesEvolve(c, w, s);
    CallsPreserved(c, w, s);
    forall key | key in w'.tables.events && Wanted(c, w', key)
      ensures Attended(c, w', key.target, w'.tables.events[key].roomSeq.value)
    {
      DeliveredBefore(c, w, s, key);
      if w.tables.events[key].roomSeq.Some? {
        WantedBefore(c, w.tables, w'.tables, key);
        AttendedPreserved(c, w, s, key, w.tables.events[key].roomSeq.value);
      } else {
        MarkAttends(c, w, s.id, key);
      }
    }
  }

  /** No lost wake, over every run from the empty bridge. */
  lemma {:induction false} NoLostWake(c: Config, w: World, steps: seq<Step>, end: World)
    requires Inv(c, w) && Runs(c, w, steps, end)
    ensures Inv(c, end)
    decreases |steps|
  {
    if steps != [] {
      InvPreserved(c, w, steps[0]);
      NoLostWake(c, Next(c, w, steps[0]), steps[1..], end);
    }
  }

  /** No call is in a position to still claim a wake for the target. */
  predicate Settled(c: Config, w: World, target: string) {
    forall id :: id in w.calls && TargetOfCall(w.calls[id]) == target ==> !Owing(c, w.calls[id])
  }

  /** The step takes the target's claim and goes on to wake it. */
  predicate Claims(c: Config, w: World, s: Step, target: string) {
    && Enabled(c, w, s) && s.Trigger?
    && s.id in Next(c, w, s).calls && Next(c, w, s).calls[s.id] == Waking(target)
  }

  /** A failed wake of the target, or the interruption of a call that owed it one while nobody had it. */
  predicate GivesUpOn(c: Config, w: World, s: Step, target: string) {
    && Enabled(c, w, s) && (s.WakeFail? || s.Abort?) && TargetOfCall(w.calls[s.id]) == target
    && (s.Abort? ==> Owing(c, w.calls[s.id]) && !Claimed(w, target))
  }

  /** The target is claimed anew, or acknowledged, and then the acknowledging call owes it a wake. */
  predicate Resumes(c: Config, w: World, s: Step, target: string) {
    || Claims(c, w, s, target)
    || (s.AckStart? && s.target == target && Acknowledge(w.tables, target, s.cursor).Ok?)
  }

  /** What a run did to a target last: it gave its wake up, and nothing resumed it. */
  predicate GivenUp(c: Config, w: World, steps: seq<Step>, target: string)
    decreases |steps|
  {
    && steps != [] && Enabled(c, w, steps[0])
    && var rest, w' := steps[1..], Next(c, w, steps[0]);
       GivenUp(c, w', rest, target) || (GivesUpOn(c, w, steps[0], target) && NeverResumed(c, w', rest, target))
  }

  predicate NeverResumed(c: Config, w: World, steps: seq<Step>, target: string)
    decreases |steps|
  {
    steps == [] || (Enabled(c, w, steps[0]) && !Resumes(c, w, steps[0], target)
                    && NeverResumed(c, Next(c, w, steps[0]), steps[1..], target))
  }

  lemma ExcuseStep(c: Config, w: World, s: Step, target: string)
    requires Enabled(c, w, s)
    ensures target in Next(c, w, s).excused <==>
              GivesUpOn(c, w, s, target) || (target in w.excused && !Resumes(c, w, s, target))
  {
  }

  /** The excused targets are those whose wake was given up last. */
  lemma {:induction false} ExcusedIsGivenUp(c: Config, w: World, steps: seq<Step>, end: World, target: string)
    requires Runs(c, w, steps, end)
    ensures target in end.excused <==>
              GivenUp(c, w, steps, target) || (target in w.excused && NeverResumed(c, w, steps, target))
    decreases |steps|
  {
    if steps != [] {
      ExcuseStep(c, w, steps[0], target);
      ExcusedIsGivenUp(c, Next(c, w, steps[0]), steps[1..], end, target);
    }
  }

  predicate ExcusedUnclaimed(w: World) {
    forall target <- w.excused :: !Claimed(w, target)
  }

  lemma ExcusedUnclaimedStep(c: Config, w: World, s: Step)
    requires Enabled(c, w, s) && ExcusedUnclaimed(w)
    ensures ExcusedUnclaimed(Next(c, w, s))
  {
  }

  lemma {:induction false} ExcusedStaysUnclaimed(c: Config, w: World, steps: seq<Step>, end: World)
    requires Runs(c, w, steps, end) && ExcusedUnclaimed(w)
    ensures ExcusedUnclaimed(end)
    decreases |steps|
  {
    if steps != [] {
      ExcusedUnclaimedStep(c, w, steps[0]);
      ExcusedStaysUnclaimed(c, Next(c, w, steps[0]), steps[1..], end);
    }
  }

  /**
   * Once the calls for a target have returned, an eligible pending event is without a claim exactly
   * when the last thing that happened to the target's wake was that somebody gave it up.
   */
  lemma SettledMeansClaimed(c: Config, steps: seq<Step>, end: World, key: EventKey)
    requires Runs(c, START, steps, end)
    requires key in end.tables.events && Wanted(c, end, key) && Settled(c, end, key.target)
    ensures !Claimed(end, key.target) <==> GivenUp(c, START, steps, key.target)
  {
    NoLostWake(c, START, steps, end);
    ExcusedStaysUnclaimed(c, START, steps, end);
    ExcusedIsGivenUp(c, START, steps, end, key.target);
  }

  predicate GivesUp(s: Step) {
    s.WakeFail? || s.Abort?
  }

  /** Only a failed wake or an interrupted call excuses a target. */
  lemma {:induction false} ExcusedOnlyByFailure(c: Config, w: World, steps: seq<Step>, end: World)
    requires Runs(c, w, steps, end)
    requires forall i :: 0 <= i < |steps| ==> !GivesUp(steps[i])
    ensures end.excused <= w.excused
    decreases |steps|
  {
    if steps != [] {
      assert Next(c, w, steps[0]).excused <= w.excused;
      ExcusedOnlyByFailure(c, Next(c, w, steps[0]), steps[1..], end);
    }
  }

  /** The bridge as documented: with no backend error, nothing eligible waits without a claim. */
  lemma NoErrorNoLoss(c: Config, steps: seq<Step>, end: World, key: EventKey)
    requires Runs(c, START, steps, end)
    requires forall i :: 0 <= i < |steps| ==> !GivesUp(steps[i])
    requires key in end.tables.events && Wanted(c, end, key) && Settled(c, end, key.target)
    ensures Claimed(end, key.target)
  {
    SettledMeansClaimed(c, steps, end, key);
    ExcusedIsGivenUp(c, START, steps, end, key.target);
    ExcusedOnlyByFailure(c, START, steps, end);
  }

  /** Recovery: any accepted acknowledgement puts the target back under the guarantee. */
  lemma AckHeals(c: Config, w: World, id: nat, target: string, cursor: int)
    requires Inv(c, w) && Enabled(c, w, AckStart(id, target, cursor))
    requires Acknowledge(w.tables, target, cursor).Ok?
    ensures var w' := Next(c, w, AckStart(id, target, cursor));
            Inv(c, w') && target !in w'.excused && id in w'.calls && w'.calls[id] == Followup(target)
  {
    InvPreserved(c, w, AckStart(id, target, cursor));
  }

  /** The steps of a first delivery through its record, and then some more. */
  function First(key: EventKey, json: string, rank: int, now: int, msgId: string, rest: seq<Step>): seq<Step> {
    [WakeStart(0, key, json, rank, now)] + ([Find(0)] + ([Append(0, msgId)] + ([Mark(0)] + rest)))
  }

  /** An uninterrupted first delivery, up to the point where it owes its claim. */
  lemma DeliverAlone(c: Config, key: EventKey, json: string, now: int, msgId: string) returns (w: World)
    requires key.target in c.targets
    ensures var rank := MinRank(c, key.target);
            && (forall rest, end :: Runs(c, w, rest, end) ==>
                  Runs(c, START, First(key, json, rank, now, msgId, rest), end))
            && w.calls == map[0 := Deliver(key, rank, 1)]
    ensures w.excused == {} && key in w.tables.events && w.tables.events[key].roomSeq == Some(1)
    ensures Wanted(c, w, key) && !Claimed(w, key.target)
  {
    var rank := MinRank(c, key.target);
    var w1 := Next(c, START, WakeStart(0, key, json, rank, now));
    assert w1.calls == map[0 := Search(key, rank)] && w1.tables.events[key].roomSeq.None?;
    var w2 := Next(c, w1, Find(0));
    assert w2.calls == map[0 := Send(key, rank)];
    var w3 := Next(c, w2, Append(0, msgId));
    assert w3.calls == map[0 := Located(key, rank, 1, msgId)];
    w := Next(c, w3, Mark(0));
    assert w.calls == map[0 := Deliver(key, rank, 1)];
    forall rest, end | Runs(c, w, rest, end)
      ensures Runs(c, START, First(key, json, rank, now, msgId, rest), end)
    {
      RunsCons(c, w3, Mark(0), rest, end);
      RunsCons(c, w2, Append(0, msgId), [Mark(0)] + rest, end);
      RunsCons(c, w1, Find(0), [Append(0, msgId)] + ([Mark(0)] + rest), end);
      var found := [Find(0)] + ([Append(0, msgId)] + ([Mark(0)] + rest));
      RunsCons(c, START, WakeStart(0, key, json, rank, now), found, end);
    }
  }

  /** The last owing call of an unclaimed target is interrupted: its wake is lost, from any state. */
  lemma InterruptionLoses(c: Config, w: World, id: nat, key: EventKey)
    requires id in w.calls && Owing(c, w.calls[id]) && TargetOfCall(w.calls[id]) == key.target
    requires forall other :: other in w.calls && other != id && TargetOfCall(w.calls[other]) == key.target
               ==> !Owing(c, w.calls[other])
    requires key in w.tables.events && Wanted(c, w, key) && !Claimed(w, key.target)
    ensures Enabled(c, w, Abort(id))
    ensures var end := Next(c, w, Abort(id));
            Wanted(c, end, key) && !Claimed(end, key.target) && Settled(c, end, key.target)
  {
  }

  /**
   * It happens to the first delivery of any event: the call dies after recording it and before its
   * claim, and the event is left pending, unclaimed and owed by nobody.
   */
  lemma CrashBeforeClaimLoses(c: Config, key: EventKey, json: string, now: int, msgId: string)
    requires key.target in c.targets
    ensures exists steps, end ::
              && Runs(c, START, steps, end)
              && key in end.tables.events && Wanted(c, end, key)
              && !Claimed(end, key.target) && Settled(c, end, key.target)
  {
    var w := DeliverAlone(c, key, json, now, msgId);
    RunsOne(c, w, Abort(0));
    var end := Next(c, w, Abort(0));
    InterruptionLoses(c, w, 0, key);
    var rank := MinRank(c, key.target);
    assert Runs(c, START, First(key, json, rank, now, msgId, [Abort(0)]), end);
    assert Wanted(c, end, key) && !Claimed(end, key.target) && Settled(c, end, key.target);
  }

  lemma RunsOne(c: Config, w: World, s: Step)
    requires Enabled(c, w, s)
    ensures Runs(c, w, [s], Next(c, w, s))
  {
    assert Runs(c, Next(c, w, s), [], Next(c, w, s));
  }

  lemma RunsCons(c: Config, w: World, s: Step, rest: seq<Step>, end: World)
    requires Enabled(c, w, s) && Runs(c, Next(c, w, s), rest, end)
    ensures Runs(c, w, [s] + rest, end)
  {
    assert ([s] + rest)[1..] == rest;
  }

  lemma {:induction false} RunsAppend(c: Config, w: World, steps: seq<Step>, mid: World, more: seq<Step>, end: World)
    requires Runs(c, w, steps, mid) && Runs(c, mid, more, end)
    ensures Runs(c, w, steps + more, end)
    decreases |steps|
  {
    if steps == [] {
      assert steps + more == more;
    } else {
      RunsAppend(c, Next(c, w, steps[0]), steps[1..], mid, more, end);
      assert steps + more == [steps[0]] + (steps[1..] + more);
      RunsCons(c, w, steps[0], steps[1..] + more, end);
    }
  }
}
