/**
 * The bridge service over its store and the room: each method performs, call by call, exactly
 * the protocol steps of WakeProtocol.
 */
module WakeService {
  import opened Prelude
  import opened Text
  import opened WakePaging
  import opened WakeStore
  import opened WakeProtocol
  import opened WakeNoLost
  import opened WakeDedup
  import opened WakeReads

  const MAX_EVENT_BYTES: nat := 256 * 1024
  const MAX_IDENTIFIER: nat := 512

  datatype WakeOutcome = Triggered | Coalesced | Filtered

  datatype WakeOutput = WakeOutput(duplicate: bool, seqNo: int, wake: WakeOutcome)

  datatype AckOutput = AckOutput(state: AckState, followup: Option<WakeOutcome>)

  datatype ServiceError =
    | InvalidIdentifier
    | UnknownTarget
    | InvalidEventTime
    | EventTooLarge
    | InvalidCursor(cursor: int)
    | Store(error: StoreError)
    | CodexFailed

  predicate ValidIdentifier(value: string) {
    !IsBlank(value) && Utf8Len(value) <= MAX_IDENTIFIER && !HasControl(value)
  }

  lemma {:induction false} RunsSnoc(c: Config, w: World, steps: seq<Step>, mid: World, s: Step)
    requires Runs(c, w, steps, mid) && Enabled(c, mid, s)
    ensures Runs(c, w, steps + [s], Next(c, mid, s))
    decreases |steps|
  {
    if steps == [] {
      RunsOne(c, w, s);
    } else {
      RunsSnoc(c, Next(c, w, steps[0]), steps[1..], mid, s);
      assert steps + [s] == [steps[0]] + (steps[1..] + [s]);
      RunsCons(c, w, steps[0], steps[1..] + [s], Next(c, mid, s));
    }
  }

  class WakeService {
    const config: Config
    const store: WakeStore
    var rooms: map<string, seq<Msg>>
    /** The bridge as the protocol sees it, with the other calls in flight. */
    ghost var world: World

    ghost predicate Valid()
      reads this, store
    {
      world.tables == store.View() && world.rooms == rooms
    }

    constructor (config: Config)
      ensures Valid() && world == START && this.config == config && fresh(store)
    {
      this.config := config;
      store := new WakeStore();
      rooms := map[];
      world := START;
    }

    /** Find the event in the room, or append it. */
    method Locate(id: nat, key: EventKey, rank: int, newId: string)
      returns (seqNo: int, msgId: string, ghost steps: seq<Step>)
      requires Valid() && id in world.calls && world.calls[id] == Search(key, rank) && key.target in config.targets
      modifies this
      ensures Valid() && Runs(config, old(world), steps, world)
      ensures world.calls == old(world.calls)[id := Located(key, rank, seqNo, msgId)]
    {
      var room := config.targets[key.target].room;
      var log := if room in rooms then rooms[room] else [];
      var hit := FirstMatch(log, key);
      RunsOne(config, world, Find(id));
      steps := [Find(id)];
      ghost var w := Next(config, world, Find(id));
      if hit.Some? {
        world := w;
        return hit.value.seqNo, hit.value.id, steps;
      }
      RunsSnoc(config, world, steps, w, Append(id, newId));
      steps := steps + [Append(id, newId)];
      world := Next(config, w, Append(id, newId));
      seqNo, msgId := Tip(log) + 1, newId;
      rooms := rooms[room := log + [Msg(seqNo, msgId, Some(key))]];
    }

    /** Put the located sequence on record. */
    method MarkLocated(id: nat, key: EventKey, rank: int, seqNo: int, msgId: string)
      returns (r: Result<(), ServiceError>)
      requires Valid() && id in world.calls && world.calls[id] == Located(key, rank, seqNo, msgId)
      requires key.target in config.targets
      modifies this`world, store
      ensures Valid() && world == Next(config, old(world), Mark(id))
      ensures r.Ok? ==> world.calls == old(world.calls)[id := Deliver(key, rank, seqNo)]
                        && key in world.tables.events && world.tables.events[key].roomSeq == Some(seqNo)
      ensures r.Err? ==> world.calls == old(world.calls) - {id} && r.error == Store(MissingReservation)
    {
      var marked := store.Mark(key, seqNo, msgId);
      world := Next(config, world, Mark(id));
      r := if marked.Ok? then Ok(()) else Err(Store(marked.error));
    }

    /** Claim the target's wake and, holding it, ask Codex; give the claim back when Codex fails. */
    method MaybeWake(id: nat, alias: string, observed: int, now: int, codexOk: bool)
      returns (r: Result<bool, ServiceError>, ghost steps: seq<Step>)
      requires Valid() && id in world.calls && TargetOfCall(world.calls[id]) == alias && alias in config.targets
      requires Owing(config, world.calls[id]) && (world.calls[id].Deliver? || world.calls[id].FollowupClaim?)
      requires world.calls[id].seqNo == observed
      modifies this`world, store
      ensures Valid() && Runs(config, old(world), steps, world)
      ensures world.calls == old(world.calls) - {id}
      ensures r.Ok? ==> Claimed(world, alias) || (!r.value && TargetOf(world.tables, alias).lastAcked >= observed)
      ensures r.Err? ==> !codexOk && r.error == CodexFailed && !Claimed(world, alias)
      ensures world.tables.events == old(world).tables.events && world.rooms == old(world).rooms
    {
      ghost var w0 := world;
      var claimed := store.ClaimWake(alias, observed, now, config.lease);
      RunsOne(config, w0, Trigger(id, now));
      steps := [Trigger(id, now)];
      ghost var w := Next(config, w0, Trigger(id, now));
      if !claimed {
        world := w;
        return Ok(false), steps;
      }
      assert w.calls[id] == Waking(alias);
      ghost var last := if codexOk then WakeOk(id) else WakeFail(id);
      RunsSnoc(config, w0, steps, w, last);
      steps := steps + [last];
      world := Next(config, w, last);
      if codexOk {
        return Ok(true), steps;
      }
      store.ReleaseWake(alias);
      return Err(CodexFailed), steps;
    }

    /** Find or append a reserved event and put its sequence on record. */
    method LocateAndMark(id: nat, key: EventKey, rank: int, newId: string)
      returns (r: Result<int, ServiceError>, ghost steps: seq<Step>)
      requires Valid() && id in world.calls && world.calls[id] == Search(key, rank) && key.target in config.targets
      modifies this, store
      ensures Valid() && Runs(config, old(world), steps, world)
      ensures r.Ok? ==> world.calls == old(world.calls)[id := Deliver(key, rank, r.value)]
      ensures r.Err? ==> world.calls == old(world.calls) - {id}
      ensures key in old(world.tables.events) && old(world.tables.events)[key].roomSeq.None? ==> r.Ok?
    {
      ghost var w0 := world;
      var seqNo, msgId;
      seqNo, msgId, steps := Locate(id, key, rank, newId);
      RunsSnoc(config, w0, steps, world, Mark(id));
      steps := steps + [Mark(id)];
      var marked := MarkLocated(id, key, rank, seqNo, msgId);
      r := if marked.Ok? then Ok(seqNo) else Err(marked.error);
    }

    /** Reserve the event and bring it to the point where its sequence is on record. */
    method PutOnRecord(id: nat, key: EventKey, json: string, rank: int, now: int, newId: string)
      returns (r: Result<Reservation, ServiceError>, ghost steps: seq<Step>)
      requires Valid() && id !in world.calls && key.target in config.targets
      modifies this, store
      ensures Valid() && Runs(config, old(world), steps, world)
      ensures r.Ok? ==> r.value.roomSeq.Some?
                        && world.calls == old(world.calls)[id := Deliver(key, rank, r.value.roomSeq.value)]
      ensures r.Err? ==> world == old(world) && r.error == Store(IdempotencyConflict(key))
      ensures r.Err? <==> key in old(world.tables.events)
                          && !SameEvent(old(world.tables.events)[key], json, config.targets[key.target].room, rank)
    {
      ghost var w0 := world;
      var reserved := store.ReserveEvent(key, json, config.targets[key.target].room, rank, now);
      var start := WakeStart(id, key, json, rank, now);
      RunsOne(config, w0, start);
      steps := [start];
      world := Next(config, w0, start);
      if reserved.Err? {
        return Err(Store(reserved.error)), steps;
      }
      if reserved.value.roomSeq.Some? {
        return Ok(reserved.value), steps;
      }
      ghost var w1 := world;
      var seqNo;
      ghost var more;
      seqNo, more := LocateAndMark(id, key, rank, newId);
      RunsAppend(config, w0, steps, w1, more, world);
      steps := steps + more;
      r := Ok(Reservation(reserved.value.duplicate, Some(seqNo.value)));
    }

    /** `wake_agent`: put the event on record, then wake its target unless the policy filters it. */
    method WakeAgent(id: nat, key: EventKey, eventType: string, json: string, rank: int,
                     timeOk: bool, now: int, newId: string, claimNow: int, codexOk: bool)
      returns (r: Result<WakeOutput, ServiceError>, ghost steps: seq<Step>)
      requires Valid() && id !in world.calls
      modifies this, store
      ensures Valid() && Runs(config, old(world), steps, world)
      ensures world.calls == old(world.calls)
      ensures r.Err? && r.error != CodexFailed ==> world == old(world)
      ensures r.Ok? ==> key.target in config.targets
      ensures r.Ok? ==> (r.value.wake == Filtered <==> rank < MinRank(config, key.target))
      ensures r.Ok? && r.value.wake == Triggered ==> Claimed(world, key.target)
      ensures r.Ok? && r.value.wake == Coalesced ==>
                Claimed(world, key.target) || TargetOf(world.tables, key.target).lastAcked >= r.value.seqNo
    {
      steps := [];
      if !(ValidIdentifier(key.target) && ValidIdentifier(key.source) && ValidIdentifier(key.eventId)
           && ValidIdentifier(eventType)) {
        return Err(InvalidIdentifier), steps;
      }
      if key.target !in config.targets {
        return Err(UnknownTarget), steps;
      }
      if !timeOk {
        return Err(InvalidEventTime), steps;
      }
      if Utf8Len(json) > MAX_EVENT_BYTES {
        return Err(EventTooLarge), steps;
      }
      ghost var w0 := world;
      var recorded;
      recorded, steps := PutOnRecord(id, key, json, rank, now, newId);
      if recorded.Err? {
        return Err(recorded.error), steps;
      }
      var seqNo := recorded.value.roomSeq.value;
      ghost var w1 := world;
      if rank < config.targets[key.target].minRank {
        RunsSnoc(config, w0, steps, w1, Trigger(id, claimNow));
        world := Next(config, w1, Trigger(id, claimNow));
        return Ok(WakeOutput(recorded.value.duplicate, seqNo, Filtered)), steps + [Trigger(id, claimNow)];
      }
      var woke;
      ghost var more;
      woke, more := MaybeWake(id, key.target, seqNo, claimNow, codexOk);
      RunsAppend(config, w0, steps, w1, more, world);
      steps := steps + more;
      if woke.Err? {
        return Err(woke.error), steps;
      }
      r := Ok(WakeOutput(recorded.value.duplicate, seqNo, if woke.value then Triggered else Coalesced));
    }

    /** `read_inbox`: fetch above the cursor (by default the acknowledged one) and record the read. */
    method ReadInbox(id: nat, target: string, from: Option<int>, limit: Option<nat>)
      returns (r: Result<seq<Msg>, ServiceError>)
      requires Valid() && id !in world.calls
      modifies this`world, store
      ensures Valid() && (r.Err? ==> world == old(world))
      ensures r.Ok? <==> target in config.targets && ReadCursor(old(world), target, from) >= 0
      ensures var after := ReadCursor(old(world), target, from);
              r.Ok? ==> r.value == InboxOf(config, old(world), target, after, LimitOf(limit))
      ensures var after := ReadCursor(old(world), target, from);
              r.Ok? ==> world == ReadAlone(config, old(world), id, target, after, LimitOf(limit))
      ensures r.Ok? ==> Runs(config, old(world), [ReadStart(id, target, from, limit), Fetch(id), RecordStep(id)], world)
    {
      if target !in config.targets {
        return Err(UnknownTarget);
      }
      var acked := store.LastAckedSeq(target);
      var after := if from.Some? then from.value else acked;
      if after < 0 {
        return Err(InvalidCursor(after));
      }
      var room := config.targets[target].room;
      var log := if room in rooms then rooms[room] else [];
      var items := Inbox(log, |log|, target, after, LimitOf(limit));
      var _ := store.Record(target, Highest(after, items));
      ReadAloneRuns(config, world, id, target, from, limit);
      world := ReadAlone(config, world, id, target, after, LimitOf(limit));
      r := Ok(items);
    }

    /** `acknowledge`: move the cursor, then wake again for what is still pending and eligible. */
    method AcknowledgeInbox(id: nat, target: string, cursor: int, claimNow: int, codexOk: bool)
      returns (r: Result<AckOutput, ServiceError>, ghost steps: seq<Step>)
      requires Valid() && id !in world.calls
      modifies this`world, store
      ensures Valid() && Runs(config, old(world), steps, world)
      ensures world.calls == old(world.calls)
      ensures r.Err? && r.error != CodexFailed ==> world == old(world)
      ensures r.Ok? ==> target in config.targets && cursor <= MaxRead(old(world), target)
      ensures r.Ok? && r.value.followup.None? ==>
                PendingSeqs(world.tables, target, Some(MinRank(config, target))) == {}
    {
      steps := [];
      if target !in config.targets {
        return Err(UnknownTarget), steps;
      }
      ghost var w0 := world;
      var acked := store.Ack(target, cursor);
      if acked.Err? {
        return Err(Store(acked.error)), steps;
      }
      RunsOne(config, w0, AckStart(id, target, cursor));
      steps := [AckStart(id, target, cursor)];
      world := Next(config, w0, AckStart(id, target, cursor));
      ghost var w1 := world;
      var followup;
      ghost var more;
      followup, more := FollowUp(id, target, claimNow, codexOk);
      RunsAppend(config, w0, steps, w1, more, world);
      steps := steps + more;
      r := if followup.Err? then Err(followup.error) else Ok(AckOutput(acked.value, followup.value));
    }

    /** The second half of an acknowledgement. */
    method FollowUp(id: nat, target: string, claimNow: int, codexOk: bool)
      returns (r: Result<Option<WakeOutcome>, ServiceError>, ghost steps: seq<Step>)
      requires Valid() && id in world.calls && world.calls[id] == Followup(target) && target in config.targets
      modifies this`world, store
      ensures Valid() && Runs(config, old(world), steps, world)
      ensures world.calls == old(world.calls) - {id}
      ensures r.Err? ==> r.error == CodexFailed
      ensures r.Ok? && r.value.None? ==> PendingSeqs(world.tables, target, Some(MinRank(config, target))) == {}
    {
      ghost var w0 := world;
      var pending := PendingSeqs(store.View(), target, Some(config.targets[target].minRank));
      var top := MaxSeq(pending);
      RunsOne(config, w0, QueryPending(id));
      steps := [QueryPending(id)];
      world := Next(config, w0, QueryPending(id));
      if top.None? {
        return Ok(None), steps;
      }
      var event := store.DeliveredEvent(target, top.value);
      assert HasDelivered(world.tables, target, top.value) && event.Some?;
      RunsSnoc(config, w0, steps, world, LoadEvent(id));
      steps := steps + [LoadEvent(id)];
      world := Next(config, world, LoadEvent(id));
      ghost var w2 := world;
      var woke;
      ghost var more;
      woke, more := MaybeWake(id, target, top.value, claimNow, codexOk);
      RunsAppend(config, w0, steps, w2, more, world);
      steps := steps + more;
      r := if woke.Err? then Err(woke.error) else Ok(Some(if woke.value then Triggered else Coalesced));
    }
  }
}
