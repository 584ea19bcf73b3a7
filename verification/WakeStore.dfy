/** The bridge's durable tables: their meaning as values, and the store that updates them in place. */
module WakeStore {
  import opened Prelude
  import opened WakePaging

  datatype EventRow = EventRow(eventJson: string, room: string, hintRank: int,
                               roomSeq: Option<int>, messageId: Option<string>, createdAt: int)

  datatype TargetRow = TargetRow(lastAcked: int, maxRead: int, claimedAt: Option<int>)

  const FRESH_TARGET := TargetRow(0, 0, None)

  datatype Tables = Tables(events: map<EventKey, EventRow>, targets: map<string, TargetRow>)

  const EMPTY := Tables(map[], map[])

  datatype StoreError =
    | IdempotencyConflict(key: EventKey)
    | MissingReservation
    | AckBeyondRead(cursor: int, maxRead: int)

  datatype Reservation = Reservation(duplicate: bool, roomSeq: Option<int>)

  datatype AckState = AckState(lastAcked: int, maxRead: int, maxPending: Option<int>)

  /** The row of a target, with the defaults the queries use when there is none. */
  function TargetOf(t: Tables, target: string): TargetRow {
    if target in t.targets then t.targets[target] else FRESH_TARGET
  }

  function EnsureTarget(t: Tables, target: string): Tables {
    t.(targets := t.targets[target := TargetOf(t, target)])
  }

  predicate SameEvent(row: EventRow, json: string, room: string, rank: int) {
    row.eventJson == json && row.room == room && row.hintRank == rank
  }

  /** Reserve an event: a new row, the row that is already there, or a conflict that changes nothing. */
  function Reserve(t: Tables, key: EventKey, json: string, room: string, rank: int, now: int)
    : (Tables, Result<Reservation, StoreError>)
  {
    if key !in t.events then
      var u := EnsureTarget(t, key.target);
      (u.(events := u.events[key := EventRow(json, room, rank, None, None, now)]), Ok(Reservation(false, None)))
    else if !SameEvent(t.events[key], json, room, rank) then (t, Err(IdempotencyConflict(key)))
    else (EnsureTarget(t, key.target), Ok(Reservation(true, t.events[key].roomSeq)))
  }

  /** Record where an event was appended; a different sequence already on record is an error. */
  function MarkDelivered(t: Tables, key: EventKey, seqNo: int, id: string): Result<Tables, StoreError> {
    if key in t.events && (t.events[key].roomSeq.None? || t.events[key].roomSeq == Some(seqNo)) then
      Ok(t.(events := t.events[key := t.events[key].(roomSeq := Some(seqNo), messageId := Some(id))]))
    else Err(MissingReservation)
  }

  predicate MayClaim(row: TargetRow, observed: int, now: int, lease: int) {
    row.lastAcked < observed && (row.claimedAt.None? || row.claimedAt.value <= now - lease)
  }

  function Claim(t: Tables, target: string, observed: int, now: int, lease: int): (Tables, bool) {
    var u := EnsureTarget(t, target);
    var row := u.targets[target];
    if MayClaim(row, observed, now, lease) then
      (u.(targets := u.targets[target := row.(claimedAt := Some(now))]), true)
    else (u, false)
  }

  function Release(t: Tables, target: string): Tables {
    if target in t.targets then t.(targets := t.targets[target := t.targets[target].(claimedAt := None)]) else t
  }

  function RecordRead(t: Tables, target: string, maxSeq: int): Tables {
    if target in t.targets then
      var row := t.targets[target];
      t.(targets := t.targets[target := row.(maxRead := Max(row.maxRead, maxSeq))])
    else t.(targets := t.targets[target := TargetRow(0, maxSeq, None)])
  }

  /** Acknowledge up to a cursor that a read has reached; this also ends the outstanding claim. */
  function Acknowledge(t: Tables, target: string, cursor: int): Result<Tables, StoreError> {
    var row := TargetOf(t, target);
    if cursor > row.maxRead then Err(AckBeyondRead(cursor, row.maxRead))
    else if target in t.targets then
      Ok(t.(targets := t.targets[target := row.(lastAcked := Max(row.lastAcked, cursor), claimedAt := None)]))
    else Ok(t)
  }

  /** Delivered above the acknowledged cursor, with at least the given wake hint rank. */
  predicate Pending(t: Tables, key: EventKey, target: string, minRank: Option<int>) {
    && key in t.events
    && key.target == target
    && t.events[key].roomSeq.Some?
    && t.events[key].roomSeq.value > TargetOf(t, target).lastAcked
    && (minRank.Some? ==> t.events[key].hintRank >= minRank.value)
  }

  function PendingSeqs(t: Tables, target: string, minRank: Option<int>): set<int> {
    set key | key in t.events && Pending(t, key, target, minRank) :: t.events[key].roomSeq.value
  }

  /** SQL's MAX over a set of sequences: null on no rows. */
  predicate IsMax(s: set<int>, m: Option<int>) {
    if s == {} then m.None? else m.Some? && m.value in s && forall x :: x in s ==> x <= m.value
  }

  lemma {:induction false} MaxExists(s: set<int>)
    requires s != {}
    ensures exists x :: x in s && forall y :: y in s ==> y <= x
  {
    assert (forall x :: x !in s) ==> s == {};
    var x :| x in s;
    var rest := s - {x};
    assert s == rest + {x};
    if rest != {} {
      MaxExists(rest);
      var top :| top in rest && forall y :: y in rest ==> y <= top;
      assert Max(x, top) in s && forall y :: y in s ==> y <= Max(x, top);
    }
  }

  function MaxSeq(s: set<int>): (m: Option<int>)
    ensures IsMax(s, m)
  {
    if s == {} then None
    else
      MaxExists(s);
      var x :| x in s && forall y :: y in s ==> y <= x;
      Some(x)
  }

  function AckStateOf(t: Tables, target: string): AckState {
    var row := TargetOf(t, target);
    AckState(row.lastAcked, row.maxRead, MaxSeq(PendingSeqs(t, target, None)))
  }

  /** The store itself. Every method is one transaction under the store's mutex. */
  class WakeStore {
    var events: map<EventKey, EventRow>
    var targets: map<string, TargetRow>

    function View(): Tables
      reads this
    {
      Tables(events, targets)
    }

    constructor ()
      ensures View() == EMPTY
    {
      events, targets := map[], map[];
    }

    method InsertTargetIfMissing(target: string)
      modifies this`targets
      ensures View() == EnsureTarget(old(View()), target)
    {
      if target !in targets {
        targets := targets[target := FRESH_TARGET];
      } else {
        assert targets == targets[target := targets[target]];
      }
    }

    method ReserveEvent(key: EventKey, json: string, room: string, rank: int, now: int)
      returns (r: Result<Reservation, StoreError>)
      modifies this
      ensures (View(), r) == Reserve(old(View()), key, json, room, rank, now)
    {
      if key in events && !SameEvent(events[key], json, room, rank) {
        return Err(IdempotencyConflict(key));
      }
      InsertTargetIfMissing(key.target);
      if key in events {
        return Ok(Reservation(true, events[key].roomSeq));
      }
      events := events[key := EventRow(json, room, rank, None, None, now)];
      return Ok(Reservation(false, None));
    }

    method Mark(key: EventKey, seqNo: int, id: string) returns (r: Result<(), StoreError>)
      modifies this`events
      ensures r.Ok? <==> MarkDelivered(old(View()), key, seqNo, id).Ok?
      ensures r.Ok? ==> View() == MarkDelivered(old(View()), key, seqNo, id).value
      ensures r.Err? ==> View() == old(View()) && r.error == MissingReservation
    {
      if key in events && (events[key].roomSeq.None? || events[key].roomSeq == Some(seqNo)) {
        events := events[key := events[key].(roomSeq := Some(seqNo), messageId := Some(id))];
        return Ok(());
      }
      return Err(MissingReservation);
    }

    method ClaimWake(target: string, observed: int, now: int, lease: int) returns (claimed: bool)
      modifies this`targets
      ensures (View(), claimed) == Claim(old(View()), target, observed, now, lease)
    {
      InsertTargetIfMissing(target);
      var row := targets[target];
      claimed := MayClaim(row, observed, now, lease);
      if claimed {
        targets := targets[target := row.(claimedAt := Some(now))];
      }
    }

    method ReleaseWake(target: string)
      modifies this`targets
      ensures View() == Release(old(View()), target)
    {
      if target in targets {
        targets := targets[target := targets[target].(claimedAt := None)];
      }
    }

    method LastAckedSeq(target: string) returns (acked: int)
      ensures acked == TargetOf(View(), target).lastAcked
    {
      acked := if target in targets then targets[target].lastAcked else 0;
    }

    method Record(target: string, maxSeq: int) returns (state: AckState)
      modifies this`targets
      ensures View() == RecordRead(old(View()), target, maxSeq)
      ensures state == AckStateOf(View(), target)
    {
      if target in targets {
        var row := targets[target];
        targets := targets[target := row.(maxRead := Max(row.maxRead, maxSeq))];
      } else {
        targets := targets[target := TargetRow(0, maxSeq, None)];
      }
      state := AckStateOf(View(), target);
    }

    method Ack(target: string, cursor: int) returns (r: Result<AckState, StoreError>)
      modifies this`targets
      ensures r.Ok? <==> Acknowledge(old(View()), target, cursor).Ok?
      ensures r.Ok? ==> View() == Acknowledge(old(View()), target, cursor).value
      ensures r.Ok? ==> r.value == AckStateOf(View(), target)
      ensures r.Err? ==> View() == old(View()) && r.error == AckBeyondRead(cursor, TargetOf(View(), target).maxRead)
    {
      var row := TargetOf(View(), target);
      if cursor > row.maxRead {
        return Err(AckBeyondRead(cursor, row.maxRead));
      }
      if target in targets {
        targets := targets[target := row.(lastAcked := Max(row.lastAcked, cursor), claimedAt := None)];
      }
      return Ok(AckStateOf(View(), target));
    }

    /** The event delivered at a sequence; which row is returned when several match is not specified. */
    method DeliveredEvent(target: string, seqNo: int) returns (r: Option<EventKey>)
      ensures r.Some? ==> r.value in events && r.value.target == target && events[r.value].roomSeq == Some(seqNo)
      ensures r.None? ==> forall key :: key in events && key.target == target ==> events[key].roomSeq != Some(seqNo)
    {
      if key :| key in events && key.target == target && events[key].roomSeq == Some(seqNo) {
        return Some(key);
      }
      return None;
    }
  }
}
