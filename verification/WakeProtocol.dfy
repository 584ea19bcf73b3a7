/**
 * The wake bridge as interleaved calls. Each call advances one store transaction or one room
 * request at a time; any call may be cut short by a crash or a backend error.
 */
module WakeProtocol {
  import opened Prelude
  import opened WakePaging
  import opened WakeStore

  datatype TargetPolicy = TargetPolicy(room: string, minRank: int)

  datatype Config = Config(targets: map<string, TargetPolicy>, lease: int)

  /** Where an in-flight call stands. */
  datatype Call =
    | Search(key: EventKey, rank: int)                            // reserved; about to search the room
    | Send(key: EventKey, rank: int)                              // not found; about to append
    | Located(key: EventKey, rank: int, seqNo: int, msgId: string) // in the room; about to record it
    | Deliver(key: EventKey, rank: int, seqNo: int)               // on record; about to claim a wake
    | Waking(target: string)                                      // holds the claim, talks to Codex
    | Followup(target: string)                                    // acknowledged; about to look for more
    | FollowupFetch(target: string, seqNo: int)
    | FollowupClaim(target: string, seqNo: int)
    | Reading(target: string, after: int, limit: nat)
    | Fetched(target: string, after: int, items: seq<Msg>)

  /**
   * `excused` holds the unclaimed targets whose wake a failed or interrupted call gave up; `returned` holds
   * the (target, sequence) pairs that recorded reads handed to the agent.
   */
  datatype World = World(tables: Tables, rooms: map<string, seq<Msg>>, calls: map<nat, Call>,
                         excused: set<string>, returned: set<(string, int)>)

  const START := World(EMPTY, map[], map[], {}, {})

  datatype Step =
    | WakeStart(id: nat, key: EventKey, json: string, rank: int, now: int)
    | Find(id: nat)
    | Append(id: nat, msgId: string)
    | Mark(id: nat)
    | Trigger(id: nat, now: int)
    | WakeOk(id: nat)
    | WakeFail(id: nat)
    | AckStart(id: nat, target: string, cursor: int)
    | QueryPending(id: nat)
    | LoadEvent(id: nat)
    | ReadStart(id: nat, target: string, from: Option<int>, limit: Option<nat>)
    | Fetch(id: nat)
    | RecordStep(id: nat)
    | Abort(id: nat)
    | Foreign(room: string, msgId: string)

  const MAX_READ_LIMIT: nat := 500

  function LimitOf(limit: Option<nat>): nat {
    if limit.None? then 100 else Max(1, Min(limit.value, MAX_READ_LIMIT))
  }

  function LogOf(w: World, room: string): seq<Msg> {
    if room in w.rooms then w.rooms[room] else []
  }

  function RoomOf(c: Config, target: string): string
    requires target in c.targets
  {
    c.targets[target].room
  }

  function MinRank(c: Config, target: string): int
    requires target in c.targets
  {
    c.targets[target].minRank
  }

  function TargetOfCall(call: Call): string {
    if call.Search? || call.Send? || call.Located? || call.Deliver? then call.key.target else call.target
  }

  function Put(w: World, id: nat, call: Call): World {
    w.(calls := w.calls[id := call])
  }

  function Done(w: World, id: nat): World {
    w.(calls := w.calls - {id})
  }

  function Post(w: World, room: string, msgId: string, wake: Option<EventKey>): World {
    var log := LogOf(w, room);
    w.(rooms := w.rooms[room := log + [Msg(Tip(log) + 1, msgId, wake)]])
  }

  function DoWakeStart(c: Config, w: World, id: nat, key: EventKey, json: string, rank: int, now: int): World
    requires key.target in c.targets
  {
    var (t, r) := Reserve(w.tables, key, json, RoomOf(c, key.target), rank, now);
    if r.Err? then w
    else
      Put(w.(tables := t), id,
          if r.value.roomSeq.Some? then Deliver(key, rank, r.value.roomSeq.value) else Search(key, rank))
  }

  function DoFind(c: Config, w: World, id: nat, key: EventKey, rank: int): World
    requires key.target in c.targets
  {
    var hit := FirstMatch(LogOf(w, RoomOf(c, key.target)), key);
    Put(w, id, if hit.Some? then Located(key, rank, hit.value.seqNo, hit.value.id) else Send(key, rank))
  }

  function DoAppend(c: Config, w: World, id: nat, key: EventKey, rank: int, msgId: string): World
    requires key.target in c.targets
  {
    var room := RoomOf(c, key.target);
    Put(Post(w, room, msgId, Some(key)), id, Located(key, rank, Tip(LogOf(w, room)) + 1, msgId))
  }

  function DoMark(w: World, id: nat, call: Call): World
    requires call.Located?
  {
    var r := MarkDelivered(w.tables, call.key, call.seqNo, call.msgId);
    if r.Err? then Done(w, id) else Put(w.(tables := r.value), id, Deliver(call.key, call.rank, call.seqNo))
  }

  function DoClaim(c: Config, w: World, id: nat, target: string, observed: int, now: int): World {
    var (t, claimed) := Claim(w.tables, target, observed, now, c.lease);
    if claimed then Put(w.(tables := t, excused := w.excused - {target}), id, Waking(target))
    else Done(w.(tables := t), id)
  }

  function DoTrigger(c: Config, w: World, id: nat, call: Call, now: int): World
    requires call.Deliver? || call.FollowupClaim?
    requires TargetOfCall(call) in c.targets
  {
    if call.Deliver? && call.rank < MinRank(c, call.key.target) then Done(w, id)
    else DoClaim(c, w, id, TargetOfCall(call), call.seqNo, now)
  }

  function DoWakeFail(w: World, id: nat, target: string): World {
    Done(w.(tables := Release(w.tables, target), excused := w.excused + {target}), id)
  }

  function DoAckStart(w: World, id: nat, target: string, cursor: int): World {
    var r := Acknowledge(w.tables, target, cursor);
    if r.Err? then w else Put(w.(tables := r.value, excused := w.excused - {target}), id, Followup(target))
  }

  function DoQueryPending(c: Config, w: World, id: nat, target: string): World
    requires target in c.targets
  {
    var top := MaxSeq(PendingSeqs(w.tables, target, Some(MinRank(c, target))));
    if top.None? then Done(w, id) else Put(w, id, FollowupFetch(target, top.value))
  }

  predicate HasDelivered(t: Tables, target: string, seqNo: int) {
    exists key :: key in t.events && key.target == target && t.events[key].roomSeq == Some(seqNo)
  }

  function DoLoadEvent(w: World, id: nat, target: string, seqNo: int): World {
    if HasDelivered(w.tables, target, seqNo) then Put(w, id, FollowupClaim(target, seqNo)) else Done(w, id)
  }

  function DoReadStart(w: World, id: nat, target: string, cursor: Option<int>, limit: Option<nat>): World {
    var after := if cursor.Some? then cursor.value else TargetOf(w.tables, target).lastAcked;
    if after < 0 then w else Put(w, id, Reading(target, after, LimitOf(limit)))
  }

  function DoFetch(c: Config, w: World, id: nat, call: Call): World
    requires call.Reading? && call.target in c.targets
  {
    var log := LogOf(w, RoomOf(c, call.target));
    Put(w, id, Fetched(call.target, call.after, Inbox(log, |log|, call.target, call.after, call.limit)))
  }

  function Highest(after: int, items: seq<Msg>): int {
    if items == [] then after else items[|items| - 1].seqNo
  }

  function DoRecord(w: World, id: nat, call: Call): World
    requires call.Fetched?
  {
    var read := set m | m in call.items :: (call.target, m.seqNo);
    Done(w.(tables := RecordRead(w.tables, call.target, Highest(call.after, call.items)),
            returned := w.returned + read), id)
  }

  predicate Claimed(w: World, target: string) {
    TargetOf(w.tables, target).claimedAt.Some?
  }

  /** Calls that still owe the target a claim. */
  predicate Owing(c: Config, call: Call) {
    || call.Followup? || call.FollowupFetch? || call.FollowupClaim?
    || (call.Deliver? && call.key.target in c.targets && call.rank >= MinRank(c, call.key.target))
  }

  function DoAbort(c: Config, w: World, id: nat, call: Call): World {
    var target := TargetOfCall(call);
    Done(if Owing(c, call) && !Claimed(w, target) then w.(excused := w.excused + {target}) else w, id)
  }

  predicate Enabled(c: Config, w: World, s: Step) {
    match s
    case WakeStart(id, key, _, _, _) => id !in w.calls && key.target in c.targets
    case AckStart(id, target, _) => id !in w.calls && target in c.targets
    case ReadStart(id, target, _, _) => id !in w.calls && target in c.targets
    case Foreign(_, _) => true
    case _ =>
      && s.id in w.calls
      && TargetOfCall(w.calls[s.id]) in c.targets
      && var call := w.calls[s.id];
         match s
         case Find(_) => call.Search?
         case Append(_, _) => call.Send?
         case Mark(_) => call.Located?
         case Trigger(_, _) => call.Deliver? || call.FollowupClaim?
         case WakeOk(_) => call.Waking?
         case WakeFail(_) => call.Waking?
         case QueryPending(_) => call.Followup?
         case LoadEvent(_) => call.FollowupFetch?
         case Fetch(_) => call.Reading?
         case RecordStep(_) => call.Fetched?
         case _ => true
  }

  function Next(c: Config, w: World, s: Step): World
    requires Enabled(c, w, s)
  {
    match s
    case WakeStart(id, key, json, rank, now) => DoWakeStart(c, w, id, key, json, rank, now)
    case Find(id) => DoFind(c, w, id, w.calls[id].key, w.calls[id].rank)
    case Append(id, msgId) => DoAppend(c, w, id, w.calls[id].key, w.calls[id].rank, msgId)
    case Mark(id) => DoMark(w, id, w.calls[id])
    case Trigger(id, now) => DoTrigger(c, w, id, w.calls[id], now)
    case WakeOk(id) => Done(w, id)
    case WakeFail(id) => DoWakeFail(w, id, w.calls[id].target)
    case AckStart(id, target, cursor) => DoAckStart(w, id, target, cursor)
    case QueryPending(id) => DoQueryPending(c, w, id, w.calls[id].target)
    case LoadEvent(id) => DoLoadEvent(w, id, w.calls[id].target, w.calls[id].seqNo)
    case ReadStart(id, target, cursor, limit) => DoReadStart(w, id, target, cursor, limit)
    case Fetch(id) => DoFetch(c, w, id, w.calls[id])
    case RecordStep(id) => DoRecord(w, id, w.calls[id])
    case Abort(id) => DoAbort(c, w, id, w.calls[id])
    case Foreign(room, msgId) => Post(w, room, msgId, None)
  }

  /** A run: every step is enabled in the world the previous ones left. */
  predicate Runs(c: Config, w: World, steps: seq<Step>, end: World)
    decreases |steps|
  {
    if steps == [] then w == end
    else Enabled(c, w, steps[0]) && Runs(c, Next(c, w, steps[0]), steps[1..], end)
  }
}
