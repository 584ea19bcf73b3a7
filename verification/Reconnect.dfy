/** Reconnect stashes and reclaim leases, one manager call at a time. */
module Reconnect {
  import opened Prelude
  import opened Frames

  const WINDOW: int := 120 * SECOND

  datatype Stash = Stash(key: string, rooms: set<string>, frames: seq<Frame>, since: int, token: Option<int>)

  /** `issued` counts the tokens handed out: each is used once. */
  datatype Manager = Manager(stash: map<string, Stash>, dead: set<string>, issued: int)

  datatype ReclaimError = CredentialMismatch | AlreadyClaimed

  datatype Lease = Lease(agent: string, token: int)

  datatype Op =
    | Keep(agent: string, key: string, rooms: set<string>, now: int)
    | Begin(agent: string, key: string, noAuth: bool, now: int)
    | Commit(lease: Lease)
    | Drop(lease: Lease)
    | Message(agent: string, frame: Frame)
    | Visible(audience: set<string>, frame: Frame)
    | ForgetRoom(room: string)
    | Cleanup(now: int)
    | Expire(room: string)

  predicate IsDead(dead: set<string>, f: Frame) {
    f.room.Some? && f.room.value in dead
  }

  function DoKeep(m: Manager, agent: string, key: string, rooms: set<string>, now: int): Manager {
    m.(stash := m.stash[agent := Stash(key, rooms - m.dead, [], now, None)])
  }

  function BeginResult(m: Manager, agent: string, key: string, noAuth: bool, now: int)
    : Result<Option<Lease>, ReclaimError>
  {
    if agent !in m.stash || now - m.stash[agent].since >= WINDOW then Ok(None)
    else if !noAuth && m.stash[agent].key != key then Err(CredentialMismatch)
    else if m.stash[agent].token.Some? then Err(AlreadyClaimed)
    else Ok(Some(Lease(agent, m.issued)))
  }

  function DoBegin(m: Manager, agent: string, key: string, noAuth: bool, now: int): Manager {
    var result := BeginResult(m, agent, key, noAuth, now);
    if agent in m.stash && now - m.stash[agent].since >= WINDOW then m.(stash := m.stash - {agent})
    else if result.Ok? && result.value.Some? && agent in m.stash then
      m.(stash := m.stash[agent := m.stash[agent].(token := Some(m.issued))], issued := m.issued + 1)
    else m
  }

  predicate Owns(m: Manager, lease: Lease) {
    lease.agent in m.stash && m.stash[lease.agent].token == Some(lease.token)
  }

  function CommitResult(m: Manager, lease: Lease): Option<Stash> {
    if Owns(m, lease) then Some(m.stash[lease.agent].(token := None)) else None
  }

  function DoCommit(m: Manager, lease: Lease): Manager {
    if Owns(m, lease) then m.(stash := m.stash - {lease.agent}) else m
  }

  function DoDrop(m: Manager, lease: Lease): Manager {
    if Owns(m, lease) then m.(stash := m.stash[lease.agent := m.stash[lease.agent].(token := None)]) else m
  }

  function Buffered(e: Stash, f: Frame): Stash {
    if |e.frames| < MAX_BUFFERED then e.(frames := e.frames + [f]) else e
  }

  function DoMessage(m: Manager, agent: string, f: Frame): Manager {
    if IsDead(m.dead, f) || agent !in m.stash then m
    else m.(stash := m.stash[agent := Buffered(m.stash[agent], f)])
  }

  /** Which stashes take a room event: those that may see the room and have space. */
  predicate Takes(e: Stash, dead: set<string>, audience: set<string>, f: Frame) {
    e.key in audience && !IsDead(dead, f) && |e.frames| < MAX_BUFFERED
  }

  function DoVisible(m: Manager, audience: set<string>, f: Frame): Manager {
    m.(stash := map a | a in m.stash ::
         if Takes(m.stash[a], m.dead, audience, f) then Buffered(m.stash[a], f) else m.stash[a])
  }

  function VisibleResult(m: Manager, audience: set<string>, f: Frame): set<string> {
    set a | a in m.stash && Takes(m.stash[a], m.dead, audience, f)
  }

  function Without(e: Stash, room: string): Stash {
    e.(rooms := e.rooms - {room}, frames := Filter(e.frames, (f: Frame) => f.room != Some(room)))
  }

  function DoForget(m: Manager, room: string): Manager {
    m.(dead := m.dead + {room}, stash := map a | a in m.stash :: Without(m.stash[a], room))
  }

  function DoCleanup(m: Manager, now: int): Manager {
    m.(stash := map a | a in m.stash && now - m.stash[a].since < WINDOW :: m.stash[a])
  }

  function Apply(m: Manager, op: Op): Manager {
    match op
    case Keep(agent, key, rooms, now) => DoKeep(m, agent, key, rooms, now)
    case Begin(agent, key, noAuth, now) => DoBegin(m, agent, key, noAuth, now)
    case Commit(lease) => DoCommit(m, lease)
    case Drop(lease) => DoDrop(m, lease)
    case Message(agent, frame) => DoMessage(m, agent, frame)
    case Visible(audience, frame) => DoVisible(m, audience, frame)
    case ForgetRoom(room) => DoForget(m, room)
    case Cleanup(now) => DoCleanup(m, now)
    case Expire(room) => m.(dead := m.dead - {room})
  }

  function Run(m: Manager, ops: seq<Op>): Manager {
    if ops == [] then m else Apply(Run(m, ops[..|ops| - 1]), ops[|ops| - 1])
  }
}
