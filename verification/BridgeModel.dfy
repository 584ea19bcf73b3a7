/**
 * The Telegram bridge as a process over a state file, a room and a chat. A step is one durable or
 * remote action of `pump`; the process may crash before any of them, and a failed save may leave
 * either the old file or the new one.
 */
module BridgeModel {
  import opened Prelude

  /** Ciphertext is opaque: only the key it was made with opens it. */
  datatype Content = Cipher(key: int, nonce: int, plain: string) | Unreadable(tag: int)

  function Decrypt(key: int, c: Content): Option<string> {
    if c.Cipher? && c.key == key then Some(c.plain) else None
  }

  /** Message identities; a bridge identity is derived from the update it carries. */
  datatype MsgId = Telegram(update: int) | Other(name: string)

  datatype Author = Bridge | Agent(id: string, name: string)

  datatype RoomMsg = RoomMsg(seqNo: int, id: MsgId, author: Author, kind: string, content: Content)

  const MAX_I64: int := 0x7FFF_FFFF_FFFF_FFFF

  datatype Update = Update(id: int, ourChat: bool, fromHuman: bool, text: Option<string>, sender: Option<int>)

  datatype Ingress = Malformed | Ignored | Accepted(sender: int, text: string)

  /** What `inbound` makes of an update. */
  function Inbound(u: Update): Ingress {
    if u.id < 0 || u.id >= MAX_I64 then Malformed
    else if !u.ourChat || !u.fromHuman || u.text.None? then Ignored
    else if u.sender.None? then Malformed
    else Accepted(u.sender.value, u.text.value)
  }

  datatype Pending = Pending(nextCursor: int, update: int, content: Content)

  /** The persisted state. */
  datatype State = State(cursor: Option<int>, roomSeq: int, pending: Option<Pending>, reported: Option<int>)

  function Offset(st: State): int {
    if st.cursor.Some? then st.cursor.value else 0
  }

  datatype Notice = Plain(text: string) | Gap(skip: Option<int>, key: int)

  /** What the chat accepted: a whole room text, part of one, or a pause notice. */
  datatype Out = Full(seqNo: int, notice: Notice) | Partial(seqNo: int) | Pause(seqNo: int)

  /** What flush_pending returns to. */
  datatype Cont = Poll | Prepare(i: nat, j: nat) | Go(i: nat, j: nat)

  /**
   * Where the process stands. Batches are ranges: of the update stream in `Process`, of the room
   * log in `Relay`. The `...Save` points have changed memory and are about to save it.
   */
  datatype Proc =
    | Down
    | BootSave
    | Flush(cont: Cont)
    | FlushSave(cont: Cont)
    | Polling
    | Process(i: nat, j: nat)
    | PrepareSave(i: nat, j: nat)
    | SkipSave(i: nat, j: nat)
    | Fetching
    | Relay(i: nat, j: nat)
    | BlockSave
    | RelaySave(i: nat, j: nat)
    | Reload

  /** `origin` is the room tip a first start recorded; `skips` the sequences operators chose to skip. */
  datatype Sys = Sys(disk: Option<State>, mem: State, proc: Proc, room: seq<RoomMsg>, out: seq<Out>,
                     key: int, skip: Option<int>, origin: int, skips: set<int>)

  datatype SendFate = Delivered | LostReply | CutShort | Refused

  datatype Step =
    | Start(key: int, skip: Option<int>)
    | Crash
    | SaveOk
    | SaveFailed(landed: bool)
    | Append(replyLost: bool)
    | AppendRefused
    | Continue(nonce: int)
    | PollOk(n: nat)
    | PollFailed
    | Handle
    | FetchOk
    | FetchFailed
    | RelayNext(fate: SendFate)
    | ReloadFile
    | Foreign(name: string, agent: string, kind: string, content: Content)

  function TipOf(room: seq<RoomMsg>): int {
    if room == [] then 0 else room[|room| - 1].seqNo
  }

  /** How many room messages are at or below a sequence. */
  function PosOf(room: seq<RoomMsg>, seqNo: int): (n: nat)
    ensures n <= |room|
  {
    if room == [] then 0
    else if room[|room| - 1].seqNo <= seqNo then |room|
    else PosOf(room[..|room| - 1], seqNo)
  }

  /** How many updates of the ascending stream are below a cursor. */
  function UpdatesBelow(us: seq<Update>, cursor: int): (n: nat)
    ensures n <= |us|
  {
    if us == [] then 0
    else if us[|us| - 1].id < cursor then |us|
    else UpdatesBelow(us[..|us| - 1], cursor)
  }

  /** Where the room holds a message identity. */
  function IndexOf(room: seq<RoomMsg>, id: MsgId): Option<nat> {
    if room == [] then None
    else if room[|room| - 1].id == id then Some(|room| - 1)
    else IndexOf(room[..|room| - 1], id)
  }

  datatype Appended = Inserted(room: seq<RoomMsg>) | Replayed | Conflict

  /** The server's idempotent append: an identity already used must carry the same message. */
  function ServerAppend(room: seq<RoomMsg>, id: MsgId, author: Author, kind: string, content: Content): Appended {
    var at := IndexOf(room, id);
    if at.None? then Inserted(room + [RoomMsg(TipOf(room) + 1, id, author, kind, content)])
    else if at.value < |room| && room[at.value] == RoomMsg(room[at.value].seqNo, id, author, kind, content) then
      Replayed
    else Conflict
  }

  const BRIDGE_KIND := "bridge"

  function AppendPending(room: seq<RoomMsg>, p: Pending): Appended {
    ServerAppend(room, Telegram(p.update), Bridge, BRIDGE_KIND, p.content)
  }

  predicate Eligible(m: RoomMsg) {
    m.author.Agent? && m.kind != "thinking" && m.kind != "system"
  }

  function Truncate(name: string): string {
    if |name| <= 128 then name else name[..128]
  }

  function Render(m: RoomMsg, plain: string): string {
    (if m.author.Agent? then Truncate(m.author.name) else "") + ": " + plain
  }

  /** What the process sends for an eligible message; None means it must stop. */
  function NoticeFor(key: int, skip: Option<int>, m: RoomMsg): Option<Notice> {
    var plain := Decrypt(key, m.content);
    if plain.Some? then Some(Plain(Render(m, plain.value)))
    else if skip == Some(m.seqNo) then Some(Gap(skip, key))
    else None
  }

  predicate Saving(p: Proc) {
    p.BootSave? || p.FlushSave? || p.PrepareSave? || p.SkipSave? || p.BlockSave? || p.RelaySave?
  }

  function AfterSave(p: Proc): Proc
    requires Saving(p)
  {
    match p
    case BootSave => Flush(Poll)
    case FlushSave(cont) => Flushed(cont)
    case PrepareSave(i, j) => Flush(Go(i, j))
    case SkipSave(i, j) => Process(i, j)
    case BlockSave => Reload
    case RelaySave(i, j) => Relay(i, j)
  }

  function Flushed(cont: Cont): Proc {
    match cont
    case Poll => Polling
    case Prepare(i, j) => Flush(cont)
    case Go(i, j) => Process(i, j)
  }

  predicate Enabled(us: seq<Update>, s: Sys, step: Step) {
    match step
    case Start(_, _) => s.proc.Down?
    case Crash => true
    case SaveOk => Saving(s.proc)
    case SaveFailed(_) => Saving(s.proc)
    case Append(_) => s.proc.Flush? && s.mem.pending.Some?
    case AppendRefused => s.proc.Flush? && s.mem.pending.Some?
    case Continue(_) => s.proc.Flush? && s.mem.pending.None? && (s.proc.cont.Prepare? ==> s.proc.cont.i < |us|)
    case PollOk(n) => s.proc.Polling? && n <= 100
    case PollFailed => s.proc.Polling?
    case Handle => s.proc.Process? && s.proc.j <= |us|
    case FetchOk => s.proc.Fetching?
    case FetchFailed => s.proc.Fetching?
    case RelayNext(_) => s.proc.Relay? && s.proc.j <= |s.room|
    case ReloadFile => s.proc.Reload? && s.disk.Some?
    case Foreign(_, _, _, _) => true
  }

  function DoStart(s: Sys, key: int, skip: Option<int>): Sys {
    var skips := if skip.Some? then s.skips + {skip.value} else s.skips;
    var up := s.(proc := BootSave, key := key, skip := skip, skips := skips);
    if s.disk.Some? then up.(mem := s.disk.value)
    else up.(mem := State(None, TipOf(s.room), None, None), origin := TipOf(s.room))
  }

  function DoSaveOk(s: Sys): Sys
    requires Saving(s.proc)
  {
    s.(disk := Some(s.mem), proc := AfterSave(s.proc))
  }

  function DoSaveFailed(s: Sys, landed: bool): Sys {
    s.(disk := if landed then Some(s.mem) else s.disk, proc := if s.proc.BootSave? then Down else Reload)
  }

  function DoAppend(s: Sys, replyLost: bool): Sys
    requires s.proc.Flush? && s.mem.pending.Some?
  {
    var p := s.mem.pending.value;
    var result := AppendPending(s.room, p);
    if result.Conflict? then s.(proc := Reload)
    else
      var s' := if result.Inserted? then s.(room := result.room) else s;
      if replyLost then s'.(proc := Reload)
      else s'.(mem := s.mem.(cursor := Some(p.nextCursor), pending := None), proc := FlushSave(s.proc.cont))
  }

  function Decimal(n: int): string
    decreases if n < 0 then 1 - n else n
  {
    if n < 0 then "-" + Decimal(-n)
    else if n < 10 then [(n + '0' as int) as char]
    else Decimal(n / 10) + [(n % 10 + '0' as int) as char]
  }

  /** The plaintext of an accepted update. */
  function PlainOf(u: Update): string {
    match Inbound(u)
    case Accepted(sender, text) => "Telegram user " + Decimal(sender) + ": " + text
    case _ => ""
  }

  /** Ciphertext for an accepted update; each encryption draws its own nonce. */
  function PendingFor(u: Update, key: int, nonce: int): Pending {
    Pending(u.id + 1, u.id, Cipher(key, nonce, PlainOf(u)))
  }

  function DoContinue(us: seq<Update>, s: Sys, nonce: int): Sys
    requires s.proc.Flush? && (s.proc.cont.Prepare? ==> s.proc.cont.i < |us|)
  {
    match s.proc.cont
    case Prepare(i, j) =>
      s.(mem := s.mem.(pending := Some(PendingFor(us[i], s.key, nonce))), proc := PrepareSave(i + 1, j))
    case _ => s.(proc := Flushed(s.proc.cont))
  }

  function DoPollOk(us: seq<Update>, s: Sys, n: nat): Sys {
    var i := UpdatesBelow(us, Offset(s.mem));
    s.(proc := Process(i, Min(i + n, |us|)))
  }

  function DoHandle(us: seq<Update>, s: Sys): Sys
    requires s.proc.Process? && s.proc.j <= |us|
  {
    var Process(i, j) := s.proc;
    if i >= j then s.(proc := Fetching)
    else if us[i].id < 0 then s.(proc := Reload)
    else if us[i].id < Offset(s.mem) then s.(proc := Process(i + 1, j))
    else
      match Inbound(us[i])
      case Malformed => s.(proc := Reload)
      case Ignored => s.(mem := s.mem.(cursor := Some(us[i].id + 1)), proc := SkipSave(i + 1, j))
      case Accepted(_, _) => s.(proc := Flush(Prepare(i, j)))
  }

  function DoFetchOk(s: Sys): Sys {
    var i := PosOf(s.room, s.mem.roomSeq);
    s.(proc := Relay(i, Min(i + 100, |s.room|)))
  }

  /** The message is behind us: advance the sequence in memory. */
  function Passed(s: Sys, m: RoomMsg, i: nat, j: nat): Sys {
    s.(mem := s.mem.(roomSeq := m.seqNo, reported := None), proc := RelaySave(i + 1, j))
  }

  function Fated(s: Sys, whole: Out, fate: SendFate): Sys {
    match fate
    case Delivered => s.(out := s.out + [whole])
    case LostReply => s.(out := s.out + [whole], proc := Reload)
    case CutShort => s.(out := s.out + [Partial(whole.seqNo)], proc := Reload)
    case Refused => s.(proc := Reload)
  }

  function DoRelay(s: Sys, fate: SendFate): Sys
    requires s.proc.Relay? && s.proc.j <= |s.room|
  {
    var Relay(i, j) := s.proc;
    if i >= j then s.(proc := Flush(Poll))
    else
      var m := s.room[i];
      if !Eligible(m) then Passed(s, m, i, j)
      else
        var notice := NoticeFor(s.key, s.skip, m);
        if notice.Some? then
          var s' := Fated(s, Full(m.seqNo, notice.value), fate);
          if fate.Delivered? then Passed(s', m, i, j) else s'
        else if s.mem.reported == Some(m.seqNo) then s.(proc := Reload)
        else
          var s' := Fated(s, Pause(m.seqNo), fate);
          if fate.Delivered? then s'.(mem := s.mem.(reported := Some(m.seqNo)), proc := BlockSave) else s'
  }

  function Next(us: seq<Update>, s: Sys, step: Step): Sys
    requires Enabled(us, s, step)
  {
    match step
    case Start(key, skip) => DoStart(s, key, skip)
    case Crash => s.(proc := Down)
    case SaveOk => DoSaveOk(s)
    case SaveFailed(landed) => DoSaveFailed(s, landed)
    case Append(replyLost) => DoAppend(s, replyLost)
    case AppendRefused => s.(proc := Reload)
    case Continue(nonce) => DoContinue(us, s, nonce)
    case PollOk(n) => DoPollOk(us, s, n)
    case PollFailed => s.(proc := Reload)
    case Handle => DoHandle(us, s)
    case FetchOk => DoFetchOk(s)
    case FetchFailed => s.(proc := Reload)
    case RelayNext(fate) => DoRelay(s, fate)
    case ReloadFile => s.(mem := s.disk.value, proc := Flush(Poll))
    case Foreign(name, agent, kind, content) =>
      var posted := ServerAppend(s.room, Other(name), Agent(agent, agent), kind, content);
      if posted.Inserted? then s.(room := posted.room) else s
  }

  predicate Runs(us: seq<Update>, s: Sys, steps: seq<Step>, end: Sys)
    decreases |steps|
  {
    if steps == [] then s == end
    else Enabled(us, s, steps[0]) && Runs(us, Next(us, s, steps[0]), steps[1..], end)
  }

  /** Nothing installed yet: no file, an arbitrary room without bridge messages, an empty chat. */
  predicate Initial(s: Sys) {
    && s.disk.None? && s.proc.Down? && s.out == []
    && RoomOK(s.room) && (forall i :: 0 <= i < |s.room| ==> s.room[i].id.Other?)
  }

  predicate RoomOK(room: seq<RoomMsg>) {
    && (forall i :: 0 <= i < |room| ==> 0 < room[i].seqNo)
    && (forall i, j :: 0 <= i < j < |room| ==> room[i].seqNo < room[j].seqNo)
  }

  /** Telegram's promise: update ids ascend. */
  predicate Ascending(us: seq<Update>) {
    forall i, j :: 0 <= i < j < |us| ==> us[i].id < us[j].id
  }
}
