/** Inbound: every accepted update below the saved cursor is in the room exactly once, in order. */
module BridgeInbound {
  import opened Prelude
  import opened BridgeModel

  predicate IsAccepted(u: Update) {
    Inbound(u).Accepted?
  }

  /** Ids of the accepted updates among the first `n`. */
  function AcceptedIds(us: seq<Update>, n: nat): seq<int>
    requires n <= |us|
  {
    if n == 0 then []
    else AcceptedIds(us, n - 1) + (if IsAccepted(us[n - 1]) then [us[n - 1].id] else [])
  }

  /** Ids of the updates the bridge has put in the room, in room order. */
  function Bridged(room: seq<RoomMsg>): seq<int> {
    if room == [] then []
    else
      var last := room[|room| - 1];
      Bridged(room[..|room| - 1]) + (if last.id.Telegram? then [last.id.update] else [])
  }

  function Below(us: seq<Update>, st: State): nat {
    UpdatesBelow(us, Offset(st))
  }

  lemma {:induction false} BelowMeans(us: seq<Update>, cursor: int)
    requires Ascending(us)
    ensures UpdatesBelow(us, cursor) <= |us|
    ensures forall i :: 0 <= i < UpdatesBelow(us, cursor) ==> us[i].id < cursor
    ensures forall i :: UpdatesBelow(us, cursor) <= i < |us| ==> us[i].id >= cursor
  {
    if us != [] && us[|us| - 1].id >= cursor {
      var init := us[..|us| - 1];
      BelowMeans(init, cursor);
      assert forall i :: 0 <= i < |init| ==> us[i] == init[i];
    }
  }

  lemma BelowNext(us: seq<Update>, n: nat)
    requires Ascending(us) && n < |us|
    ensures UpdatesBelow(us, us[n].id + 1) == n + 1
  {
    BelowMeans(us, us[n].id + 1);
  }

  lemma {:induction false} AcceptedBelow(us: seq<Update>, n: nat, id: int)
    requires Ascending(us) && n < |us| && id == us[n].id
    ensures id !in AcceptedIds(us, n)
  {
    AcceptedSmaller(us, n, id);
  }

  lemma {:induction false} AcceptedSmaller(us: seq<Update>, n: nat, id: int)
    requires n <= |us| && forall i :: 0 <= i < n ==> us[i].id < id
    ensures id !in AcceptedIds(us, n)
  {
    if n > 0 {
      AcceptedSmaller(us, n - 1, id);
    }
  }

  lemma {:induction false} NoneBelowZero(us: seq<Update>, n: nat)
    requires n <= |us| && forall i :: 0 <= i < n ==> us[i].id < 0
    ensures AcceptedIds(us, n) == []
  {
    if n > 0 {
      NoneBelowZero(us, n - 1);
    }
  }

  lemma BridgedPost(room: seq<RoomMsg>, m: RoomMsg)
    ensures Bridged(room + [m]) == Bridged(room) + (if m.id.Telegram? then [m.id.update] else [])
  {
    assert (room + [m])[..|room|] == room;
  }

  lemma {:induction false} IndexMeans(room: seq<RoomMsg>, id: MsgId)
    ensures var at := IndexOf(room, id);
            if at.Some? then at.value < |room| && room[at.value].id == id
            else forall i :: 0 <= i < |room| ==> room[i].id != id
  {
    if room != [] && room[|room| - 1].id != id {
      IndexMeans(room[..|room| - 1], id);
    }
  }

  lemma {:induction false} BridgedHas(room: seq<RoomMsg>, update: int)
    ensures update in Bridged(room) <==> IndexOf(room, Telegram(update)).Some?
  {
    if room != [] {
      BridgedHas(room[..|room| - 1], update);
    }
  }

  /** Every room message with this pending identity is this pending message. */
  predicate Carries(room: seq<RoomMsg>, p: Pending) {
    forall i :: 0 <= i < |room| && room[i].id == Telegram(p.update) ==>
      room[i] == RoomMsg(room[i].seqNo, Telegram(p.update), Bridge, BRIDGE_KIND, p.content)
  }

  /** The pending record is the next accepted update, ready to be sent or already in the room. */
  predicate PendingOK(us: seq<Update>, room: seq<RoomMsg>, p: Pending, n: nat) {
    && n < |us|
    && IsAccepted(us[n])
    && p.update == us[n].id
    && p.nextCursor == us[n].id + 1
    && p.content.Cipher? && p.content.plain == PlainOf(us[n])
    && (Bridged(room) == AcceptedIds(us, n) || (Bridged(room) == AcceptedIds(us, n + 1) && Carries(room, p)))
  }

  /** What a state file says about the room is true. */
  predicate Good(us: seq<Update>, room: seq<RoomMsg>, st: State) {
    var n := Below(us, st);
    && n <= |us|
    && (if st.pending.None? then Bridged(room) == AcceptedIds(us, n)
        else PendingOK(us, room, st.pending.value, n))
  }

  predicate ContOK(us: seq<Update>, mem: State, cont: Cont) {
    match cont
    case Poll => true
    case Prepare(i, j) => mem.pending.None? && i < |us| && i == Below(us, mem) && IsAccepted(us[i])
    case Go(i, j) => i <= Below(us, mem) + (if mem.pending.Some? then 1 else 0)
  }

  /** How memory relates to the file at each point of the process. */
  predicate ProcOK(us: seq<Update>, room: seq<RoomMsg>, d: State, mem: State, proc: Proc) {
    match proc
    case Down => true
    case Reload => true
    case BootSave => mem == d
    case Flush(cont) => mem == d && ContOK(us, mem, cont)
    case FlushSave(cont) =>
      && mem.pending.None? && d.pending.Some?
      && mem == d.(cursor := Some(d.pending.value.nextCursor), pending := None)
      && Good(us, room, mem) && ContOK(us, mem, cont)
    case Process(i, j) => mem == d && mem.pending.None? && i <= Below(us, mem)
    case PrepareSave(i, j) => mem.pending.Some? && mem == d.(pending := mem.pending)
        && Good(us, room, mem) && i <= Below(us, mem) + 1
    case SkipSave(i, j) =>
      mem.pending.None? && mem == d.(cursor := mem.cursor) && Good(us, room, mem) && i <= Below(us, mem)
    case BlockSave => mem.pending.None? && mem == d.(reported := mem.reported)
    case RelaySave(i, j) => mem.pending.None? && mem == d.(roomSeq := mem.roomSeq, reported := None)
    case _ => mem == d && mem.pending.None?
  }

  predicate Inv(us: seq<Update>, s: Sys) {
    if s.disk.None? then
      && Bridged(s.room) == []
      && (s.proc.Down? || (s.proc.BootSave? && s.mem.pending.None? && s.mem.cursor.None?))
    else Good(us, s.room, s.disk.value) && ProcOK(us, s.room, s.disk.value, s.mem, s.proc)
  }

  lemma EmptyGood(us: seq<Update>, room: seq<RoomMsg>, st: State)
    requires Ascending(us) && Bridged(room) == [] && st.pending.None? && st.cursor.None?
    ensures Good(us, room, st)
  {
    BelowMeans(us, 0);
    NoneBelowZero(us, UpdatesBelow(us, 0));
  }

  /** Whatever is about to be saved is as true as what the file says now. */
  lemma MemoryGood(us: seq<Update>, s: Sys)
    requires Ascending(us) && Inv(us, s) && Saving(s.proc)
    ensures Good(us, s.room, s.mem)
  {
    if s.disk.None? {
      EmptyGood(us, s.room, s.mem);
    }
  }

  lemma SaveInv(us: seq<Update>, s: Sys, ok: bool, landed: bool)
    requires Ascending(us) && Inv(us, s) && Saving(s.proc)
    ensures Inv(us, if ok then DoSaveOk(s) else DoSaveFailed(s, landed))
  {
    MemoryGood(us, s);
  }

  /** The server never answers a conflict: the identity is free, or it holds this very ciphertext. */
  lemma AppendFits(us: seq<Update>, room: seq<RoomMsg>, st: State)
    requires Ascending(us) && Good(us, room, st) && st.pending.Some?
    ensures var p := st.pending.value;
            var r := AppendPending(room, p);
            var room' := if r.Inserted? then r.room else room;
            && !r.Conflict?
            && Bridged(room') == AcceptedIds(us, Below(us, st) + 1)
            && Carries(room', p)
            && (r.Replayed? <==> Bridged(room) == AcceptedIds(us, Below(us, st) + 1))
  {
    var p := st.pending.value;
    var n := Below(us, st);
    BridgedHas(room, p.update);
    IndexMeans(room, Telegram(p.update));
    AcceptedBelow(us, n, p.update);
    assert AcceptedIds(us, n + 1) == AcceptedIds(us, n) + [p.update];
    assert p.update in AcceptedIds(us, n + 1);
    BridgedPost(room, RoomMsg(TipOf(room) + 1, Telegram(p.update), Bridge, BRIDGE_KIND, p.content));
  }

  lemma AppendInv(us: seq<Update>, s: Sys, replyLost: bool)
    requires Ascending(us) && Inv(us, s) && s.proc.Flush? && s.mem.pending.Some?
    ensures Inv(us, DoAppend(s, replyLost))
  {
    var d := s.disk.value;
    AppendFits(us, s.room, d);
    BelowNext(us, Below(us, d));
  }

  lemma ContinueInv(us: seq<Update>, s: Sys, nonce: int)
    requires Ascending(us) && Inv(us, s) && Enabled(us, s, Continue(nonce))
    ensures Inv(us, DoContinue(us, s, nonce))
  {
  }

  /** The update at hand is the next one: all earlier ones are below the cursor. */
  lemma AtHand(us: seq<Update>, st: State, i: nat)
    requires Ascending(us) && i < |us| && i <= Below(us, st) && us[i].id >= Offset(st)
    ensures i == Below(us, st) && UpdatesBelow(us, us[i].id + 1) == i + 1
    ensures !IsAccepted(us[i]) ==> AcceptedIds(us, i + 1) == AcceptedIds(us, i)
  {
    BelowMeans(us, Offset(st));
    BelowNext(us, i);
  }

  lemma HandleInv(us: seq<Update>, s: Sys)
    requires Ascending(us) && Inv(us, s) && Enabled(us, s, Handle)
    ensures Inv(us, DoHandle(us, s))
  {
    var Process(i, j) := s.proc;
    if i < j {
      if us[i].id >= Offset(s.mem) {
        AtHand(us, s.mem, i);
      } else {
        BelowMeans(us, Offset(s.mem));
      }
    }
  }

  lemma PollInv(us: seq<Update>, s: Sys, n: nat)
    requires Inv(us, s) && s.proc.Polling?
    ensures Inv(us, DoPollOk(us, s, n))
  {
  }

  /** Relaying touches neither the inbound half of the state nor the file or the room. */
  lemma RelayShape(s: Sys, fate: SendFate)
    requires s.proc.Relay? && s.proc.j <= |s.room|
    ensures var s' := DoRelay(s, fate);
            && s'.disk == s.disk && s'.room == s.room
            && (s'.proc == Flush(Poll) ==> s'.mem == s.mem)
            && (s'.proc.RelaySave? ==> s'.mem == s.mem.(roomSeq := s'.mem.roomSeq, reported := None))
            && (s'.proc.BlockSave? ==> s'.mem == s.mem.(reported := s'.mem.reported))
            && (s'.proc == Flush(Poll) || s'.proc.RelaySave? || s'.proc.BlockSave? || s'.proc.Reload?)
  {
  }

  lemma RelayInv(us: seq<Update>, s: Sys, fate: SendFate)
    requires Inv(us, s) && s.proc.Relay? && s.proc.j <= |s.room|
    ensures Inv(us, DoRelay(s, fate))
  {
    RelayShape(s, fate);
    var s' := DoRelay(s, fate);
    assert ProcOK(us, s'.room, s'.disk.value, s'.mem, s'.proc);
  }

  lemma GoodPost(us: seq<Update>, room: seq<RoomMsg>, m: RoomMsg, st: State)
    requires Good(us, room, st) && m.id.Other?
    ensures Good(us, room + [m], st)
  {
    BridgedPost(room, m);
  }

  lemma ForeignInv(us: seq<Update>, s: Sys, room: seq<RoomMsg>, m: RoomMsg)
    requires Inv(us, s) && m.id.Other? && room == s.room + [m]
    ensures Inv(us, s.(room := room))
  {
    if s.disk.None? {
      BridgedPost(s.room, m);
    } else {
      GoodPost(us, s.room, m, s.disk.value);
      if s.proc.FlushSave? || s.proc.PrepareSave? || s.proc.SkipSave? {
        GoodPost(us, s.room, m, s.mem);
      }
    }
  }

  lemma ForeignStepInv(us: seq<Update>, s: Sys, name: string, agent: string, kind: string, content: Content)
    requires Inv(us, s)
    ensures Inv(us, Next(us, s, Foreign(name, agent, kind, content)))
  {
    var m := RoomMsg(TipOf(s.room) + 1, Other(name), Agent(agent, agent), kind, content);
    if IndexOf(s.room, Other(name)).None? {
      ForeignInv(us, s, s.room + [m], m);
    }
  }

  lemma InvPreserved(us: seq<Update>, s: Sys, step: Step)
    requires Ascending(us) && Inv(us, s) && Enabled(us, s, step)
    ensures Inv(us, Next(us, s, step))
  {
    match step
    case SaveOk => SaveInv(us, s, true, false);
    case SaveFailed(landed) => SaveInv(us, s, false, landed);
    case Append(replyLost) => AppendInv(us, s, replyLost);
    case Continue(nonce) => ContinueInv(us, s, nonce);
    case PollOk(n) => PollInv(us, s, n);
    case Handle => HandleInv(us, s);
    case RelayNext(fate) => RelayInv(us, s, fate);
    case Foreign(name, agent, kind, content) => ForeignStepInv(us, s, name, agent, kind, content);
    case _ =>
  }

  lemma {:induction false} InvAlways(us: seq<Update>, s: Sys, steps: seq<Step>, end: Sys)
    requires Ascending(us) && Inv(us, s) && Runs(us, s, steps, end)
    ensures Inv(us, end)
    decreases |steps|
  {
    if steps != [] {
      InvPreserved(us, s, steps[0]);
      InvAlways(us, Next(us, s, steps[0]), steps[1..], end);
    }
  }

  lemma {:induction false} InitialInv(us: seq<Update>, room: seq<RoomMsg>)
    requires forall i :: 0 <= i < |room| ==> room[i].id.Other?
    ensures Bridged(room) == []
  {
    if room != [] {
      InitialInv(us, room[..|room| - 1]);
    }
  }

  /**
   * Exactly once, over every run with crashes, lost replies and ambiguous saves: the bridge's
   * messages are the accepted updates below the saved cursor, once each and in update order, plus
   * at most the pending one, whose ciphertext is the saved one.
   */
  lemma InboundExactlyOnce(us: seq<Update>, start: Sys, steps: seq<Step>, end: Sys)
    requires Ascending(us) && Initial(start) && Runs(us, start, steps, end)
    ensures end.disk.None? ==> Bridged(end.room) == []
    ensures end.disk.Some? ==>
              var n := Below(us, end.disk.value);
              n <= |us| && (Bridged(end.room) == AcceptedIds(us, n)
                            || (n < |us| && Bridged(end.room) == AcceptedIds(us, n + 1)
                                && end.disk.value.pending.Some? && end.disk.value.pending.value.update == us[n].id
                                && Carries(end.room, end.disk.value.pending.value)))
  {
    InitialInv(us, start.room);
    InvAlways(us, start, steps, end);
  }

  /** No replay of a pending record ever conflicts with what the server holds. */
  lemma ReplayNeverConflicts(us: seq<Update>, start: Sys, steps: seq<Step>, end: Sys)
    requires Ascending(us) && Initial(start) && Runs(us, start, steps, end)
    requires end.proc.Flush? && end.mem.pending.Some?
    ensures !AppendPending(end.room, end.mem.pending.value).Conflict?
  {
    InitialInv(us, start.room);
    InvAlways(us, start, steps, end);
    AppendFits(us, end.room, end.disk.value);
  }

  /** The ids of accepted updates ascend, so "in update order" leaves no room for a repeat. */
  lemma {:induction false} AcceptedAscend(us: seq<Update>, n: nat)
    requires Ascending(us) && n <= |us|
    ensures forall i, j :: 0 <= i < j < |AcceptedIds(us, n)| ==> AcceptedIds(us, n)[i] < AcceptedIds(us, n)[j]
    ensures n > 0 ==> forall i :: 0 <= i < |AcceptedIds(us, n)| ==> AcceptedIds(us, n)[i] <= us[n - 1].id
  {
    if n > 0 {
      AcceptedAscend(us, n - 1);
    }
  }

  /** A room message with a bridge identity carries the text of the update it is named after. */
  predicate Tells(us: seq<Update>, m: RoomMsg) {
    m.id.Telegram? ==>
      && m.author.Bridge?
      && m.content.Cipher?
      && exists k :: 0 <= k < |us| && us[k].id == m.id.update && IsAccepted(us[k]) && m.content.plain == PlainOf(us[k])
  }

  predicate AllTell(us: seq<Update>, room: seq<RoomMsg>) {
    forall i :: 0 <= i < |room| ==> Tells(us, room[i])
  }

  lemma AppendTells(us: seq<Update>, s: Sys, replyLost: bool)
    requires Ascending(us) && Inv(us, s) && s.proc.Flush? && s.mem.pending.Some? && AllTell(us, s.room)
    ensures AllTell(us, DoAppend(s, replyLost).room)
  {
    var p := s.mem.pending.value;
    assert PendingOK(us, s.room, p, Below(us, s.mem));
    assert Tells(us, RoomMsg(TipOf(s.room) + 1, Telegram(p.update), Bridge, BRIDGE_KIND, p.content));
  }

  lemma TellsPreserved(us: seq<Update>, s: Sys, step: Step)
    requires Ascending(us) && Inv(us, s) && AllTell(us, s.room) && Enabled(us, s, step)
    ensures AllTell(us, Next(us, s, step).room)
  {
    if step.Append? {
      AppendTells(us, s, step.replyLost);
    } else if step.RelayNext? {
      RelayShape(s, step.fate);
    }
  }

  lemma {:induction false} RoomTells(us: seq<Update>, s: Sys, steps: seq<Step>, end: Sys)
    requires Ascending(us) && Inv(us, s) && AllTell(us, s.room) && Runs(us, s, steps, end)
    ensures AllTell(us, end.room)
    decreases |steps|
  {
    if steps != [] {
      InvPreserved(us, s, steps[0]);
      TellsPreserved(us, s, steps[0]);
      RoomTells(us, Next(us, s, steps[0]), steps[1..], end);
    }
  }

  /** What reaches the room under an update's identity is that update's sender and text. */
  lemma InboundKeepsText(us: seq<Update>, start: Sys, steps: seq<Step>, end: Sys)
    requires Ascending(us) && Initial(start) && Runs(us, start, steps, end)
    ensures AllTell(us, end.room)
  {
    InitialInv(us, start.room);
    RoomTells(us, start, steps, end);
  }
}
