/** The bridge's own methods, each doing exactly the steps of BridgeModel it stands for. */
module BridgeProcess {
  import opened Prelude
  import opened BridgeModel

  lemma RunsOne(us: seq<Update>, s: Sys, step: Step)
    requires Enabled(us, s, step)
    ensures Runs(us, s, [step], Next(us, s, step))
  {
    assert Runs(us, Next(us, s, step), [], Next(us, s, step));
  }

  lemma {:induction false} RunsAppend(us: seq<Update>, s: Sys, steps: seq<Step>, mid: Sys, more: seq<Step>, end: Sys)
    requires Runs(us, s, steps, mid) && Runs(us, mid, more, end)
    ensures Runs(us, s, steps + more, end)
    decreases |steps|
  {
    if steps == [] {
      assert steps + more == more;
    } else {
      RunsAppend(us, Next(us, s, steps[0]), steps[1..], mid, more, end);
      assert (steps + more)[0] == steps[0] && (steps + more)[1..] == steps[1..] + more;
    }
  }

  class BridgeProcess {
    const updates: seq<Update>
    const key: int
    const skip: Option<int>
    var state: State
    var disk: Option<State>
    var room: seq<RoomMsg>
    var chat: seq<Out>
    ghost var sys: Sys
    ghost var steps: seq<Step>
    ghost const begin: Sys

    /** The fields are the machine's state, reached from `begin` by the recorded steps. */
    ghost predicate Valid()
      reads this
    {
      && sys.mem == state && sys.disk == disk && sys.room == room && sys.out == chat
      && sys.key == key && sys.skip == skip
      && Runs(updates, begin, steps, sys)
    }

    constructor (updates: seq<Update>, at: Sys)
      ensures Valid() && sys == at && begin == at && this.updates == updates
    {
      this.updates, key, skip := updates, at.key, at.skip;
      state, disk, room, chat := at.mem, at.disk, at.room, at.out;
      sys, steps, begin := at, [], at;
    }

    /** Record one machine step whose effect the fields are about to show, or already show. */
    ghost method Advance(step: Step)
      requires Runs(updates, begin, steps, sys) && Enabled(updates, sys, step)
      modifies this`sys, this`steps
      ensures sys == Next(updates, old(sys), step) && Runs(updates, begin, steps, sys)
    {
      RunsOne(updates, sys, step);
      RunsAppend(updates, begin, steps, sys, [step], Next(updates, sys, step));
      steps := steps + [step];
      sys := Next(updates, sys, step);
    }

    /** `save`: write aside, rename, sync; an error may come before or after the rename. */
    method Save() returns (ok: bool)
      requires Valid() && Saving(sys.proc) && !sys.proc.BootSave?
      modifies this`disk, this`sys, this`steps
      ensures Valid()
      ensures ok ==> sys.proc == AfterSave(old(sys.proc)) && disk == Some(state)
      ensures !ok ==> sys.proc.Reload? && (disk == old(disk) || disk == Some(state))
    {
      ok := *;
      if ok {
        Advance(SaveOk);
        disk := Some(state);
      } else {
        var landed: bool := *;
        Advance(SaveFailed(landed));
        if landed {
          disk := Some(state);
        }
      }
    }

    /** `flush_pending`: replay the pending record, then clear it and advance the cursor. */
    method FlushPending(ghost cont: Cont) returns (ok: bool)
      requires Valid() && sys.proc == Flush(cont)
      modifies this
      ensures Valid()
      ensures ok ==> state.pending.None?
      ensures ok ==> sys.proc == (if cont.Prepare? then Flush(cont) else Flushed(cont))
      ensures !ok ==> sys.proc.Reload?
    {
      if state.pending.None? {
        if !cont.Prepare? {
          Advance(Continue(0));
        }
        return true;
      }
      var p := state.pending.value;
      var sent: bool := *;
      if !sent {
        Advance(AppendRefused);
        return false;
      }
      var replyLost: bool := *;
      var result := AppendPending(room, p);
      Advance(Append(replyLost));
      if result.Inserted? {
        room := result.room;
      }
      if result.Conflict? || replyLost {
        return false;
      }
      state := state.(cursor := Some(p.nextCursor), pending := None);
      ok := Save();
    }

    /** `receive`: make the event durable before it is sent, so a retry sends the same ciphertext. */
    method Receive(i: nat, j: nat) returns (ok: bool)
      requires Valid() && sys.proc == Flush(Prepare(i, j)) && i < |updates|
      modifies this
      ensures Valid()
      ensures if ok then sys.proc == Process(i + 1, j) && state.pending.None? else sys.proc.Reload?
    {
      ok := FlushPending(Prepare(i, j));
      if !ok {
        return;
      }
      var nonce: int := *;
      Advance(Continue(nonce));
      state := state.(pending := Some(PendingFor(updates[i], key, nonce)));
      ok := Save();
      if !ok {
        return;
      }
      ok := FlushPending(Go(i + 1, j));
    }

    /** The update loop of `pump`. */
    method ProcessUpdates(from: nat, j: nat) returns (ok: bool)
      requires Valid() && sys.proc == Process(from, j) && j <= |updates|
      modifies this
      ensures Valid()
      ensures if ok then sys.proc == Fetching else sys.proc.Reload?
    {
      var i := from;
      while i < j
        invariant Valid() && sys.proc == Process(i, j)
        decreases j - i
      {
        var u := updates[i];
        Advance(Handle);
        if u.id < 0 {
          return false;
        }
        if u.id >= Offset(state) {
          match Inbound(u)
          case Malformed => return false;
          case Ignored =>
            state := state.(cursor := Some(u.id + 1));
            var saved := Save();
            if !saved {
              return false;
            }
          case Accepted(_, _) =>
            var received := Receive(i, j);
            if !received {
              return false;
            }
        }
        i := i + 1;
      }
      Advance(Handle);
      return true;
    }

    /** The connector: the chat accepts the text, loses the reply, takes part of it, or nothing. */
    method Send(whole: Out, fate: SendFate) returns (ok: bool)
      requires !whole.Partial?
      modifies this`chat
      ensures chat == (if fate.Refused? then old(chat)
                       else old(chat) + [if fate.CutShort? then Partial(whole.seqNo) else whole])
      ensures ok <==> fate.Delivered?
    {
      if !fate.Refused? {
        chat := chat + [if fate.CutShort? then Partial(whole.seqNo) else whole];
      }
      return fate.Delivered?;
    }

    /** The eligible arm of the `forward` loop: send the text, or pause at what cannot be read. */
    method Tell(m: RoomMsg, fate: SendFate) returns (ok: bool)
      requires sys.proc.Relay? && sys.proc.i < sys.proc.j <= |room| && m == room[sys.proc.i] && Eligible(m) && Valid()
      modifies this
      ensures ok ==> sys == Next(updates, old(sys), RelayNext(fate)) && sys.proc.RelaySave?
      ensures ok ==> sys.mem == state.(roomSeq := m.seqNo, reported := None) && state == old(state)
      ensures ok ==> sys.disk == disk && sys.room == room && sys.out == chat && sys.key == key && sys.skip == skip
      ensures Runs(updates, begin, steps, sys) && room == old(room)
      ensures !ok ==> Valid() && sys.proc.Reload?
    {
      Advance(RelayNext(fate));
      var notice := NoticeFor(key, skip, m);
      if notice.Some? {
        ok := Send(Full(m.seqNo, notice.value), fate);
        return;
      }
      if state.reported == Some(m.seqNo) {
        return false;
      }
      var told := Send(Pause(m.seqNo), fate);
      if told {
        state := state.(reported := Some(m.seqNo));
        var _ := Save();
      }
      return false;
    }

    /** One message of the `forward` loop, saved before the next is sent. */
    method RelayOne(i: nat, j: nat) returns (ok: bool)
      requires Valid() && sys.proc == Relay(i, j) && i < j <= |room|
      modifies this
      ensures Valid() && room == old(room)
      ensures if ok then sys.proc == Relay(i + 1, j) else sys.proc.Reload?
    {
      var m := room[i];
      if Eligible(m) {
        var fate: SendFate := *;
        ok := Tell(m, fate);
        if !ok {
          return;
        }
      } else {
        Advance(RelayNext(Refused));
      }
      state := state.(roomSeq := m.seqNo, reported := None);
      ok := Save();
    }

    /** `forward`: tell the chat what the room said, one message and one save at a time. */
    method Forward() returns (ok: bool)
      requires Valid() && sys.proc == Fetching
      modifies this
      ensures Valid()
      ensures if ok then sys.proc == Flush(Poll) else sys.proc.Reload?
    {
      var fetched: bool := *;
      if !fetched {
        Advance(FetchFailed);
        return false;
      }
      var i := PosOf(room, state.roomSeq);
      var j := Min(i + 100, |room|);
      Advance(FetchOk);
      while i < j
        invariant Valid() && sys.proc == Relay(i, j) && j <= |room|
        decreases j - i
      {
        ok := RelayOne(i, j);
        if !ok {
          return;
        }
        i := i + 1;
      }
      Advance(RelayNext(Refused));
      return true;
    }

    /** `pump`: one round in both directions. */
    method Pump() returns (ok: bool)
      requires Valid() && sys.proc == Flush(Poll)
      modifies this
      ensures Valid()
      ensures if ok then sys.proc == Flush(Poll) else sys.proc.Reload?
    {
      ok := FlushPending(Poll);
      if !ok {
        return;
      }
      var answered: bool := *;
      if !answered {
        Advance(PollFailed);
        return false;
      }
      var n: nat := *;
      if n > 100 {
        n := 100;
      }
      var i := UpdatesBelow(updates, Offset(state));
      var j := Min(i + n, |updates|);
      Advance(PollOk(n));
      ok := ProcessUpdates(i, j);
      if !ok {
        return;
      }
      ok := Forward();
    }

    /** The retry of `run`: a failed round forgets memory and starts again from the file. */
    method Retry()
      requires Valid() && sys.proc.Reload? && disk.Some?
      modifies this
      ensures Valid() && sys.proc == Flush(Poll) && disk.Some? && state == disk.value
      ensures disk == old(disk) && room == old(room) && chat == old(chat)
    {
      Advance(ReloadFile);
      state := disk.value;
    }
  }
}
