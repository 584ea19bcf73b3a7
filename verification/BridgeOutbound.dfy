/** Outbound: the chat receives every eligible room message in order, and a gap only on request. */
module BridgeOutbound {
  import opened Prelude
  import opened BridgeModel

  /** Sequences of the eligible messages at positions `p` up to `q` of the room. */
  function Due(room: seq<RoomMsg>, p: nat, q: nat): seq<int>
    requires q <= |room|
  {
    if q <= p then []
    else Due(room, p, q - 1) + (if Eligible(room[q - 1]) then [room[q - 1].seqNo] else [])
  }

  /** Sequences of the whole texts the chat accepted, immediate repeats counted once. */
  function Sent(out: seq<Out>): seq<int> {
    if out == [] then []
    else
      var rest := Sent(out[..|out| - 1]);
      var last := out[|out| - 1];
      if last.Full? && (rest == [] || rest[|rest| - 1] != last.seqNo) then rest + [last.seqNo] else rest
  }

  lemma SentPost(out: seq<Out>, o: Out)
    ensures var rest := Sent(out);
            Sent(out + [o]) == if o.Full? && (rest == [] || rest[|rest| - 1] != o.seqNo) then rest + [o.seqNo] else rest
  {
    assert (out + [o])[..|out|] == out;
  }

  lemma {:induction false} PosMeans(room: seq<RoomMsg>, seqNo: int)
    ensures PosOf(room, seqNo) <= |room|
    ensures PosOf(room, seqNo) > 0 ==> room[PosOf(room, seqNo) - 1].seqNo <= seqNo
    ensures forall i :: PosOf(room, seqNo) <= i < |room| ==> room[i].seqNo > seqNo
  {
    if room != [] && room[|room| - 1].seqNo > seqNo {
      var init := room[..|room| - 1];
      PosMeans(init, seqNo);
      assert forall i :: 0 <= i < |init| ==> room[i] == init[i];
    }
  }

  lemma PosAt(room: seq<RoomMsg>, i: nat)
    requires RoomOK(room) && i < |room|
    ensures PosOf(room, room[i].seqNo) == i + 1
  {
    PosMeans(room, room[i].seqNo);
  }

  lemma PosPost(room: seq<RoomMsg>, m: RoomMsg, seqNo: int)
    requires seqNo < m.seqNo
    ensures PosOf(room + [m], seqNo) == PosOf(room, seqNo)
  {
    assert (room + [m])[..|room|] == room;
  }

  lemma {:induction false} DuePost(room: seq<RoomMsg>, m: RoomMsg, p: nat, q: nat)
    requires q <= |room|
    ensures Due(room + [m], p, q) == Due(room, p, q)
  {
    if p < q {
      DuePost(room, m, p, q - 1);
    }
  }

  /** The last message due is behind position `q`. */
  lemma {:induction false} DueBehind(room: seq<RoomMsg>, p: nat, q: nat)
    requires RoomOK(room) && q < |room|
    ensures var due := Due(room, p, q); due != [] ==> due[|due| - 1] < room[q].seqNo
  {
    if p < q {
      DueBehind(room, p, q - 1);
    }
  }

  /** A state's sequence tells how far the chat has been served: exactly, or one message short. */
  predicate Served(room: seq<RoomMsg>, out: seq<Out>, origin: int, st: State) {
    var p := PosOf(room, origin);
    var q := PosOf(room, st.roomSeq);
    && origin <= st.roomSeq <= TipOf(room)
    && p <= |room| && q <= |room|
    && (Sent(out) == Due(room, p, q) || (q < |room| && Eligible(room[q]) && Sent(out) == Due(room, p, q + 1)))
  }

  /** The chat has everything through the state's sequence and nothing more. */
  predicate Exact(room: seq<RoomMsg>, out: seq<Out>, origin: int, st: State) {
    var q := PosOf(room, st.roomSeq);
    && origin <= st.roomSeq <= TipOf(room)
    && PosOf(room, origin) <= |room| && q <= |room|
    && Sent(out) == Due(room, PosOf(room, origin), q)
  }

  predicate RelayOK(s: Sys, d: State) {
    match s.proc
    case Down => true
    case Reload => true
    case RelaySave(i, j) => j <= |s.room| && i == PosOf(s.room, s.mem.roomSeq) && Exact(s.room, s.out, s.origin, s.mem)
    case Relay(i, j) => j <= |s.room| && i == PosOf(s.room, d.roomSeq) && s.mem.roomSeq == d.roomSeq
    case _ => s.mem.roomSeq == d.roomSeq
  }

  predicate Inv(s: Sys) {
    && RoomOK(s.room)
    && (if s.disk.None? then
          && s.out == []
          && (s.proc.Down? || (s.proc.BootSave? && s.mem.roomSeq == s.origin <= TipOf(s.room)))
        else Served(s.room, s.out, s.origin, s.disk.value) && RelayOK(s, s.disk.value))
  }

  lemma RoomOKPost(room: seq<RoomMsg>, m: RoomMsg)
    requires RoomOK(room) && m.seqNo == TipOf(room) + 1
    ensures RoomOK(room + [m]) && TipOf(room + [m]) == m.seqNo
  {
  }

  lemma SpanPost(room: seq<RoomMsg>, m: RoomMsg, origin: int, seqNo: int)
    requires m.seqNo == TipOf(room) + 1 && origin <= seqNo <= TipOf(room)
    ensures PosOf(room + [m], origin) == PosOf(room, origin) && PosOf(room + [m], seqNo) == PosOf(room, seqNo)
    ensures var p, q := PosOf(room, origin), PosOf(room, seqNo); Due(room + [m], p, q) == Due(room, p, q)
  {
    PosPost(room, m, origin);
    PosPost(room, m, seqNo);
    DuePost(room, m, PosOf(room, origin), PosOf(room, seqNo));
  }

  lemma ServedPost(room: seq<RoomMsg>, m: RoomMsg, out: seq<Out>, origin: int, st: State)
    requires m.seqNo == TipOf(room) + 1
    ensures Served(room, out, origin, st) ==> Served(room + [m], out, origin, st)
  {
    if origin <= st.roomSeq <= TipOf(room) {
      SpanPost(room, m, origin, st.roomSeq);
      var q := PosOf(room, st.roomSeq);
      if q < |room| {
        DuePost(room, m, PosOf(room, origin), q + 1);
      }
    }
  }

  lemma ExactPost(room: seq<RoomMsg>, m: RoomMsg, out: seq<Out>, origin: int, st: State)
    requires m.seqNo == TipOf(room) + 1
    ensures Exact(room, out, origin, st) ==> Exact(room + [m], out, origin, st)
  {
    if origin <= st.roomSeq <= TipOf(room) {
      SpanPost(room, m, origin, st.roomSeq);
    }
  }

  /** Any message appended to the room leaves what was served as it is. */
  lemma RoomGrows(s: Sys, m: RoomMsg)
    requires Inv(s) && m.seqNo == TipOf(s.room) + 1
    ensures Inv(s.(room := s.room + [m]))
  {
    RoomOKPost(s.room, m);
    if s.disk.Some? {
      ServedPost(s.room, m, s.out, s.origin, s.disk.value);
      PosPost(s.room, m, s.disk.value.roomSeq);
      if s.proc.RelaySave? {
        ExactPost(s.room, m, s.out, s.origin, s.mem);
        PosPost(s.room, m, s.mem.roomSeq);
      }
    }
  }

  lemma FirstServed(room: seq<RoomMsg>, st: State)
    requires RoomOK(room) && st.roomSeq <= TipOf(room)
    ensures Served(room, [], st.roomSeq, st)
  {
    PosMeans(room, st.roomSeq);
  }

  lemma SaveInv(s: Sys, ok: bool, landed: bool)
    requires Inv(s) && Saving(s.proc)
    ensures Inv(if ok then DoSaveOk(s) else DoSaveFailed(s, landed))
  {
    if s.disk.None? {
      FirstServed(s.room, s.mem);
    }
  }

  /** Passing a message that needs no text, or whose text was just accepted, is exact. */
  lemma PassExact(room: seq<RoomMsg>, out: seq<Out>, origin: int, d: State, st: State)
    requires RoomOK(room) && Served(room, out, origin, d)
    requires var q := PosOf(room, d.roomSeq); q < |room| && st.roomSeq == room[q].seqNo
    requires !Eligible(room[PosOf(room, d.roomSeq)])
             || Sent(out) == Due(room, PosOf(room, origin), PosOf(room, d.roomSeq) + 1)
    ensures Exact(room, out, origin, st) && PosOf(room, st.roomSeq) == PosOf(room, d.roomSeq) + 1
  {
    var q := PosOf(room, d.roomSeq);
    PosAt(room, q);
    PosMeans(room, origin);
    PosMeans(room, d.roomSeq);
    assert PosOf(room, origin) <= q;
    assert room[q].seqNo <= TipOf(room);
  }

  /** Once the text of the next message is accepted, repeats included, the chat is one ahead. */
  lemma TextServes(room: seq<RoomMsg>, out: seq<Out>, origin: int, d: State, notice: Notice)
    requires RoomOK(room) && Served(room, out, origin, d)
    requires var q := PosOf(room, d.roomSeq); q < |room| && Eligible(room[q])
    ensures var q := PosOf(room, d.roomSeq);
            && Served(room, out + [Full(room[q].seqNo, notice)], origin, d)
            && Sent(out + [Full(room[q].seqNo, notice)]) == Due(room, PosOf(room, origin), q + 1)
  {
    var q := PosOf(room, d.roomSeq);
    var p := PosOf(room, origin);
    SentPost(out, Full(room[q].seqNo, notice));
    DueBehind(room, p, q);
    PosMeans(room, origin);
    PosMeans(room, d.roomSeq);
  }

  lemma NoticeServes(room: seq<RoomMsg>, out: seq<Out>, origin: int, d: State, o: Out)
    requires !o.Full? && Served(room, out, origin, d)
    ensures Served(room, out + [o], origin, d)
  {
    SentPost(out, o);
  }

  lemma PassInv(s: Sys, out: seq<Out>)
    requires Inv(s) && s.disk.Some? && s.proc.Relay? && s.proc.i < s.proc.j <= |s.room|
    requires Served(s.room, out, s.origin, s.disk.value)
    requires !Eligible(s.room[s.proc.i]) || Sent(out) == Due(s.room, PosOf(s.room, s.origin), s.proc.i + 1)
    ensures Inv(Passed(s.(out := out), s.room[s.proc.i], s.proc.i, s.proc.j))
  {
    var m := s.room[s.proc.i];
    PassExact(s.room, out, s.origin, s.disk.value, s.mem.(roomSeq := m.seqNo, reported := None));
  }

  lemma TextInv(s: Sys, notice: Notice, fate: SendFate)
    requires Inv(s) && s.disk.Some? && s.proc.Relay? && s.proc.i < s.proc.j <= |s.room| && Eligible(s.room[s.proc.i])
    ensures var s' := Fated(s, Full(s.room[s.proc.i].seqNo, notice), fate);
            Inv(if fate.Delivered? then Passed(s', s.room[s.proc.i], s.proc.i, s.proc.j) else s')
  {
    var m := s.room[s.proc.i];
    TextServes(s.room, s.out, s.origin, s.disk.value, notice);
    NoticeServes(s.room, s.out, s.origin, s.disk.value, Partial(m.seqNo));
    if fate.Delivered? {
      PassInv(s, s.out + [Full(m.seqNo, notice)]);
    }
  }

  lemma PauseInv(s: Sys, fate: SendFate)
    requires Inv(s) && s.disk.Some? && s.proc.Relay? && s.proc.i < s.proc.j <= |s.room|
    ensures var s' := Fated(s, Pause(s.room[s.proc.i].seqNo), fate);
            Inv(if fate.Delivered?
                then s'.(mem := s.mem.(reported := Some(s.room[s.proc.i].seqNo)), proc := BlockSave)
                else s')
  {
    var m := s.room[s.proc.i];
    NoticeServes(s.room, s.out, s.origin, s.disk.value, Partial(m.seqNo));
    NoticeServes(s.room, s.out, s.origin, s.disk.value, Pause(m.seqNo));
  }

  lemma RelayInv(s: Sys, fate: SendFate)
    requires Inv(s) && s.disk.Some? && s.proc.Relay? && s.proc.j <= |s.room|
    ensures Inv(DoRelay(s, fate))
  {
    if s.proc.i < s.proc.j {
      var m := s.room[s.proc.i];
      if !Eligible(m) {
        PassInv(s, s.out);
      } else if NoticeFor(s.key, s.skip, m).Some? {
        TextInv(s, NoticeFor(s.key, s.skip, m).value, fate);
      } else if s.mem.reported != Some(m.seqNo) {
        PauseInv(s, fate);
      }
    }
  }

  lemma FetchInv(s: Sys)
    requires Inv(s) && s.disk.Some? && s.proc.Fetching?
    ensures Inv(DoFetchOk(s))
  {
    PosMeans(s.room, s.mem.roomSeq);
  }

  /** A room that is unchanged or one message longer, with everything else the same. */
  lemma AppendInv(s: Sys, id: MsgId, author: Author, kind: string, content: Content)
    requires Inv(s)
    ensures var r := ServerAppend(s.room, id, author, kind, content);
            Inv(if r.Inserted? then s.(room := r.room) else s)
  {
    RoomGrows(s, RoomMsg(TipOf(s.room) + 1, id, author, kind, content));
  }

  lemma PendingAppendInv(s: Sys, replyLost: bool)
    requires Inv(s) && s.disk.Some? && s.proc.Flush? && s.mem.pending.Some?
    ensures Inv(DoAppend(s, replyLost))
  {
    AppendInv(s, Telegram(s.mem.pending.value.update), Bridge, BRIDGE_KIND, s.mem.pending.value.content);
  }

  lemma StartInv(s: Sys, key: int, skip: Option<int>)
    requires Inv(s) && s.proc.Down?
    ensures Inv(DoStart(s, key, skip))
  {
  }

  lemma InvPreserved(us: seq<Update>, s: Sys, step: Step)
    requires Inv(s) && Enabled(us, s, step)
    ensures Inv(Next(us, s, step))
  {
    match step
    case Start(key, skip) => StartInv(s, key, skip);
    case SaveOk => SaveInv(s, true, false);
    case SaveFailed(landed) => SaveInv(s, false, landed);
    case Append(replyLost) => PendingAppendInv(s, replyLost);
    case FetchOk => FetchInv(s);
    case RelayNext(fate) => RelayInv(s, fate);
    case Foreign(name, agent, kind, content) => AppendInv(s, Other(name), Agent(agent, agent), kind, content);
    case _ =>
  }

  lemma {:induction false} InvAlways(us: seq<Update>, s: Sys, steps: seq<Step>, end: Sys)
    requires Inv(s) && Runs(us, s, steps, end)
    ensures Inv(end)
    decreases |steps|
  {
    if steps != [] {
      InvPreserved(us, s, steps[0]);
      InvAlways(us, Next(us, s, steps[0]), steps[1..], end);
    }
  }

  /**
   * Nothing skipped, nothing reordered: over every run with crashes, send failures and ambiguous
   * saves, the accepted whole texts, repeats and notices aside, are the eligible messages from the
   * first tip through the saved sequence, or through the one eligible message after it.
   */
  lemma OutboundNeverSkips(us: seq<Update>, start: Sys, steps: seq<Step>, end: Sys)
    requires Initial(start) && Runs(us, start, steps, end)
    ensures end.disk.None? ==> end.out == []
    ensures end.disk.Some? ==> Served(end.room, end.out, end.origin, end.disk.value)
  {
    InvAlways(us, start, steps, end);
  }

  /** A whole text in the chat tells an eligible message, or reports the gap an operator asked for. */
  predicate Truthful(room: seq<RoomMsg>, skips: set<int>, o: Out) {
    o.Full? ==>
      exists i :: 0 <= i < |room| && room[i].seqNo == o.seqNo && Eligible(room[i]) &&
        (match o.notice
         case Plain(text) => room[i].content.Cipher? && text == Render(room[i], room[i].content.plain)
         case Gap(skip, key) => skip == Some(o.seqNo) && o.seqNo in skips && Decrypt(key, room[i].content).None?)
  }

  predicate AllTruthful(room: seq<RoomMsg>, skips: set<int>, out: seq<Out>) {
    forall k :: 0 <= k < |out| ==> Truthful(room, skips, out[k])
  }

  predicate SkipKnown(s: Sys) {
    s.proc.Down? || (s.skip.Some? ==> s.skip.value in s.skips)
  }

  lemma TruthfulGrows(room: seq<RoomMsg>, m: RoomMsg, skips: set<int>, more: set<int>, out: seq<Out>)
    requires AllTruthful(room, skips, out) && skips <= more
    ensures AllTruthful(room, more, out) && AllTruthful(room + [m], more, out)
  {
    forall k | 0 <= k < |out| ensures Truthful(room, more, out[k]) && Truthful(room + [m], more, out[k]) {
      assert Truthful(room, skips, out[k]);
      if out[k].Full? {
        var i :| 0 <= i < |room| && room[i].seqNo == out[k].seqNo && Eligible(room[i]) &&
          (match out[k].notice
           case Plain(text) => room[i].content.Cipher? && text == Render(room[i], room[i].content.plain)
           case Gap(skip, key) =>
             skip == Some(out[k].seqNo) && out[k].seqNo in skips && Decrypt(key, room[i].content).None?);
        assert (room + [m])[i] == room[i];
      }
    }
  }

  lemma RelayTruthful(s: Sys, fate: SendFate)
    requires s.proc.Relay? && s.proc.j <= |s.room| && SkipKnown(s) && AllTruthful(s.room, s.skips, s.out)
    ensures AllTruthful(s.room, s.skips, DoRelay(s, fate).out)
    ensures DoRelay(s, fate).room == s.room && DoRelay(s, fate).skips == s.skips && SkipKnown(DoRelay(s, fate))
  {
    if s.proc.i < s.proc.j {
      var m := s.room[s.proc.i];
      var notice := NoticeFor(s.key, s.skip, m);
      if Eligible(m) && notice.Some? {
        assert Truthful(s.room, s.skips, Full(m.seqNo, notice.value));
      }
    }
  }

  lemma TruthPreserved(us: seq<Update>, s: Sys, step: Step)
    requires Enabled(us, s, step) && SkipKnown(s) && AllTruthful(s.room, s.skips, s.out)
    ensures SkipKnown(Next(us, s, step))
    ensures AllTruthful(Next(us, s, step).room, Next(us, s, step).skips, Next(us, s, step).out)
  {
    var s' := Next(us, s, step);
    if step.RelayNext? {
      RelayTruthful(s, step.fate);
    } else {
      assert s'.out == s.out && s.skips <= s'.skips;
      if s'.room == s.room {
        TruthfulGrows(s.room, RoomMsg(0, Other(""), Bridge, "", Unreadable(0)), s.skips, s'.skips, s.out);
      } else {
        TruthfulGrows(s.room, s'.room[|s.room|], s.skips, s'.skips, s.out);
        assert s'.room == s.room + [s'.room[|s.room|]];
      }
    }
  }

  lemma {:induction false} TruthAlways(us: seq<Update>, s: Sys, steps: seq<Step>, end: Sys)
    requires SkipKnown(s) && AllTruthful(s.room, s.skips, s.out) && Runs(us, s, steps, end)
    ensures AllTruthful(end.room, end.skips, end.out)
    decreases |steps|
  {
    if steps != [] {
      TruthPreserved(us, s, steps[0]);
      TruthAlways(us, Next(us, s, steps[0]), steps[1..], end);
    }
  }

  lemma {:induction false} SentHas(out: seq<Out>, seqNo: int)
    requires seqNo in Sent(out)
    ensures exists k :: 0 <= k < |out| && out[k].Full? && out[k].seqNo == seqNo
  {
    if out != [] {
      var init := out[..|out| - 1];
      if seqNo in Sent(init) {
        SentHas(init, seqNo);
        var k :| 0 <= k < |init| && init[k].Full? && init[k].seqNo == seqNo;
        assert out[k] == init[k];
      } else {
        assert out[|out| - 1].Full?;
      }
    }
  }

  lemma {:induction false} DueHas(room: seq<RoomMsg>, p: nat, q: nat, i: nat)
    requires p <= i < q <= |room| && Eligible(room[i])
    ensures room[i].seqNo in Due(room, p, q)
  {
    if i < q - 1 {
      DueHas(room, p, q - 1, i);
    }
  }

  lemma ServedMeansSent(room: seq<RoomMsg>, out: seq<Out>, origin: int, st: State, i: nat)
    requires RoomOK(room) && Served(room, out, origin, st)
    requires i < |room| && Eligible(room[i]) && origin < room[i].seqNo <= st.roomSeq
    ensures exists k :: 0 <= k < |out| && out[k].Full? && out[k].seqNo == room[i].seqNo
  {
    var p, q := PosOf(room, origin), PosOf(room, st.roomSeq);
    PosMeans(room, origin);
    PosMeans(room, st.roomSeq);
    assert p <= i < q;
    DueHas(room, p, q, i);
    if q < |room| {
      DueHas(room, p, q + 1, i);
    }
    SentHas(out, room[i].seqNo);
  }

  /**
   * A message the saved sequence has passed was told in the chat: its own text, or, only if an
   * operator chose to skip exactly its sequence, the gap notice for it.
   */
  lemma PassedMeansTold(us: seq<Update>, start: Sys, steps: seq<Step>, end: Sys, i: nat)
    requires Initial(start) && Runs(us, start, steps, end) && end.disk.Some?
    requires i < |end.room| && Eligible(end.room[i]) && end.origin < end.room[i].seqNo <= end.disk.value.roomSeq
    ensures exists k :: 0 <= k < |end.out| && end.out[k].Full? && end.out[k].seqNo == end.room[i].seqNo &&
              (match end.out[k].notice
               case Plain(text) => end.room[i].content.Cipher? && text == Render(end.room[i], end.room[i].content.plain)
               case Gap(_, key) => end.room[i].seqNo in end.skips && Decrypt(key, end.room[i].content).None?)
  {
    InvAlways(us, start, steps, end);
    TruthAlways(us, start, steps, end);
    ServedMeansSent(end.room, end.out, end.origin, end.disk.value, i);
    var k :| 0 <= k < |end.out| && end.out[k].Full? && end.out[k].seqNo == end.room[i].seqNo;
    assert Truthful(end.room, end.skips, end.out[k]);
  }
}
