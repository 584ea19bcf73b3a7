/**
 * A visible room event reaches a reconnecting agent by one path: the stash buffer or its live
 * queue. One agent, any number of events; registration and broadcasts interleave freely.
 */
module VisiblePaths {
  import opened Prelude
  import opened Frames

  /** Registration after a disconnect, in the order the server does it. */
  datatype Phase = Stashed | Claimed | Live | Snapshotted | Written | Online | Leaving

  /** A broadcast buffers first, then sends live to those it did not buffer for. */
  datatype Progress = Buffering(took: bool) | Finished(took: bool)

  /**
   * `stash` holds the buffered events while there is one, `snapshot` the replay being written and
   * `queue` the live events waiting behind it. `replayed` and `lived` are what got out to the agent
   * over all its connections, from the buffer and live.
   */
  datatype Agent = Agent(phase: Phase, stash: Option<seq<int>>, snapshot: seq<int>, queue: seq<int>,
                         replayed: seq<int>, lived: seq<int>, events: map<int, Progress>)

  /**
   * A failed write, by an error or by the time limit, has let out the first `frames` of the replay,
   * and of the live events the first `more`, once the whole replay is out.
   */
  datatype Step =
    | Claim
    | Release
    | GoLive
    | Snapshot
    | Write
    | WriteFails(frames: nat, more: nat)
    | Commit
    | Disconnect
    | Leave
    | Buffer(event: int)
    | SendLive(event: int)

  predicate IsLive(a: Agent) {
    !a.phase.Stashed? && !a.phase.Claimed?
  }

  /** Before the replay is acknowledged as written, live events wait. */
  predicate Gated(a: Agent) {
    a.phase.Live? || a.phase.Snapshotted?
  }

  predicate Enabled(a: Agent, step: Step) {
    match step
    case Claim => a.phase.Stashed? && a.stash.Some?
    case Release => a.phase.Claimed?
    case GoLive => a.phase.Claimed?
    case Snapshot => a.phase.Live? && a.stash.Some?
    case Write => a.phase.Snapshotted?
    case WriteFails(frames, more) =>
      && a.phase.Snapshotted? && frames <= |a.snapshot| && more <= |a.queue|
      && (more > 0 ==> frames == |a.snapshot|)
    case Commit => a.phase.Written? && a.stash.Some?
    case Disconnect => a.phase.Online?
    case Leave => a.phase.Leaving?
    case Buffer(event) => event !in a.events
    case SendLive(event) => event in a.events && a.events[event].Buffering?
  }

  /** What the commit still has to send: buffered since the snapshot. */
  function Tail(stash: seq<int>, snapshot: seq<int>): seq<int> {
    Filter(stash, (e: int) => e !in snapshot)
  }

  predicate HasRoom(a: Agent) {
    a.stash.Some? && |a.stash.value| < MAX_BUFFERED
  }

  function DoBuffer(a: Agent, event: int): Agent {
    if HasRoom(a) then
      a.(stash := Some(a.stash.value + [event]), events := a.events[event := Buffering(true)])
    else a.(events := a.events[event := Buffering(false)])
  }

  function DoSend(a: Agent, event: int): Agent
    requires event in a.events
  {
    var sent := a.(events := a.events[event := Finished(a.events[event].took)]);
    if a.events[event].took || !IsLive(a) then sent
    else if Gated(a) then sent.(queue := a.queue + [event])
    else sent.(lived := a.lived + [event])
  }

  function DoFail(a: Agent, frames: nat, more: nat): Agent
    requires frames <= |a.snapshot| && more <= |a.queue|
  {
    a.(phase := Stashed, snapshot := [], queue := [],
       replayed := a.replayed + a.snapshot[..frames], lived := a.lived + a.queue[..more])
  }

  function Next(a: Agent, step: Step): Agent
    requires Enabled(a, step)
  {
    match step
    case Claim => a.(phase := Claimed)
    case Release => a.(phase := Stashed)
    case GoLive => a.(phase := Live)
    case Snapshot => a.(phase := Snapshotted, snapshot := a.stash.value)
    case Write =>
      a.(phase := Written, replayed := a.replayed + a.snapshot, lived := a.lived + a.queue, queue := [])
    case WriteFails(frames, more) => DoFail(a, frames, more)
    case Commit =>
      a.(phase := Online, replayed := a.replayed + Tail(a.stash.value, a.snapshot), stash := None, snapshot := [])
    case Disconnect => a.(phase := Leaving, stash := Some([]))
    case Leave => a.(phase := Stashed)
    case Buffer(event) => DoBuffer(a, event)
    case SendLive(event) => DoSend(a, event)
  }

  predicate Runs(a: Agent, steps: seq<Step>, end: Agent)
    decreases |steps|
  {
    if steps == [] then a == end else Enabled(a, steps[0]) && Runs(Next(a, steps[0]), steps[1..], end)
  }

  function Times(s: seq<int>, e: int): nat {
    if s == [] then 0 else Times(s[..|s| - 1], e) + (if s[|s| - 1] == e then 1 else 0)
  }

  lemma {:induction false} TimesAppend(s: seq<int>, t: seq<int>, e: int)
    ensures Times(s + t, e) == Times(s, e) + Times(t, e)
  {
    if t == [] {
      assert s + t == s;
    } else {
      TimesAppend(s, t[..|t| - 1], e);
      assert (s + t)[..|s + t| - 1] == s + t[..|t| - 1];
    }
  }

  lemma {:induction false} TimesFilter(s: seq<int>, p: int -> bool, e: int)
    ensures Times(Filter(s, p), e) == if p(e) then Times(s, e) else 0
  {
    if s != [] {
      var head := if p(s[0]) then [s[0]] else [];
      TimesFilter(s[1..], p, e);
      TimesAppend(head, Filter(s[1..], p), e);
      assert s == [s[0]] + s[1..];
      TimesAppend([s[0]], s[1..], e);
    }
  }

  lemma {:induction false} TimesMember(s: seq<int>, e: int)
    ensures e in s <==> Times(s, e) > 0
  {
    if s != [] {
      TimesMember(s[..|s| - 1], e);
      assert s == s[..|s| - 1] + [s[|s| - 1]];
    }
  }

  /** How often the agent got an event. */
  function Got(a: Agent, e: int): nat {
    Times(a.replayed, e) + Times(a.lived, e)
  }

  /** Copies in the buffer. */
  function Kept(a: Agent, e: int): nat {
    if a.stash.None? then 0 else Times(a.stash.value, e)
  }

  /** Copies in the buffer that a successful write has not replayed. */
  function Waiting(a: Agent, e: int): nat {
    if a.phase.Written? && e in a.snapshot then 0 else Kept(a, e)
  }

  /** How often an event was got or is on its way. */
  function Copies(a: Agent, e: int): nat {
    Got(a, e) + Times(a.queue, e) + Waiting(a, e)
  }

  /** The phases and the stash agree, a replay is part of the stash, and live events wait only behind it. */
  predicate Sound(a: Agent) {
    && (a.phase.Online? <==> a.stash.None?)
    && (!Gated(a) ==> a.queue == [])
    && (a.stash.Some? && (a.phase.Snapshotted? || a.phase.Written?) ==> a.snapshot <= a.stash.value)
    && (a.snapshot != [] ==> a.phase.Snapshotted? || a.phase.Written?)
  }

  lemma SoundStep(a: Agent, step: Step)
    requires Sound(a) && Enabled(a, step)
    ensures Sound(Next(a, step))
  {
  }

  /**
   * One path for each event: what its broadcast buffered is never sent live, and what it did not
   * buffer is never in the buffer or in a replay.
   */
  predicate OnePath(a: Agent, e: int) {
    && Kept(a, e) <= 1 && Times(a.lived, e) + Times(a.queue, e) <= 1
    && (e in a.events && a.events[e].took ==> Times(a.lived, e) == 0 && Times(a.queue, e) == 0)
    && (e !in a.events || !a.events[e].took ==> Times(a.replayed, e) == 0 && Kept(a, e) == 0)
    && (e !in a.events || a.events[e] == Buffering(false) ==> Times(a.lived, e) == 0 && Times(a.queue, e) == 0)
  }

  lemma PrefixTimes(s: seq<int>, t: seq<int>, e: int)
    requires s <= t
    ensures Times(s, e) <= Times(t, e)
  {
    TimesAppend(s, t[|s|..], e);
    assert t == s + t[|s|..];
  }

  lemma One(event: int, e: int)
    ensures Times([event], e) == if event == e then 1 else 0
  {
    assert [event][..0] == [];
  }

  lemma TailTimes(a: Agent, e: int)
    requires a.stash.Some?
    ensures Times(Tail(a.stash.value, a.snapshot), e) == if e in a.snapshot then 0 else Times(a.stash.value, e)
  {
    TimesFilter(a.stash.value, (x: int) => x !in a.snapshot, e);
  }

  lemma SnapshotTimes(a: Agent, e: int)
    requires Sound(a) && OnePath(a, e) && (a.phase.Snapshotted? || a.phase.Written?)
    ensures Times(a.snapshot, e) <= Kept(a, e)
    ensures e in a.snapshot <==> Times(a.snapshot, e) == 1
  {
    PrefixTimes(a.snapshot, a.stash.value, e);
    TimesMember(a.snapshot, e);
  }

  /** What a step puts on either path. */
  lemma WritePaths(a: Agent, e: int)
    requires Enabled(a, Write)
    ensures Times(Next(a, Write).replayed, e) == Times(a.replayed, e) + Times(a.snapshot, e)
    ensures Times(Next(a, Write).lived, e) == Times(a.lived, e) + Times(a.queue, e)
  {
    TimesAppend(a.replayed, a.snapshot, e);
    TimesAppend(a.lived, a.queue, e);
  }

  lemma FailPaths(a: Agent, frames: nat, more: nat, e: int)
    requires Enabled(a, WriteFails(frames, more))
    ensures Times(DoFail(a, frames, more).replayed, e) == Times(a.replayed, e) + Times(a.snapshot[..frames], e)
    ensures Times(a.snapshot[..frames], e) <= Times(a.snapshot, e)
    ensures Times(DoFail(a, frames, more).lived, e) == Times(a.lived, e) + Times(a.queue[..more], e)
    ensures Times(a.queue[..more], e) <= Times(a.queue, e)
  {
    TimesAppend(a.replayed, a.snapshot[..frames], e);
    TimesAppend(a.lived, a.queue[..more], e);
    PrefixTimes(a.snapshot[..frames], a.snapshot, e);
    PrefixTimes(a.queue[..more], a.queue, e);
  }

  lemma CommitPaths(a: Agent, e: int)
    requires Enabled(a, Commit)
    ensures Times(Next(a, Commit).replayed, e) == Times(a.replayed, e) + (if e in a.snapshot then 0 else Kept(a, e))
  {
    TimesAppend(a.replayed, Tail(a.stash.value, a.snapshot), e);
    TailTimes(a, e);
  }

  lemma BufferPaths(a: Agent, event: int, e: int)
    ensures Kept(DoBuffer(a, event), e) == Kept(a, e) + (if event == e && HasRoom(a) then 1 else 0)
  {
    if a.stash.Some? {
      TimesAppend(a.stash.value, [event], e);
      One(event, e);
    }
  }

  lemma SendPaths(a: Agent, event: int, e: int)
    requires event in a.events
    ensures Times(DoSend(a, event).lived, e) + Times(DoSend(a, event).queue, e)
         == Times(a.lived, e) + Times(a.queue, e) + (if event == e && !a.events[e].took && IsLive(a) then 1 else 0)
    ensures event != e ==> Times(DoSend(a, event).lived, e) == Times(a.lived, e)
    ensures event != e ==> Times(DoSend(a, event).queue, e) == Times(a.queue, e)
  {
    TimesAppend(a.queue, [event], e);
    TimesAppend(a.lived, [event], e);
    One(event, e);
  }

  lemma WriteOnePath(a: Agent, e: int)
    requires Sound(a) && OnePath(a, e) && Enabled(a, Write)
    ensures OnePath(Next(a, Write), e)
  {
    WritePaths(a, e);
    SnapshotTimes(a, e);
  }

  lemma FailOnePath(a: Agent, frames: nat, more: nat, e: int)
    requires Sound(a) && OnePath(a, e) && Enabled(a, WriteFails(frames, more))
    ensures OnePath(DoFail(a, frames, more), e)
  {
    FailPaths(a, frames, more, e);
    SnapshotTimes(a, e);
  }

  lemma CommitOnePath(a: Agent, e: int)
    requires OnePath(a, e) && Enabled(a, Commit)
    ensures OnePath(Next(a, Commit), e)
  {
    CommitPaths(a, e);
  }

  lemma BufferOnePath(a: Agent, event: int, e: int)
    requires OnePath(a, e) && Enabled(a, Buffer(event))
    ensures OnePath(DoBuffer(a, event), e)
  {
    BufferPaths(a, event, e);
  }

  lemma SendOnePath(a: Agent, event: int, e: int)
    requires OnePath(a, e) && Enabled(a, SendLive(event))
    ensures OnePath(DoSend(a, event), e)
  {
    SendPaths(a, event, e);
  }

  lemma OnePathStep(a: Agent, step: Step, e: int)
    requires Sound(a) && OnePath(a, e) && Enabled(a, step)
    ensures OnePath(Next(a, step), e)
  {
    match step
    case Write => WriteOnePath(a, e);
    case WriteFails(frames, more) => FailOnePath(a, frames, more, e);
    case Commit => CommitOnePath(a, e);
    case Buffer(event) => BufferOnePath(a, event, e);
    case SendLive(event) => SendOnePath(a, event, e);
    case _ =>
  }

  /** A failed write that had already let the event out, while the stash keeps it for another attempt. */
  predicate Leaks(a: Agent, step: Step, e: int) {
    step.WriteFails? && step.frames <= |a.snapshot| && e in a.snapshot[..step.frames]
  }

  /** How many failed writes of a run did so. */
  function Leaked(a: Agent, steps: seq<Step>, e: int): nat
    decreases |steps|
  {
    if steps == [] || !Enabled(a, steps[0]) then 0
    else (if Leaks(a, steps[0], e) then 1 else 0) + Leaked(Next(a, steps[0]), steps[1..], e)
  }

  lemma LeakTimes(a: Agent, frames: nat, more: nat, e: int)
    requires Sound(a) && OnePath(a, e) && Enabled(a, WriteFails(frames, more))
    ensures Times(a.snapshot[..frames], e) == if Leaks(a, WriteFails(frames, more), e) then 1 else 0
  {
    SnapshotTimes(a, e);
    PrefixTimes(a.snapshot[..frames], a.snapshot, e);
    TimesMember(a.snapshot[..frames], e);
  }

  lemma WriteCopies(a: Agent, e: int)
    requires Sound(a) && OnePath(a, e) && Enabled(a, Write)
    ensures Copies(Next(a, Write), e) == Copies(a, e)
  {
    WritePaths(a, e);
    SnapshotTimes(a, e);
  }

  lemma FailCopies(a: Agent, frames: nat, more: nat, e: int)
    requires Sound(a) && OnePath(a, e) && Enabled(a, WriteFails(frames, more))
    ensures Copies(DoFail(a, frames, more), e) + Times(a.queue, e) ==
            Copies(a, e) + Times(a.queue[..more], e) + (if Leaks(a, WriteFails(frames, more), e) then 1 else 0)
    ensures Times(a.queue[..more], e) <= Times(a.queue, e)
  {
    FailPaths(a, frames, more, e);
    LeakTimes(a, frames, more, e);
  }

  lemma CommitCopies(a: Agent, e: int)
    requires Sound(a) && Enabled(a, Commit)
    ensures Copies(Next(a, Commit), e) == Copies(a, e)
  {
    CommitPaths(a, e);
  }

  lemma BufferCopies(a: Agent, event: int, e: int)
    requires Sound(a) && OnePath(a, e) && Enabled(a, Buffer(event))
    ensures Copies(DoBuffer(a, event), e) == Copies(a, e) + NewCopies(a, Buffer(event), e)
  {
    BufferPaths(a, event, e);
    if a.phase.Written? {
      SnapshotTimes(a, e);
    }
  }

  lemma SendCopies(a: Agent, event: int, e: int)
    requires Enabled(a, SendLive(event))
    ensures Copies(DoSend(a, event), e) == Copies(a, e) + NewCopies(a, SendLive(event), e)
  {
    SendPaths(a, event, e);
  }

  /** How each step changes the number of copies: the only doubling is a leak. */
  lemma CopiesStep(a: Agent, step: Step, e: int)
    requires Sound(a) && OnePath(a, e) && Enabled(a, step)
    ensures Copies(Next(a, step), e) <= Copies(a, e) + (if Leaks(a, step, e) then 1 else 0) + NewCopies(a, step, e)
    ensures !(step.WriteFails? && a.queue != []) ==>
      Copies(Next(a, step), e) == Copies(a, e) + (if Leaks(a, step, e) then 1 else 0) + NewCopies(a, step, e)
  {
    match step
    case Write => WriteCopies(a, e);
    case WriteFails(frames, more) => FailCopies(a, frames, more, e);
    case Commit => CommitCopies(a, e);
    case Buffer(event) => BufferCopies(a, event, e);
    case SendLive(event) => SendCopies(a, event, e);
    case _ =>
  }

  /** The copy a broadcast makes: in the buffer, or on the live connection. */
  function NewCopies(a: Agent, step: Step, e: int): nat
    requires Enabled(a, step)
  {
    if step == Buffer(e) && HasRoom(a) then 1
    else if step == SendLive(e) && !a.events[e].took && IsLive(a) then 1
    else 0
  }

  predicate Counted(a: Agent, e: int, leaked: nat) {
    && (e !in a.events || a.events[e] == Buffering(false) ==> Copies(a, e) == 0)
    && Copies(a, e) <= 1 + leaked
  }

  lemma CountedStep(a: Agent, step: Step, e: int, leaked: nat)
    requires Sound(a) && OnePath(a, e) && Counted(a, e, leaked) && Enabled(a, step)
    ensures Counted(Next(a, step), e, leaked + if Leaks(a, step, e) then 1 else 0)
  {
    OnePathStep(a, step, e);
    CopiesStep(a, step, e);
  }

  predicate Initial(a: Agent) {
    && a.phase.Stashed? && a.stash == Some([]) && a.snapshot == [] && a.queue == []
    && a.replayed == [] && a.lived == [] && a.events == map[]
  }

  /**
   * Whatever the interleaving, and however often the agent comes and goes: no event is ever on both
   * paths, no event is sent live twice, and an event is got at most once more than failed writes
   * had let it out.
   */
  lemma {:induction false} AtMostOncePerWrite(a: Agent, steps: seq<Step>, end: Agent, e: int, leaked: nat)
    requires Sound(a) && OnePath(a, e) && Counted(a, e, leaked) && Runs(a, steps, end)
    ensures Sound(end) && OnePath(end, e) && Counted(end, e, leaked + Leaked(a, steps, e))
    decreases |steps|
  {
    if steps != [] {
      SoundStep(a, steps[0]);
      OnePathStep(a, steps[0], e);
      CountedStep(a, steps[0], e, leaked);
      AtMostOncePerWrite(Next(a, steps[0]), steps[1..], end, e, leaked + if Leaks(a, steps[0], e) then 1 else 0);
    }
  }

  lemma NeverOnBothPaths(a: Agent, steps: seq<Step>, end: Agent, e: int)
    requires Initial(a) && Runs(a, steps, end)
    ensures Times(end.replayed, e) + Kept(end, e) == 0 || Times(end.lived, e) + Times(end.queue, e) == 0
    ensures Times(end.lived, e) <= 1
    ensures Got(end, e) <= 1 + Leaked(a, steps, e)
  {
    AtMostOncePerWrite(a, steps, end, e, 0);
  }

  /** Space for the event when its broadcast buffers. */
  predicate Roomy(a: Agent, step: Step) {
    step.Buffer? && a.stash.Some? ==> HasRoom(a)
  }

  /** A run that brings the agent back, with buffers that never fill. */
  predicate Smooth(a: Agent, steps: seq<Step>)
    decreases |steps|
  {
    steps == [] || (Enabled(a, steps[0]) && Roomy(a, steps[0]) && !steps[0].Disconnect?
                    && Smooth(Next(a, steps[0]), steps[1..]))
  }

  /** Nothing is sent live while there is a stash to buffer it. */
  predicate Direct(a: Agent) {
    && !a.phase.Leaving? && a.queue == []
    && (forall x <- a.events :: a.events[x] == Buffering(false) ==> a.phase.Online?)
  }

  lemma DirectStep(a: Agent, step: Step)
    requires Sound(a) && Direct(a) && Enabled(a, step) && Roomy(a, step) && !step.Disconnect?
    ensures Direct(Next(a, step))
  {
  }

  /** An event that was buffered, or sent, is on its way: once, and once more for each leak. */
  predicate NeverLost(a: Agent, e: int, leaked: nat) {
    && (e !in a.events || a.events[e] == Buffering(false) ==> Copies(a, e) == 0 && leaked == 0)
    && (e in a.events && a.events[e] != Buffering(false) ==> Copies(a, e) == 1 + leaked)
  }

  lemma NeverLostStep(a: Agent, step: Step, e: int, leaked: nat)
    requires Sound(a) && OnePath(a, e) && Direct(a) && NeverLost(a, e, leaked)
    requires Enabled(a, step) && Roomy(a, step) && !step.Disconnect?
    ensures NeverLost(Next(a, step), e, leaked + if Leaks(a, step, e) then 1 else 0)
  {
    CopiesStep(a, step, e);
    if step.WriteFails? {
      LeakTimes(a, step.frames, step.more, e);
      SnapshotTimes(a, e);
    }
  }

  lemma {:induction false} NeverLostRun(a: Agent, steps: seq<Step>, end: Agent, e: int, leaked: nat)
    requires Sound(a) && OnePath(a, e) && Direct(a) && NeverLost(a, e, leaked)
    requires Runs(a, steps, end) && Smooth(a, steps)
    ensures Sound(end) && OnePath(end, e) && NeverLost(end, e, leaked + Leaked(a, steps, e))
    decreases |steps|
  {
    if steps != [] {
      SoundStep(a, steps[0]);
      OnePathStep(a, steps[0], e);
      DirectStep(a, steps[0]);
      NeverLostStep(a, steps[0], e, leaked);
      NeverLostRun(Next(a, steps[0]), steps[1..], end, e, leaked + if Leaks(a, steps[0], e) then 1 else 0);
    }
  }

  /**
   * Across a reconnect, however many attempts it takes, every event whose broadcast finished has
   * arrived when the agent is back: exactly once if and only if no failed write had let it out, and
   * otherwise once more for each that had. Its buffer must not have filled.
   */
  lemma ExactlyOnceUnlessLeaked(a: Agent, steps: seq<Step>, end: Agent, e: int)
    requires Initial(a) && Runs(a, steps, end) && Smooth(a, steps)
    requires end.phase.Online? && e in end.events && end.events[e].Finished?
    ensures Got(end, e) == 1 + Leaked(a, steps, e)
    ensures Got(end, e) == 1 <==> Leaked(a, steps, e) == 0
  {
    NeverLostRun(a, steps, end, e, 0);
  }

  lemma RunsOne(a: Agent, step: Step, mid: Agent, steps: seq<Step>, end: Agent)
    requires Enabled(a, step) && Next(a, step) == mid && Runs(mid, steps, end)
    ensures Runs(a, [step] + steps, end)
  {
    assert ([step] + steps)[1..] == steps;
  }

  /** A claimed reconnect whose write and commit succeed. */
  lemma Succeeds(a: Agent) returns (steps: seq<Step>, end: Agent)
    requires Sound(a) && a.phase.Stashed? && a.stash.Some?
    ensures Runs(a, steps, end) && end.phase.Online? && end.events == a.events
    ensures end.replayed == a.replayed + a.stash.value + Tail(a.stash.value, a.stash.value) && end.lived == a.lived
  {
    assert a.lived + [] == a.lived;
    var a1 := Next(a, Claim);
    var a2 := Next(a1, GoLive);
    var a3 := Next(a2, Snapshot);
    var a4 := Next(a3, Write);
    end := Next(a4, Commit);
    RunsOne(a4, Commit, end, [], end);
    steps := [Commit] + [];
    RunsOne(a3, Write, a4, steps, end);
    steps := [Write] + steps;
    RunsOne(a2, Snapshot, a3, steps, end);
    steps := [Snapshot] + steps;
    RunsOne(a1, GoLive, a2, steps, end);
    steps := [GoLive] + steps;
    RunsOne(a, Claim, a1, steps, end);
    steps := [Claim] + steps;
  }

  /** A reconnect whose write lets the whole replay out and then fails. */
  lemma LetsOut(a: Agent) returns (steps: seq<Step>, end: Agent)
    requires Sound(a) && a.phase.Stashed? && a.stash.Some?
    ensures end == a.(replayed := a.replayed + a.stash.value)
    ensures forall more, last :: Runs(end, more, last) ==> Runs(a, steps + more, last)
  {
    var a1 := Next(a, Claim);
    var a2 := Next(a1, GoLive);
    var a3 := Next(a2, Snapshot);
    var fails := WriteFails(|a3.snapshot|, 0);
    end := Next(a3, fails);
    assert a3.snapshot[..|a3.snapshot|] == a3.snapshot && a.lived + [] == a.lived;
    steps := [Claim, GoLive, Snapshot, fails];
    forall more, last | Runs(end, more, last)
      ensures Runs(a, steps + more, last)
    {
      RunsOne(a3, fails, end, more, last);
      RunsOne(a2, Snapshot, a3, [fails] + more, last);
      RunsOne(a1, GoLive, a2, [Snapshot] + ([fails] + more), last);
      RunsOne(a, Claim, a1, [GoLive] + ([Snapshot] + ([fails] + more)), last);
      assert steps + more == [Claim] + ([GoLive] + ([Snapshot] + ([fails] + more)));
    }
  }

  lemma ReplayedTwice(e: int)
    ensures Times([] + [e] + [e] + Tail([e], [e]), e) == 2
  {
    One(e, e);
    TimesFilter([e], (x: int) => x !in [e], e);
    TimesAppend([], [e], e);
    TimesAppend([] + [e], [e], e);
    TimesAppend([] + [e] + [e], Tail([e], [e]), e);
  }

  /** It happens: the replay gets out, its write fails, and the next attempt replays it again. */
  lemma FailedWriteRepeats(a: Agent, e: int)
    requires Initial(a)
    ensures exists steps: seq<Step>, end: Agent ::
      Runs(a, steps, end) && end.phase.Online? && e in end.events && end.events[e].Finished? && Got(end, e) == 2
  {
    var a1 := Next(a, Buffer(e));
    var a2 := Next(a1, SendLive(e));
    assert a2.stash.value == [e] && a2.lived == [] && a2.replayed == [];
    var first, a3 := LetsOut(a2);
    var second, end := Succeeds(a3);
    RunsOne(a1, SendLive(e), a2, first + second, end);
    RunsOne(a, Buffer(e), a1, [SendLive(e)] + (first + second), end);
    ReplayedTwice(e);
    assert Got(end, e) == 2;
  }
}
