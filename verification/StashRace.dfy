/**
 * Stashing against room destruction, lock by lock. Every look at the tombstones and every hold of
 * a stash entry is its own step, so any interleaving of the running calls is a run.
 */
module StashRace {
  import opened Prelude
  import opened Frames

  datatype Entry = Entry(rooms: set<string>, frames: seq<Frame>)

  /** A running call and where it stands. */
  datatype Task =
    | Filtering(agent: string, todo: set<string>, kept: set<string>)
    | Recheck(agent: string)
    | Rechecking(agent: string, todo: set<string>)
    | Forgetting(room: string)
    | SweepFrom(room: string)
    | Sweeping(room: string, left: set<string>)
    | Offering(agent: string, frame: Frame)
    | Pushing(agent: string, frame: Frame)
    | Relaying(agent: string, frame: Frame)

  /** `locks` says which call holds an entry; `dead` are the tombstones still in the table. */
  datatype Sys = Sys(stash: map<string, Entry>, dead: set<string>, tasks: map<int, Task>, locks: map<string, int>)

  datatype Step =
    | Stash(t: int, agent: string, rooms: set<string>)
    | FilterRoom(t: int, room: string)
    | Insert(t: int)
    | LockEntry(t: int)
    | RecheckRoom(t: int, room: string)
    | Unlock(t: int)
    | Forget(t: int, room: string)
    | Tombstone(t: int)
    | StartSweep(t: int)
    | SweepEntry(t: int, agent: string)
    | EndSweep(t: int)
    | Offer(t: int, agent: string, frame: Frame)
    | CheckOffer(t: int)
    | Push(t: int)
    | Message(t: int, agent: string, frame: Frame)
    | Deliver(t: int)
    | Remove(agent: string)
    | Expire(room: string)

  predicate Dead(s: Sys, f: Frame) {
    f.room.Some? && f.room.value in s.dead
  }

  predicate Enabled(s: Sys, step: Step) {
    match step
    case Stash(t, _, _) => t !in s.tasks
    case FilterRoom(t, room) => t in s.tasks && s.tasks[t].Filtering? && room in s.tasks[t].todo
    case Insert(t) => t in s.tasks && s.tasks[t].Filtering? && s.tasks[t].todo == {} && s.tasks[t].agent !in s.locks
    case LockEntry(t) => t in s.tasks && s.tasks[t].Recheck? && s.tasks[t].agent !in s.locks
    case RecheckRoom(t, room) =>
      t in s.tasks && s.tasks[t].Rechecking? && room in s.tasks[t].todo && s.tasks[t].agent in s.stash
    case Unlock(t) => t in s.tasks && s.tasks[t].Rechecking? && s.tasks[t].todo == {}
    case Forget(t, _) => t !in s.tasks
    case Tombstone(t) => t in s.tasks && s.tasks[t].Forgetting?
    case StartSweep(t) => t in s.tasks && s.tasks[t].SweepFrom?
    case SweepEntry(t, agent) => t in s.tasks && s.tasks[t].Sweeping? && agent !in s.locks
    case EndSweep(t) => t in s.tasks && s.tasks[t].Sweeping? && s.tasks[t].left == {}
    case Offer(t, agent, _) => t !in s.tasks && agent in s.stash && agent !in s.locks
    case CheckOffer(t) => t in s.tasks && s.tasks[t].Offering?
    case Push(t) => t in s.tasks && s.tasks[t].Pushing? && s.tasks[t].agent in s.stash
    case Message(t, _, _) => t !in s.tasks
    case Deliver(t) => t in s.tasks && s.tasks[t].Relaying? && s.tasks[t].agent !in s.locks
    case Remove(agent) => agent !in s.locks
    case Expire(_) => true
  }

  function Pushed(e: Entry, f: Frame): Entry {
    if |e.frames| < MAX_BUFFERED then e.(frames := e.frames + [f]) else e
  }

  function Cleaned(e: Entry, room: string): Entry {
    Entry(e.rooms - {room}, Filter(e.frames, (f: Frame) => f.room != Some(room)))
  }

  function DoLock(s: Sys, t: int): Sys
    requires t in s.tasks && s.tasks[t].Recheck?
  {
    var a := s.tasks[t].agent;
    if a in s.stash then s.(tasks := s.tasks[t := Rechecking(a, s.stash[a].rooms)], locks := s.locks[a := t])
    else s.(tasks := s.tasks - {t})
  }

  function DoRecheck(s: Sys, t: int, room: string): Sys
    requires t in s.tasks && s.tasks[t].Rechecking? && s.tasks[t].agent in s.stash
  {
    var a := s.tasks[t].agent;
    var e := s.stash[a];
    s.(tasks := s.tasks[t := Rechecking(a, s.tasks[t].todo - {room})],
       stash := if room in s.dead then s.stash[a := e.(rooms := e.rooms - {room})] else s.stash)
  }

  function DoSweep(s: Sys, t: int, agent: string): Sys
    requires t in s.tasks && s.tasks[t].Sweeping?
  {
    var Sweeping(room, left) := s.tasks[t];
    s.(tasks := s.tasks[t := Sweeping(room, left - {agent})],
       stash := if agent in s.stash then s.stash[agent := Cleaned(s.stash[agent], room)] else s.stash)
  }

  function DoPush(s: Sys, t: int): Sys
    requires t in s.tasks && s.tasks[t].Pushing? && s.tasks[t].agent in s.stash
  {
    var Pushing(a, f) := s.tasks[t];
    s.(tasks := s.tasks - {t}, locks := s.locks - {a}, stash := s.stash[a := Pushed(s.stash[a], f)])
  }

  function DoDeliver(s: Sys, t: int): Sys
    requires t in s.tasks && s.tasks[t].Relaying?
  {
    var Relaying(a, f) := s.tasks[t];
    s.(tasks := s.tasks - {t}, stash := if a in s.stash then s.stash[a := Pushed(s.stash[a], f)] else s.stash)
  }

  function Next(s: Sys, step: Step): Sys
    requires Enabled(s, step)
  {
    match step
    case Stash(t, agent, rooms) => s.(tasks := s.tasks[t := Filtering(agent, rooms, {})])
    case FilterRoom(t, room) =>
      var Filtering(agent, todo, kept) := s.tasks[t];
      s.(tasks := s.tasks[t := Filtering(agent, todo - {room}, if room in s.dead then kept else kept + {room})])
    case Insert(t) =>
      var Filtering(agent, _, kept) := s.tasks[t];
      s.(tasks := s.tasks[t := Recheck(agent)], stash := s.stash[agent := Entry(kept, [])])
    case LockEntry(t) => DoLock(s, t)
    case RecheckRoom(t, room) => DoRecheck(s, t, room)
    case Unlock(t) => s.(tasks := s.tasks - {t}, locks := s.locks - {s.tasks[t].agent})
    case Forget(t, room) => s.(tasks := s.tasks[t := Forgetting(room)])
    case Tombstone(t) => s.(tasks := s.tasks[t := SweepFrom(s.tasks[t].room)], dead := s.dead + {s.tasks[t].room})
    case StartSweep(t) => s.(tasks := s.tasks[t := Sweeping(s.tasks[t].room, s.stash.Keys)])
    case SweepEntry(t, agent) => DoSweep(s, t, agent)
    case EndSweep(t) => s.(tasks := s.tasks - {t})
    case Offer(t, agent, frame) => s.(tasks := s.tasks[t := Offering(agent, frame)], locks := s.locks[agent := t])
    case CheckOffer(t) =>
      var Offering(a, f) := s.tasks[t];
      if Dead(s, f) then s.(tasks := s.tasks - {t}, locks := s.locks - {a})
      else s.(tasks := s.tasks[t := Pushing(a, f)])
    case Push(t) => DoPush(s, t)
    case Message(t, agent, frame) => if Dead(s, frame) then s else s.(tasks := s.tasks[t := Relaying(agent, frame)])
    case Deliver(t) => DoDeliver(s, t)
    case Remove(agent) => s.(stash := s.stash - {agent})
    case Expire(room) => s.(dead := s.dead - {room})
  }

  predicate Runs(s: Sys, steps: seq<Step>, end: Sys)
    decreases |steps|
  {
    if steps == [] then s == end else Enabled(s, steps[0]) && Runs(Next(s, steps[0]), steps[1..], end)
  }

  predicate Initial(s: Sys) {
    s.stash == map[] && s.tasks == map[] && s.locks == map[]
  }

  predicate Holds(task: Task, agent: string) {
    (task.Rechecking? || task.Offering? || task.Pushing?) && task.agent == agent
  }

  /** Locks and their holders agree, and a held entry is there. */
  ghost predicate Locked(s: Sys) {
    && (forall a <- s.locks :: a in s.stash && s.locks[a] in s.tasks && Holds(s.tasks[s.locks[a]], a))
    && (forall t <- s.tasks :: forall a :: Holds(s.tasks[t], a) ==> a in s.locks && s.locks[a] == t)
  }

  /** A call that will still visit an agent's entry to clear a room. */
  predicate Sweeps(task: Task, agent: string, room: string) {
    task == SweepFrom(room) || (task.Sweeping? && task.room == room && agent in task.left)
  }

  predicate Guards(task: Task, agent: string, room: string) {
    || task == Recheck(agent)
    || (task.Rechecking? && task.agent == agent && room in task.todo)
    || Sweeps(task, agent, room)
  }

  ghost predicate Swept(s: Sys, agent: string, room: string) {
    exists t :: t in s.tasks && Sweeps(s.tasks[t], agent, room)
  }

  ghost predicate Guarded(s: Sys, agent: string, room: string) {
    exists t :: t in s.tasks && Guards(s.tasks[t], agent, room)
  }

  /** A stash that still names a destroyed room. */
  predicate Exposed(s: Sys, agent: string, room: string) {
    agent in s.stash && room in s.dead && room in s.stash[agent].rooms
  }

  predicate TouchesLocks(step: Step) {
    step.LockEntry? || step.Unlock? || step.Offer? || step.CheckOffer? || step.Push?
  }

  lemma LockedOther(s: Sys, step: Step)
    requires Locked(s) && Enabled(s, step) && !TouchesLocks(step)
    ensures Locked(Next(s, step))
  {
  }

  lemma LockedStep(s: Sys, step: Step)
    requires Locked(s) && Enabled(s, step)
    ensures Locked(Next(s, step))
  {
    if !TouchesLocks(step) {
      LockedOther(s, step);
    }
  }

  /** Nothing newly exposed, and whoever guarded still does. */
  ghost predicate Calm(s: Sys, s': Sys, agent: string, room: string) {
    && (Exposed(s', agent, room) ==> Exposed(s, agent, room))
    && (forall t <- s.tasks :: Guards(s.tasks[t], agent, room) ==> t in s'.tasks && Guards(s'.tasks[t], agent, room))
  }

  lemma CalmKeeps(s: Sys, s': Sys, agent: string, room: string)
    requires Calm(s, s', agent, room) && (Exposed(s, agent, room) ==> Guarded(s, agent, room))
    ensures Exposed(s', agent, room) ==> Guarded(s', agent, room)
  {
    if Exposed(s', agent, room) {
      var t :| t in s.tasks && Guards(s.tasks[t], agent, room);
      assert Guards(s'.tasks[t], agent, room);
    }
  }

  lemma ExposedStep(s: Sys, step: Step, agent: string, room: string)
    requires Enabled(s, step) && (Exposed(s, agent, room) ==> Guarded(s, agent, room))
    ensures Exposed(Next(s, step), agent, room) ==> Guarded(Next(s, step), agent, room)
  {
    var s' := Next(s, step);
    if Exposed(s', agent, room) {
      if step.Insert? && s.tasks[step.t].agent == agent {
        assert Guards(s'.tasks[step.t], agent, room);
      } else if step.Tombstone? && s.tasks[step.t].room == room {
        assert Guards(s'.tasks[step.t], agent, room);
      } else {
        assert Exposed(s, agent, room);
        assert Calm(s, s', agent, room);
        CalmKeeps(s, s', agent, room);
      }
    }
  }

  predicate HasFrame(e: Entry, room: string) {
    exists f <- e.frames :: f.room == Some(room)
  }

  /** A stash that still holds an event of a destroyed room. */
  predicate Stale(s: Sys, agent: string, room: string) {
    agent in s.stash && room in s.dead && HasFrame(s.stash[agent], room)
  }

  /** An event about to be pushed belongs to no destroyed room, or a sweep is still to come. */
  ghost predicate PushesOK(s: Sys) {
    forall t <- s.tasks :: s.tasks[t].Pushing? && Dead(s, s.tasks[t].frame) ==>
      Swept(s, s.tasks[t].agent, s.tasks[t].frame.room.value)
  }

  /** `buffer_message` looks at the tombstones before it takes the entry: its push may come too late. */
  ghost predicate LateRelay(s: Sys, step: Step) {
    && step.Deliver? && step.t in s.tasks && s.tasks[step.t].Relaying?
    && var Relaying(a, f) := s.tasks[step.t];
       a in s.stash && |s.stash[a].frames| < MAX_BUFFERED && Dead(s, f) && !Swept(s, a, f.room.value)
  }

  /** A sweep to come still comes, except over the entry this step clears. */
  lemma SweptStep(s: Sys, step: Step, agent: string, room: string)
    requires Enabled(s, step) && agent in s.stash && Swept(s, agent, room)
    ensures Swept(Next(s, step), agent, room)
         || (step.SweepEntry? && step.agent == agent && s.tasks[step.t].room == room)
  {
    var t :| t in s.tasks && Sweeps(s.tasks[t], agent, room);
    var s' := Next(s, step);
    if !(step.SweepEntry? && step.agent == agent && step.t == t) {
      assert Sweeps(s'.tasks[t], agent, room);
    }
  }

  lemma PushesStep(s: Sys, step: Step)
    requires Locked(s) && PushesOK(s) && Enabled(s, step)
    ensures PushesOK(Next(s, step))
  {
    var s' := Next(s, step);
    forall t <- s'.tasks | s'.tasks[t].Pushing? && Dead(s', s'.tasks[t].frame)
      ensures Swept(s', s'.tasks[t].agent, s'.tasks[t].frame.room.value)
    {
      var room := s'.tasks[t].frame.room.value;
      if step.Tombstone? && s.tasks[step.t].room == room {
        assert Sweeps(s'.tasks[step.t], s'.tasks[t].agent, room);
      } else if t in s.tasks && s.tasks[t].Pushing? {
        SweptStep(s, step, s.tasks[t].agent, room);
      }
    }
  }

  lemma CleanedFrames(e: Entry, room: string, other: string)
    ensures !HasFrame(Cleaned(e, room), room)
    ensures HasFrame(Cleaned(e, room), other) ==> HasFrame(e, other)
  {
    FilterMembers(e.frames, (f: Frame) => f.room != Some(room));
  }

  /** What a step may add to an entry: one pushed event. */
  lemma FramesGrow(s: Sys, step: Step, agent: string, room: string)
    requires Enabled(s, step) && agent in Next(s, step).stash && HasFrame(Next(s, step).stash[agent], room)
    ensures agent in s.stash
    ensures HasFrame(s.stash[agent], room)
         || ((step.Push? || step.Deliver?) && s.tasks[step.t].agent == agent && s.tasks[step.t].frame.room == Some(room)
             && |s.stash[agent].frames| < MAX_BUFFERED)
  {
    if step.SweepEntry? && agent in s.stash {
      CleanedFrames(s.stash[agent], s.tasks[step.t].room, room);
    }
  }

  lemma StaleStep(s: Sys, step: Step, agent: string, room: string)
    requires Locked(s) && PushesOK(s) && Enabled(s, step) && !LateRelay(s, step)
    requires Stale(s, agent, room) ==> Swept(s, agent, room)
    ensures Stale(Next(s, step), agent, room) ==> Swept(Next(s, step), agent, room)
  {
    var s' := Next(s, step);
    if Stale(s', agent, room) {
      FramesGrow(s, step, agent, room);
      if step.Tombstone? && s.tasks[step.t].room == room {
        assert Sweeps(s'.tasks[step.t], agent, room);
      } else {
        assert Swept(s, agent, room);
        if step.SweepEntry? && step.agent == agent {
          CleanedFrames(s.stash[agent], s.tasks[step.t].room, room);
        }
        SweptStep(s, step, agent, room);
      }
    }
  }

  /** Every destroyed room still named by a stash is named by a call that will clear it. */
  ghost predicate RoomsGuarded(s: Sys) {
    forall agent, room :: Exposed(s, agent, room) ==> Guarded(s, agent, room)
  }

  ghost predicate FramesGuarded(s: Sys) {
    forall agent, room :: Stale(s, agent, room) ==> Swept(s, agent, room)
  }

  ghost predicate NoLateRelay(s: Sys, steps: seq<Step>)
    decreases |steps|
  {
    steps == [] || (!LateRelay(s, steps[0]) && (Enabled(s, steps[0]) ==> NoLateRelay(Next(s, steps[0]), steps[1..])))
  }

  /** In every interleaving, a stash names a destroyed room only while some running call will clear it. */
  lemma {:induction false} RoomsStayGuarded(s: Sys, steps: seq<Step>, end: Sys)
    requires Runs(s, steps, end) && RoomsGuarded(s)
    ensures RoomsGuarded(end)
    decreases |steps|
  {
    if steps != [] {
      forall agent, room
        ensures Exposed(Next(s, steps[0]), agent, room) ==> Guarded(Next(s, steps[0]), agent, room)
      {
        ExposedStep(s, steps[0], agent, room);
      }
      RoomsStayGuarded(Next(s, steps[0]), steps[1..], end);
    }
  }

  lemma GuardedStep(s: Sys, step: Step)
    requires Locked(s) && PushesOK(s) && FramesGuarded(s) && Enabled(s, step) && !LateRelay(s, step)
    ensures FramesGuarded(Next(s, step))
  {
    forall agent, room
      ensures Stale(Next(s, step), agent, room) ==> Swept(Next(s, step), agent, room)
    {
      StaleStep(s, step, agent, room);
    }
  }

  lemma {:induction false} FramesStayGuarded(s: Sys, steps: seq<Step>, end: Sys)
    requires Runs(s, steps, end) && Locked(s) && PushesOK(s) && FramesGuarded(s) && NoLateRelay(s, steps)
    ensures FramesGuarded(end)
    decreases |steps|
  {
    if steps != [] {
      GuardedStep(s, steps[0]);
      LockedStep(s, steps[0]);
      PushesStep(s, steps[0]);
      FramesStayGuarded(Next(s, steps[0]), steps[1..], end);
    }
  }

  /** A call that is still to touch the agent's stash or the room. */
  predicate Concerns(task: Task, agent: string, room: string) {
    || ((task.Filtering? || task.Recheck? || task.Rechecking?) && task.agent == agent)
    || ((task.Forgetting? || task.SweepFrom? || task.Sweeping?) && task.room == room)
  }

  /** Once both calls have returned, no stash names the destroyed room. */
  lemma DestroyedRoomsLeaveStashes(s: Sys, steps: seq<Step>, end: Sys, agent: string, room: string)
    requires Initial(s) && Runs(s, steps, end)
    requires forall t <- end.tasks :: !Concerns(end.tasks[t], agent, room)
    ensures !Exposed(end, agent, room)
  {
    RoomsStayGuarded(s, steps, end);
    assert forall t <- end.tasks :: !Guards(end.tasks[t], agent, room);
  }

  /** Likewise for its buffered events, as long as no message was relayed too late. */
  lemma DestroyedRoomsLeaveFrames(s: Sys, steps: seq<Step>, end: Sys, agent: string, room: string)
    requires Initial(s) && Runs(s, steps, end) && NoLateRelay(s, steps)
    requires forall t <- end.tasks :: !Concerns(end.tasks[t], agent, room)
    ensures !Stale(end, agent, room)
  {
    FramesStayGuarded(s, steps, end);
    assert forall t <- end.tasks :: !Sweeps(end.tasks[t], agent, room);
  }

  /** And a late relay always leaves an event that no running call will clear. */
  lemma LateRelayLeavesAFrame(s: Sys, step: Step)
    requires Enabled(s, step) && LateRelay(s, step)
    ensures var Relaying(a, f) := s.tasks[step.t];
            Stale(Next(s, step), a, f.room.value) && !Swept(Next(s, step), a, f.room.value)
  {
    var Relaying(a, f) := s.tasks[step.t];
    var s' := Next(s, step);
    assert s'.stash[a].frames[|s.stash[a].frames|] == f;
    assert forall t <- s'.tasks :: t in s.tasks && s'.tasks[t] == s.tasks[t];
  }

  lemma RunsOne(s: Sys, step: Step, mid: Sys, steps: seq<Step>, end: Sys)
    requires Enabled(s, step) && Next(s, step) == mid && Runs(mid, steps, end)
    ensures Runs(s, [step] + steps, end)
  {
    assert ([step] + steps)[1..] == steps;
  }

  /** No entry gained anything. */
  ghost predicate Shrunk(s: Sys, end: Sys) {
    && end.stash.Keys == s.stash.Keys
    && forall a <- s.stash :: |end.stash[a].frames| <= |s.stash[a].frames|
  }

  /** A sweep goes through all entries while a checked relay waits. */
  lemma {:induction false} SweepOut(s: Sys, relay: Task, room: string, left: set<string>)
    returns (steps: seq<Step>, end: Sys)
    requires s.tasks == map[2 := relay, 3 := Sweeping(room, left)] && s.locks == map[]
    ensures Runs(s, steps, end) && end == s.(tasks := map[2 := relay], stash := end.stash) && Shrunk(s, end)
    decreases |left|
  {
    if agent :| agent in left {
      var s1 := Next(s, SweepEntry(3, agent));
      if agent in s.stash {
        CleanedShorter(s.stash[agent], room);
      }
      assert s1.tasks == map[2 := relay, 3 := Sweeping(room, left - {agent})];
      var rest, last := SweepOut(s1, relay, room, left - {agent});
      RunsOne(s, SweepEntry(3, agent), s1, rest, last);
      return [SweepEntry(3, agent)] + rest, last;
    }
    end := Next(s, EndSweep(3));
    RunsOne(s, EndSweep(3), end, [], end);
    assert end.tasks == map[2 := relay];
    return [EndSweep(3)] + [], end;
  }

  lemma SweptBehind(s: Sys, relay: Task, room: string) returns (steps: seq<Step>, end: Sys)
    requires s.tasks == map[2 := relay] && s.locks == map[]
    ensures Runs(s, steps, end) && Shrunk(s, end)
    ensures end == s.(dead := s.dead + {room}, stash := end.stash)
  {
    var s1 := Next(s, Forget(3, room));
    var s2 := Next(s1, Tombstone(3));
    var s3 := Next(s2, StartSweep(3));
    assert s3.tasks == map[2 := relay, 3 := Sweeping(room, s.stash.Keys)];
    steps, end := SweepOut(s3, relay, room, s.stash.Keys);
    RunsOne(s2, StartSweep(3), s3, steps, end);
    steps := [StartSweep(3)] + steps;
    RunsOne(s1, Tombstone(3), s2, steps, end);
    steps := [Tombstone(3)] + steps;
    RunsOne(s, Forget(3, room), s1, steps, end);
    steps := [Forget(3, room)] + steps;
  }

  lemma {:induction false} RunsSnoc(s: Sys, steps: seq<Step>, mid: Sys, step: Step)
    requires Runs(s, steps, mid) && Enabled(mid, step)
    ensures Runs(s, steps + [step], Next(mid, step))
    decreases |steps|
  {
    if steps == [] {
      RunsOne(mid, step, Next(mid, step), [], Next(mid, step));
      assert [] + [step] == [step] + [];
    } else {
      RunsSnoc(Next(s, steps[0]), steps[1..], mid, step);
      assert (steps + [step])[1..] == steps[1..] + [step];
    }
  }

  lemma CleanedShorter(e: Entry, room: string)
    ensures |Cleaned(e, room).frames| <= |e.frames|
  {
    FilterShorter(e.frames, (f: Frame) => f.room != Some(room));
  }

  /** From any quiet state such a relay happens: it checks, the room dies and is swept, and the message lands. */
  lemma LateRelayHappens(s: Sys, agent: string, frame: Frame)
    requires s.tasks == map[] && s.locks == map[] && agent in s.stash
    requires |s.stash[agent].frames| < MAX_BUFFERED && frame.room.Some? && frame.room.value !in s.dead
    ensures exists steps: seq<Step>, end: Sys ::
      Runs(s, steps, end) && end.tasks == map[] && Stale(end, agent, frame.room.value)
  {
    var s1 := Next(s, Message(2, agent, frame));
    var steps, s2 := SweptBehind(s1, Relaying(agent, frame), frame.room.value);
    var end := Next(s2, Deliver(2));
    RunsSnoc(s1, steps, s2, Deliver(2));
    RunsOne(s, Message(2, agent, frame), s1, steps + [Deliver(2)], end);
    assert LateRelay(s2, Deliver(2));
    LateRelayLeavesAFrame(s2, Deliver(2));
    assert Runs(s, [Message(2, agent, frame)] + (steps + [Deliver(2)]), end) && end.tasks == map[];
  }

  ghost predicate AlwaysGuarded(s: Sys, steps: seq<Step>)
    decreases |steps|
  {
    FramesGuarded(s) && (steps == [] || (Enabled(s, steps[0]) && AlwaysGuarded(Next(s, steps[0]), steps[1..])))
  }

  /** All along a run the buffers hold no event of a destroyed room unswept, exactly if no relay is late. */
  lemma {:induction false} FramesGuardedExactly(s: Sys, steps: seq<Step>, end: Sys)
    requires Runs(s, steps, end) && Locked(s) && PushesOK(s) && FramesGuarded(s)
    ensures AlwaysGuarded(s, steps) <==> NoLateRelay(s, steps)
    decreases |steps|
  {
    if steps != [] {
      var s' := Next(s, steps[0]);
      if LateRelay(s, steps[0]) {
        LateRelayLeavesAFrame(s, steps[0]);
      } else {
        GuardedStep(s, steps[0]);
        LockedStep(s, steps[0]);
        PushesStep(s, steps[0]);
        FramesGuardedExactly(s', steps[1..], end);
      }
    }
  }
}
