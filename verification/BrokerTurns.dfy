/**
 * The broker under concurrent calls. Joins, leaves and destructions hold the lifecycle lock but
 * change two tables one after the other; `advance_turn_from` holds no lock, and reads the members
 * and writes the holder as two steps that anything may come between.
 */
module BrokerTurns {
  import opened Prelude
  import opened Broker

  /** What the holder of the lifecycle lock still has to do. */
  datatype Section =
    | Idle
    | JoinLook(agent: string, room: string)
    | JoinHand(agent: string, room: string)
    | LeaveDrop(agent: string, room: string, was: bool)
    | LeaveHand(room: string)
    | DestroyHand(room: string)

  /** An advance that has read the members and not yet written. */
  datatype Pass = Pass(room: string, next: Option<string>)

  datatype World = World(s: State, section: Section, passes: map<int, Pass>)

  datatype Step =
    | Make(room: string)
    | Begin(op: Op)
    | Continue
    | ReadTurn(t: int, room: string, sender: string)
    | WriteTurn(t: int)

  predicate Locks(op: Op) {
    !op.Create?
  }

  predicate Enabled(w: World, step: Step) {
    match step
    case Make(room) => Allowed(w.s, Create(room))
    case Begin(op) => Locks(op) && w.section.Idle? && Allowed(w.s, op)
    case Continue => !w.section.Idle?
    case ReadTurn(t, _, _) => t !in w.passes
    case WriteTurn(t) => t in w.passes
  }

  function Hand(s: State, agent: string, room: string): State {
    s.(holders := s.holders[room := agent])
  }

  function DropMember(s: State, agent: string, room: string): State {
    if room in s.members then s.(members := s.members[room := Without(s.members[room], agent)]) else s
  }

  function HandOn(s: State, room: string): State {
    var left := MembersOf(s.members, room);
    s.(holders := if left == [] then s.holders - {room} else s.holders[room := left[0]])
  }

  function DoBegin(w: World, op: Op): World
    requires Locks(op)
  {
    match op
    case Join(agent, room, accessible) =>
      if room in w.s.dead || room !in w.s.rooms || !accessible then w
      else
        w.(s := w.s.(members := w.s.members[room := Joined(MembersOf(w.s.members, room), agent)]),
           section := JoinLook(agent, room))
    case Leave(agent, room) => w.(section := LeaveDrop(agent, room, room in w.s.holders && w.s.holders[room] == agent))
    case Destroy(room) => w.(s := DoDestroy(w.s, room).(holders := w.s.holders), section := DestroyHand(room))
    case Expire(room) => w.(s := w.s.(dead := w.s.dead - {room}))
  }

  function DoContinue(w: World): World
    requires !w.section.Idle?
  {
    match w.section
    case JoinLook(agent, room) => w.(section := if room in w.s.holders then Idle else JoinHand(agent, room))
    case JoinHand(agent, room) => w.(s := Hand(w.s, agent, room), section := Idle)
    case LeaveDrop(agent, room, was) =>
      w.(s := DropMember(w.s, agent, room), section := if was then LeaveHand(room) else Idle)
    case LeaveHand(room) => w.(s := HandOn(w.s, room), section := Idle)
    case DestroyHand(room) => w.(s := w.s.(holders := w.s.holders - {room}), section := Idle)
  }

  function Next(w: World, step: Step): World
    requires Enabled(w, step)
  {
    match step
    case Make(room) => w.(s := Whole(w.s, Create(room)))
    case Begin(op) => DoBegin(w, op)
    case Continue => DoContinue(w)
    case ReadTurn(t, room, sender) => w.(passes := w.passes[t := Pass(room, Chosen(w.s, room, sender))])
    case WriteTurn(t) => w.(s := PassTo(w.s, w.passes[t].room, w.passes[t].next), passes := w.passes - {t})
  }

  predicate Runs(w: World, steps: seq<Step>, end: World)
    decreases |steps|
  {
    if steps == [] then w == end else Enabled(w, steps[0]) && Runs(Next(w, steps[0]), steps[1..], end)
  }

  /** What the lock's holder makes of the tables. */
  function Finish(s: State, section: Section): State {
    match section
    case Idle => s
    case JoinLook(agent, room) => if room in s.holders then s else Hand(s, agent, room)
    case JoinHand(agent, room) => Hand(s, agent, room)
    case LeaveDrop(agent, room, was) =>
      var left := DropMember(s, agent, room);
      if was then HandOn(left, room) else left
    case LeaveHand(room) => HandOn(s, room)
    case DestroyHand(room) => s.(holders := s.holders - {room})
  }

  /** The tables as they will be once the lock is free. */
  function Settled(w: World): State {
    Finish(w.s, w.section)
  }

  /** Under the lock an operation takes effect as a whole. */
  lemma BeginSettles(w: World, op: Op)
    requires Enabled(w, Begin(op))
    ensures Settled(Next(w, Begin(op))) == Whole(w.s, op) && Settled(w) == w.s
  {
    assert Without([], "") == [];
  }

  lemma ContinueSettles(w: World)
    requires Enabled(w, Continue)
    ensures Settled(Next(w, Continue)) == Settled(w)
  {
  }

  lemma MakeSettles(w: World, room: string)
    requires Enabled(w, Make(room))
    ensures Settled(Next(w, Make(room))) == Whole(Settled(w), Create(room))
  {
  }

  lemma ReadSettles(w: World, t: int, room: string, sender: string)
    requires Enabled(w, ReadTurn(t, room, sender))
    ensures Settled(Next(w, ReadTurn(t, room, sender))) == Settled(w)
  {
  }

  /** The lock's holder will still write the room's holder itself. */
  predicate Overwrites(section: Section, room: string) {
    || (section.JoinHand? && section.room == room)
    || (section.LeaveDrop? && section.room == room && section.was)
    || (section.LeaveHand? && section.room == room)
    || (section.DestroyHand? && section.room == room)
  }

  /** The pass fits the members: to one of them, or to nobody when there are none. */
  predicate Fits(s: State, pass: Pass) {
    match pass.next
    case Some(agent) => agent in MembersOf(s.members, pass.room)
    case None => MembersOf(s.members, pass.room) == []
  }

  /** A joiner about to find no holder will become one. */
  predicate Refills(section: Section, pass: Pass) {
    section.JoinLook? && section.room == pass.room && pass.next.None?
  }

  /** A write whose reading of the members has gone out of date, with nobody about to correct it. */
  predicate Stale(w: World, step: Step) {
    && step.WriteTurn? && step.t in w.passes
    && var pass := w.passes[step.t];
       !Overwrites(w.section, pass.room) && !Refills(w.section, pass) && !Fits(Settled(w), pass)
  }

  function HolderOf(s: State, room: string): Option<string> {
    if room in s.holders then Some(s.holders[room]) else None
  }

  /** What a write comes to once the lock is free. */
  function Outcome(w: World, t: int, room: string): Option<string>
    requires t in w.passes
  {
    var pass := w.passes[t];
    if room != pass.room || Overwrites(w.section, room) then HolderOf(Settled(w), room)
    else if Refills(w.section, pass) then Some(w.section.agent)
    else pass.next
  }

  /** Finishing changes members by the members alone. */
  lemma FinishMembers(s: State, section: Section, holders: map<string, string>)
    ensures Finish(s.(holders := holders), section).members == Finish(s, section).members
    ensures Finish(s.(holders := holders), section).rooms == Finish(s, section).rooms
  {
  }

  function LeftBy(s: State, section: Section, room: string): Option<string> {
    var left := MembersOf(Finish(s, section).members, room);
    if left == [] then None else Some(left[0])
  }

  /** The holder of a room once the lock is free. */
  lemma FinishHolder(s: State, section: Section, room: string)
    ensures HolderOf(Finish(s, section), room) ==
            if section.DestroyHand? && section.room == room then None
            else if section.JoinHand? && section.room == room then Some(section.agent)
            else if Overwrites(section, room) then LeftBy(s, section, room)
            else if section.JoinLook? && section.room == room && room !in s.holders then Some(section.agent)
            else HolderOf(s, room)
  {
  }

  lemma WriteSettles(w: World, t: int, room: string)
    requires t in w.passes
    ensures Settled(Next(w, WriteTurn(t))).members == Settled(w).members
    ensures Settled(Next(w, WriteTurn(t))).rooms == Settled(w).rooms
    ensures HolderOf(Settled(Next(w, WriteTurn(t))), room) == Outcome(w, t, room)
  {
    var pass := w.passes[t];
    var written := PassTo(w.s, pass.room, pass.next);
    FinishMembers(w.s, w.section, written.holders);
    FinishHolder(w.s, w.section, room);
    FinishHolder(written, w.section, room);
  }

  ghost predicate Fine(w: World) {
    forall room :: RoomOK(Settled(w), room)
  }

  /** In the middle of a join, the joiner is a member already. */
  predicate SectionOK(w: World) {
    w.section.JoinLook? || w.section.JoinHand? ==> w.section.agent in MembersOf(w.s.members, w.section.room)
  }

  lemma SectionStep(w: World, step: Step)
    requires Enabled(w, step) && SectionOK(w)
    ensures SectionOK(Next(w, step))
  {
  }

  lemma WriteKeepsExactly(w: World, t: int, room: string)
    requires t in w.passes && SectionOK(w) && RoomOK(Settled(w), room)
    ensures RoomOK(Settled(Next(w, WriteTurn(t))), room) <==> !(Stale(w, WriteTurn(t)) && w.passes[t].room == room)
  {
    WriteSettles(w, t, room);
    assert RoomOK(Settled(w), room) ==> HolderOf(Settled(w), room).Some? == (MembersOf(Settled(w).members, room) != []);
  }

  /** A step breaks a room exactly when it is a stale write to it. */
  lemma StepKeepsExactly(w: World, step: Step, room: string)
    requires Enabled(w, step) && SectionOK(w) && RoomOK(Settled(w), room)
    ensures RoomOK(Settled(Next(w, step)), room) <==> !(Stale(w, step) && w.passes[step.t].room == room)
  {
    match step
    case Make(made) =>
      MakeSettles(w, made);
      RoomStep(Settled(w), Create(made), room);
    case Begin(op) =>
      BeginSettles(w, op);
      RoomStep(w.s, op, room);
    case Continue => ContinueSettles(w);
    case ReadTurn(t, read, sender) => ReadSettles(w, t, read, sender);
    case WriteTurn(t) => WriteKeepsExactly(w, t, room);
  }

  ghost predicate AlwaysFine(w: World, steps: seq<Step>)
    decreases |steps|
  {
    Fine(w) && (steps == [] || (Enabled(w, steps[0]) && AlwaysFine(Next(w, steps[0]), steps[1..])))
  }

  predicate NeverStale(w: World, steps: seq<Step>)
    decreases |steps|
  {
    steps == [] || (Enabled(w, steps[0]) && !Stale(w, steps[0]) && NeverStale(Next(w, steps[0]), steps[1..]))
  }

  lemma FineStep(w: World, step: Step)
    requires Enabled(w, step) && SectionOK(w) && Fine(w)
    ensures Fine(Next(w, step)) <==> !Stale(w, step)
  {
    forall room
      ensures RoomOK(Settled(Next(w, step)), room) <==> !(Stale(w, step) && w.passes[step.t].room == room)
    {
      StepKeepsExactly(w, step, room);
    }
    if Stale(w, step) {
      assert !RoomOK(Settled(Next(w, step)), w.passes[step.t].room);
    }
  }

  /**
   * In every run, all along it each room has distinct members and a holder exactly while it has
   * members, one of them, if and only if no advance wrote what was out of date.
   */
  lemma {:induction false} TurnsHoldExactly(w: World, steps: seq<Step>, end: World)
    requires SectionOK(w) && Fine(w) && Runs(w, steps, end)
    ensures AlwaysFine(w, steps) <==> NeverStale(w, steps)
    decreases |steps|
  {
    if steps != [] {
      FineStep(w, steps[0]);
      if !Stale(w, steps[0]) {
        SectionStep(w, steps[0]);
        TurnsHoldExactly(Next(w, steps[0]), steps[1..], end);
      }
    }
  }

  lemma DistinctStep(w: World, step: Step, room: string)
    requires Enabled(w, step) && Distinct(MembersOf(Settled(w).members, room))
    ensures Distinct(MembersOf(Settled(Next(w, step)).members, room))
  {
    match step
    case Begin(op) =>
      BeginSettles(w, op);
      if op.Join? {
        JoinedDistinct(MembersOf(w.s.members, room), op.agent);
      } else if op.Leave? {
        WithoutDistinct(MembersOf(w.s.members, room), op.agent);
      }
    case Continue => ContinueSettles(w);
    case WriteTurn(t) => WriteSettles(w, t, room);
    case _ =>
  }

  /** Members stay distinct whatever the advances do. */
  lemma {:induction false} MembersAlwaysDistinct(w: World, steps: seq<Step>, end: World, room: string)
    requires Runs(w, steps, end) && Distinct(MembersOf(Settled(w).members, room))
    ensures Distinct(MembersOf(Settled(end).members, room))
    decreases |steps|
  {
    if steps != [] {
      DistinctStep(w, steps[0], room);
      MembersAlwaysDistinct(Next(w, steps[0]), steps[1..], end, room);
    }
  }

  /** A room identifier that is used up: off the record and without members. */
  predicate Gone(w: World, room: string) {
    && room in w.s.used && room !in w.s.rooms && room !in w.s.members
    && !((w.section.JoinLook? || w.section.JoinHand?) && w.section.room == room)
  }

  lemma GoneStep(w: World, step: Step, room: string)
    requires Enabled(w, step) && Gone(w, room)
    ensures Gone(Next(w, step), room)
  {
  }

  /** A destroyed room never has members again, whether its tombstone stays or goes. */
  lemma {:induction false} GoneForGood(w: World, steps: seq<Step>, end: World, room: string)
    requires Gone(w, room) && Runs(w, steps, end)
    ensures Gone(end, room)
    decreases |steps|
  {
    if steps != [] {
      GoneStep(w, steps[0], room);
      GoneForGood(Next(w, steps[0]), steps[1..], end, room);
    }
  }

  /** A destruction leaves the room as `GoneForGood` and `DestroyedStaysVacantExactly` assume it. */
  lemma DestroyedIsGone(w: World, room: string)
    requires Enabled(w, Begin(Destroy(room)))
    ensures var w' := Next(Next(w, Begin(Destroy(room))), Continue); Gone(w', room) && Vacant(w', room)
  {
  }

  /** Nobody holds its turn, and nobody under the lock is about to hand it on. */
  predicate Vacant(w: World, room: string) {
    && room !in w.s.holders
    && !(w.section.LeaveHand? && w.section.room == room)
    && !(w.section.LeaveDrop? && w.section.room == room && w.section.was)
  }

  /** An advance writes a holder it chose before the destruction. */
  predicate PassesInto(w: World, step: Step, room: string) {
    step.WriteTurn? && step.t in w.passes && w.passes[step.t].room == room && w.passes[step.t].next.Some?
  }

  lemma VacantStep(w: World, step: Step, room: string)
    requires Enabled(w, step) && Gone(w, room) && Vacant(w, room)
    ensures Vacant(Next(w, step), room) <==> !PassesInto(w, step, room)
  {
  }

  predicate NeverPassesInto(w: World, steps: seq<Step>, room: string)
    decreases |steps|
  {
    steps == [] || (Enabled(w, steps[0]) && !PassesInto(w, steps[0], room)
                    && NeverPassesInto(Next(w, steps[0]), steps[1..], room))
  }

  predicate AlwaysVacant(w: World, steps: seq<Step>, room: string)
    decreases |steps|
  {
    Vacant(w, room) && (steps == [] || (Enabled(w, steps[0]) && AlwaysVacant(Next(w, steps[0]), steps[1..], room)))
  }

  /**
   * A destroyed room stays without a holder exactly as long as no advance that read its members
   * before the destruction writes after it.
   */
  lemma {:induction false} DestroyedStaysVacantExactly(w: World, steps: seq<Step>, end: World, room: string)
    requires Gone(w, room) && Vacant(w, room) && Runs(w, steps, end)
    ensures AlwaysVacant(w, steps, room) <==> NeverPassesInto(w, steps, room)
    decreases |steps|
  {
    if steps != [] {
      VacantStep(w, steps[0], room);
      GoneStep(w, steps[0], room);
      if !PassesInto(w, steps[0], room) {
        DestroyedStaysVacantExactly(Next(w, steps[0]), steps[1..], end, room);
      }
    }
  }

  lemma RunsOne(w: World, step: Step, mid: World, steps: seq<Step>, end: World)
    requires Enabled(w, step) && Next(w, step) == mid && Runs(mid, steps, end)
    ensures Runs(w, [step] + steps, end)
  {
    assert ([step] + steps)[1..] == steps;
  }

  /** It happens: a send reads the members, the room is destroyed, and the send writes a holder. */
  lemma DestroyedRoomKeepsHolder(w: World, t: int, room: string, sender: string)
    requires w.section.Idle? && t !in w.passes && room in w.s.used && MembersOf(w.s.members, room) != []
    ensures exists steps: seq<Step>, end: World ::
      Runs(w, steps, end) && end.section.Idle? && Gone(end, room) && room in end.s.holders
  {
    var w1 := Next(w, ReadTurn(t, room, sender));
    var w2 := Next(w1, Begin(Destroy(room)));
    var w3 := Next(w2, Continue);
    var end := Next(w3, WriteTurn(t));
    RunsOne(w3, WriteTurn(t), end, [], end);
    RunsOne(w2, Continue, w3, [WriteTurn(t)] + [], end);
    RunsOne(w1, Begin(Destroy(room)), w2, [Continue] + ([WriteTurn(t)] + []), end);
    RunsOne(w, ReadTurn(t, room, sender), w1, [Begin(Destroy(room))] + ([Continue] + ([WriteTurn(t)] + [])), end);
  }

  /** It happens with a leave: the chosen member leaves before the write, and holds the turn from outside. */
  lemma LeftMemberHolds(w: World, t: int, room: string, sender: string)
    requires w.section.Idle? && t !in w.passes && RoomOK(w.s, room) && Chosen(w.s, room, sender).Some?
    requires w.s.holders[room] != Chosen(w.s, room, sender).value
    ensures exists steps: seq<Step>, end: World ::
      Runs(w, steps, end) && end.section.Idle? && room in end.s.holders
      && end.s.holders[room] !in MembersOf(end.s.members, room)
  {
    var agent := Chosen(w.s, room, sender).value;
    var w1 := Next(w, ReadTurn(t, room, sender));
    var w2 := Next(w1, Begin(Leave(agent, room)));
    var w3 := Next(w2, Continue);
    var end := Next(w3, WriteTurn(t));
    WithoutMembers(MembersOf(w.s.members, room), agent);
    RunsOne(w3, WriteTurn(t), end, [], end);
    RunsOne(w2, Continue, w3, [WriteTurn(t)] + [], end);
    RunsOne(w1, Begin(Leave(agent, room)), w2, [Continue] + ([WriteTurn(t)] + []), end);
    RunsOne(w, ReadTurn(t, room, sender), w1, [Begin(Leave(agent, room))] + ([Continue] + ([WriteTurn(t)] + [])), end);
  }

  /** And with a join: the advance read an empty room, and takes the first joiner's turn away. */
  lemma FirstJoinerLosesTurn(w: World, t: int, room: string, sender: string, agent: string)
    requires w.section.Idle? && t !in w.passes && MembersOf(w.s.members, room) == []
    requires room in w.s.rooms && room !in w.s.dead
    ensures exists steps: seq<Step>, end: World ::
      Runs(w, steps, end) && end.section.Idle? && agent in MembersOf(end.s.members, room) && room !in end.s.holders
  {
    var w1 := Next(w, ReadTurn(t, room, sender));
    var w2 := Next(w1, Begin(Join(agent, room, true)));
    var w3 := Next(w2, Continue);
    if w3.section.Idle? {
      var end := Next(w3, WriteTurn(t));
      RunsOne(w3, WriteTurn(t), end, [], end);
      JoinRuns(w, t, room, sender, agent, w3, [WriteTurn(t)] + [], end);
    } else {
      var w4 := Next(w3, Continue);
      var end := Next(w4, WriteTurn(t));
      RunsOne(w4, WriteTurn(t), end, [], end);
      RunsOne(w3, Continue, w4, [WriteTurn(t)] + [], end);
      JoinRuns(w, t, room, sender, agent, w3, [Continue] + ([WriteTurn(t)] + []), end);
    }
  }

  lemma JoinRuns(w: World, t: int, room: string, sender: string, agent: string, mid: World, rest: seq<Step>, end: World)
    requires w.section.Idle? && t !in w.passes && room in w.s.rooms && room !in w.s.dead
    requires mid == Next(Next(Next(w, ReadTurn(t, room, sender)), Begin(Join(agent, room, true))), Continue)
    requires Runs(mid, rest, end)
    ensures exists steps: seq<Step> :: Runs(w, steps, end)
  {
    var w1 := Next(w, ReadTurn(t, room, sender));
    var w2 := Next(w1, Begin(Join(agent, room, true)));
    RunsOne(w2, Continue, mid, rest, end);
    RunsOne(w1, Begin(Join(agent, room, true)), w2, [Continue] + rest, end);
    RunsOne(w, ReadTurn(t, room, sender), w1, [Begin(Join(agent, room, true))] + ([Continue] + rest), end);
  }

  /** An advance that nothing comes between is `DoAdvance`. */
  lemma AdvanceAlone(w: World, t: int, room: string, sender: string)
    requires t !in w.passes
    ensures Enabled(w, ReadTurn(t, room, sender)) && Enabled(Next(w, ReadTurn(t, room, sender)), WriteTurn(t))
    ensures Next(Next(w, ReadTurn(t, room, sender)), WriteTurn(t)) == w.(s := DoAdvance(w.s, room, sender))
  {
    assert w.passes[t := Pass(room, Chosen(w.s, room, sender))] - {t} == w.passes;
  }

  predicate Parts(step: Step, agent: string, room: string) {
    step == Begin(Leave(agent, room)) || step == Begin(Destroy(room))
  }

  lemma OrderStep(w: World, step: Step, room: string, a: string, b: string)
    requires Enabled(w, step) && Before(MembersOf(Settled(w).members, room), a, b)
    requires !Parts(step, a, room) && !Parts(step, b, room)
    ensures Before(MembersOf(Settled(Next(w, step)).members, room), a, b)
  {
    match step
    case Begin(op) =>
      BeginSettles(w, op);
      if op.Join? && op.room == room {
        JoinedBefore(MembersOf(w.s.members, room), op.agent, a, b);
      } else if op.Leave? && op.room == room {
        WithoutBefore(MembersOf(w.s.members, room), op.agent, a, b);
      }
    case Continue => ContinueSettles(w);
    case WriteTurn(t) => WriteSettles(w, t, room);
    case _ =>
  }

  /** Members who stay keep their order: the order of the turns is the order of joining. */
  lemma {:induction false} OrderIsStable(w: World, steps: seq<Step>, end: World, room: string, a: string, b: string)
    requires Runs(w, steps, end) && Before(MembersOf(Settled(w).members, room), a, b)
    requires forall i :: 0 <= i < |steps| ==> !Parts(steps[i], a, room) && !Parts(steps[i], b, room)
    ensures Before(MembersOf(Settled(end).members, room), a, b)
    decreases |steps|
  {
    if steps != [] {
      OrderStep(w, steps[0], room, a, b);
      OrderIsStable(Next(w, steps[0]), steps[1..], end, room, a, b);
    }
  }
}
