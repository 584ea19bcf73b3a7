/**
 * One vote under concurrent casts, its deadline, and the destruction of its room. Its row is
 * committed before it opens in memory. A cast persists its ballot, then records it in memory, then
 * closes; each is a step others may come between.
 */
module VotingRace {
  import opened Prelude
  import opened Voting

  /** A running cast or timer. */
  datatype Task =
    | Checked(agent: string, option: nat)
    | Persisted(agent: string, option: nat)
    | Full
    | Closing(vote: Vote)
    | Publishing(vote: Vote)

  /**
   * `unopened` is the vote between the commit of its row and its entry in memory, `active` the open one;
   * `roll` and `options` are its durable record, `stored` its ballot rows.
   */
  datatype Sys = Sys(unopened: Option<Vote>, active: Option<Vote>, stored: map<string, nat>, open: bool,
                     roll: set<string>, options: nat, tasks: map<int, Task>, published: seq<Vote>)

  datatype Step =
    | Open
    | Begin(t: int, agent: string, option: nat, inRoom: bool)
    | Persist(t: int)
    | Record(t: int)
    | Take(t: int)
    | Deadline(t: int)
    | CloseRow(t: int)
    | Publish(t: int)
    | ForgetRoom

  predicate Enabled(s: Sys, step: Step) {
    match step
    case Open => s.unopened.Some?
    case Begin(t, _, _, _) => t !in s.tasks
    case Persist(t) => t in s.tasks && s.tasks[t].Checked?
    case Record(t) => t in s.tasks && s.tasks[t].Persisted?
    case Take(t) => t in s.tasks && s.tasks[t].Full?
    case Deadline(t) => t !in s.tasks
    case CloseRow(t) => t in s.tasks && s.tasks[t].Closing?
    case Publish(t) => t in s.tasks && s.tasks[t].Publishing?
    case ForgetRoom => true
  }

  /** The checks before the ballot is persisted; the option is checked only while the vote is in memory. */
  predicate Admitted(s: Sys, agent: string, option: nat, inRoom: bool) {
    inRoom && agent in s.roll && (s.active.Some? ==> option < s.active.value.options)
  }

  function DoPersist(s: Sys, t: int): Sys
    requires t in s.tasks && s.tasks[t].Checked?
  {
    var Checked(agent, option) := s.tasks[t];
    if s.open && agent !in s.stored then
      s.(stored := s.stored[agent := option], tasks := s.tasks[t := Persisted(agent, option)])
    else s.(tasks := s.tasks - {t})
  }

  function DoRecord(s: Sys, t: int): Sys
    requires t in s.tasks && s.tasks[t].Persisted?
  {
    var Persisted(agent, option) := s.tasks[t];
    if s.active.None? then s.(tasks := s.tasks - {t})
    else
      var cast := Cast(s.active.value, agent, option);
      if cast.Err? then s.(tasks := s.tasks - {t})
      else if |cast.value.ballots| >= |cast.value.eligible| then
        s.(active := Some(cast.value), tasks := s.tasks[t := Full])
      else s.(active := Some(cast.value), tasks := s.tasks - {t})
  }

  /** Removing the vote from the table is what decides who closes it. */
  function DoTake(s: Sys, t: int): Sys {
    if s.active.Some? then s.(active := None, tasks := s.tasks[t := Closing(s.active.value)])
    else s.(tasks := s.tasks - {t})
  }

  function Next(s: Sys, step: Step): Sys
    requires Enabled(s, step)
  {
    match step
    case Open => s.(unopened := None, active := s.unopened)
    case Begin(t, agent, option, inRoom) =>
      if Admitted(s, agent, option, inRoom) then s.(tasks := s.tasks[t := Checked(agent, option)]) else s
    case Persist(t) => DoPersist(s, t)
    case Record(t) => DoRecord(s, t)
    case Take(t) => DoTake(s, t)
    case Deadline(t) => DoTake(s, t)
    case CloseRow(t) => s.(open := false, tasks := s.tasks[t := Publishing(s.tasks[t].vote)])
    case Publish(t) => s.(published := s.published + [s.tasks[t].vote], tasks := s.tasks - {t})
    case ForgetRoom => s.(active := None)
  }

  predicate Runs(s: Sys, steps: seq<Step>, end: Sys)
    decreases |steps|
  {
    if steps == [] then s == end else Enabled(s, steps[0]) && Runs(Next(s, steps[0]), steps[1..], end)
  }

  /** A vote whose row and roll of eligible agents have just been committed, and which is still to open. */
  predicate Initial(s: Sys) {
    && s.unopened.Some? && s.unopened.value.ballots == []
    && s.unopened.value.eligible == s.roll && s.unopened.value.options == s.options
    && s.active.None? && s.stored == map[] && s.open && s.tasks == map[] && s.published == []
  }

  predicate Closer(task: Task) {
    task.Closing? || task.Publishing?
  }

  /** The vote is in one place: to be opened, open, with one closer, published, or forgotten. */
  ghost predicate OneOwner(s: Sys) {
    && |s.published| <= 1
    && (s.unopened.Some? ==> s.active.None? && s.published == []
                             && forall t <- s.tasks :: !Closer(s.tasks[t]) && !s.tasks[t].Full?)
    && (s.active.Some? ==> s.published == [] && forall t <- s.tasks :: !Closer(s.tasks[t]))
    && (s.published != [] ==> forall t <- s.tasks :: !Closer(s.tasks[t]))
    && (forall t <- s.tasks, u <- s.tasks :: Closer(s.tasks[t]) && Closer(s.tasks[u]) ==> t == u)
  }

  /** A vote, wherever it is, holds proper ballots, all of them on record. */
  predicate Recorded(s: Sys, v: Vote) {
    Proper(v) && v.eligible == s.roll && v.options == s.options && OnRecord(v.ballots, s.stored)
  }

  ghost predicate AllRecorded(s: Sys) {
    && (s.unopened.Some? ==> Recorded(s, s.unopened.value) && s.unopened.value.ballots == [])
    && (s.active.Some? ==> Recorded(s, s.active.value))
    && (forall t <- s.tasks :: Closer(s.tasks[t]) ==> Recorded(s, s.tasks[t].vote))
    && (forall i :: 0 <= i < |s.published| ==> Recorded(s, s.published[i]))
    && PersistedStored(s)
  }

  predicate PersistedStored(s: Sys) {
    forall t <- s.tasks :: s.tasks[t].Persisted? ==>
      s.tasks[t].agent in s.stored && s.stored[s.tasks[t].agent] == s.tasks[t].option
  }

  predicate PersistedOnce(s: Sys) {
    forall t <- s.tasks, u <- s.tasks ::
      s.tasks[t].Persisted? && s.tasks[u].Persisted? && s.tasks[t].agent == s.tasks[u].agent ==> t == u
  }

  /** Somebody has voted, and as many ballots are in as there are eligible agents. */
  predicate AllVoted(v: Vote) {
    v.ballots != [] && |v.ballots| >= |v.eligible|
  }

  /** An open vote still misses a voter, or the cast that completed it is about to close it. */
  ghost predicate OpenOrFull(s: Sys) {
    s.active.Some? && AllVoted(s.active.value) ==> exists t :: t in s.tasks && s.tasks[t].Full?
  }

  /** Only a complete vote makes a cast try to close it. */
  ghost predicate FullIsFull(s: Sys) {
    s.active.Some? && (exists t :: t in s.tasks && s.tasks[t].Full?) ==>
      s.active.value.ballots != [] && Voters(s.active.value.ballots) == s.active.value.eligible
  }

  lemma OwnerStep(s: Sys, step: Step)
    requires OneOwner(s) && Enabled(s, step)
    ensures OneOwner(Next(s, step))
  {
  }

  lemma RecordedMore(s: Sys, s': Sys, v: Vote)
    requires Recorded(s, v) && s'.roll == s.roll && s'.options == s.options
    requires forall a <- s.stored :: a in s'.stored && s'.stored[a] == s.stored[a]
    ensures Recorded(s', v)
  {
  }

  lemma CastRecorded(s: Sys, agent: string, option: nat)
    requires s.active.Some? && Recorded(s, s.active.value) && agent in s.stored && s.stored[agent] == option
    requires Cast(s.active.value, agent, option).Ok?
    ensures Recorded(s, Cast(s.active.value, agent, option).value)
  {
    CastKeepsProper(s.active.value, agent, option);
  }

  /** Ballot rows are only added, one for an agent, and the vote's row stays. */
  lemma StoredStep(s: Sys, step: Step)
    requires Enabled(s, step) && PersistedStored(s)
    ensures Next(s, step).roll == s.roll && Next(s, step).options == s.options
    ensures forall a <- s.stored :: a in Next(s, step).stored && Next(s, step).stored[a] == s.stored[a]
    ensures PersistedStored(Next(s, step)) && (PersistedOnce(s) ==> PersistedOnce(Next(s, step)))
  {
  }

  lemma RecordedStep(s: Sys, step: Step)
    requires AllRecorded(s) && Enabled(s, step)
    ensures AllRecorded(Next(s, step))
  {
    var s' := Next(s, step);
    StoredStep(s, step);
    if step.Record? && s.active.Some? && Cast(s.active.value, s.tasks[step.t].agent, s.tasks[step.t].option).Ok? {
      CastRecorded(s, s.tasks[step.t].agent, s.tasks[step.t].option);
    }
    if s'.unopened.Some? {
      RecordedMore(s, s', s'.unopened.value);
    }
    forall t <- s'.tasks | Closer(s'.tasks[t])
      ensures Recorded(s', s'.tasks[t].vote)
    {
      RecordedMore(s, s', s'.tasks[t].vote);
    }
    forall i | 0 <= i < |s'.published|
      ensures Recorded(s', s'.published[i])
    {
      RecordedMore(s, s', s'.published[i]);
    }
  }

  lemma OpenStep(s: Sys, step: Step)
    requires AllRecorded(s) && OpenOrFull(s) && Enabled(s, step)
    ensures OpenOrFull(Next(s, step))
  {
    var s' := Next(s, step);
    if s'.active.Some? && AllVoted(s'.active.value) {
      if step.Record? && s'.active != s.active {
        assert s'.tasks[step.t].Full?;
      } else {
        var t :| t in s.tasks && s.tasks[t].Full?;
        assert s'.tasks[t].Full?;
      }
    }
  }

  /** Once everybody has voted no cast succeeds. */
  lemma FullRefuses(v: Vote, agent: string, option: nat)
    ensures Voters(v.ballots) == v.eligible ==> Cast(v, agent, option).Err?
  {
    assert agent in Voters(v.ballots) ==> HasVoted(v.ballots, agent);
  }

  lemma FullRecord(s: Sys, t: int)
    requires FullIsFull(s) && AllRecorded(s) && t in s.tasks && s.tasks[t].Persisted? && s.active.Some?
    requires Cast(s.active.value, s.tasks[t].agent, s.tasks[t].option).Ok?
    ensures FullIsFull(DoRecord(s, t))
  {
    var cast := Cast(s.active.value, s.tasks[t].agent, s.tasks[t].option).value;
    CastKeepsProper(s.active.value, s.tasks[t].agent, s.tasks[t].option);
    FullMeansAll(cast);
    FullRefuses(s.active.value, s.tasks[t].agent, s.tasks[t].option);
    assert forall u <- DoRecord(s, t).tasks :: u == t || u in s.tasks;
  }

  lemma FullStep(s: Sys, step: Step)
    requires OneOwner(s) && FullIsFull(s) && AllRecorded(s) && Enabled(s, step)
    ensures FullIsFull(Next(s, step))
  {
    if step.Record? && s.active.Some? && Cast(s.active.value, s.tasks[step.t].agent, s.tasks[step.t].option).Ok? {
      FullRecord(s, step.t);
    } else {
      assert forall t <- Next(s, step).tasks :: Next(s, step).tasks[t].Full? ==> t in s.tasks && s.tasks[t].Full?;
    }
  }

  ghost predicate Inv(s: Sys) {
    OneOwner(s) && AllRecorded(s) && OpenOrFull(s) && FullIsFull(s)
  }

  lemma {:induction false} InvAlways(s: Sys, steps: seq<Step>, end: Sys)
    requires Inv(s) && Runs(s, steps, end)
    ensures Inv(end)
    decreases |steps|
  {
    if steps != [] {
      OwnerStep(s, steps[0]);
      RecordedStep(s, steps[0]);
      OpenStep(s, steps[0]);
      FullStep(s, steps[0]);
      InvAlways(Next(s, steps[0]), steps[1..], end);
    }
  }

  lemma InitialInv(s: Sys)
    requires Initial(s)
    ensures Inv(s)
  {
  }

  /** However casts, the deadline and the destruction interleave, one result at most is published. */
  lemma PublishedAtMostOnce(s: Sys, steps: seq<Step>, end: Sys)
    requires Initial(s) && Runs(s, steps, end)
    ensures |end.published| <= 1
    ensures end.published != [] ==> end.active.None?
  {
    InitialInv(s);
    InvAlways(s, steps, end);
  }

  /** A published result holds one ballot each from eligible agents, and its counts add up to them. */
  lemma PublishedIsProper(s: Sys, steps: seq<Step>, end: Sys, i: nat)
    requires Initial(s) && Runs(s, steps, end) && i < |end.published|
    ensures var v := end.published[i];
            && Proper(v) && v.eligible == s.roll && v.options == s.options
            && OnRecord(v.ballots, end.stored)
            && |v.ballots| <= |v.eligible| && Sum(Counts(v.options, v.ballots)) == |v.ballots|
  {
    InitialInv(s);
    InvAlways(s, steps, end);
    RollStays(s, steps, end);
    assert Recorded(end, end.published[i]);
    FullMeansAll(end.published[i]);
    CountsSum(end.published[i].options, end.published[i].ballots);
  }

  lemma {:induction false} RollStays(s: Sys, steps: seq<Step>, end: Sys)
    requires Runs(s, steps, end)
    ensures end.roll == s.roll && end.options == s.options
    decreases |steps|
  {
    if steps != [] {
      RollStays(Next(s, steps[0]), steps[1..], end);
    }
  }

  /**
   * A cast that persisted its ballot and then found no open vote to record it in, because it came before
   * the vote opened or after it was taken, or was refused there.
   */
  predicate Loses(s: Sys, step: Step)
    requires Enabled(s, step)
  {
    step.Record? && (s.active.None? || Cast(s.active.value, s.tasks[step.t].agent, s.tasks[step.t].option).Err?)
  }

  /** The agents whose casts did so in a run. */
  function Lost(s: Sys, steps: seq<Step>): set<string>
    decreases |steps|
  {
    if steps == [] || !Enabled(s, steps[0]) then {}
    else LostNow(s, steps[0]) + Lost(Next(s, steps[0]), steps[1..])
  }

  function LostNow(s: Sys, step: Step): set<string>
    requires Enabled(s, step)
  {
    if Loses(s, step) then {s.tasks[step.t].agent} else {}
  }

  ghost predicate IsHome(s: Sys, v: Vote) {
    s.unopened == Some(v) || s.active == Some(v) || v in s.published
    || exists t :: t in s.tasks && Closer(s.tasks[t]) && s.tasks[t].vote == v
  }

  ghost predicate Pending(s: Sys, agent: string) {
    exists t :: t in s.tasks && s.tasks[t].Persisted? && s.tasks[t].agent == agent
  }

  /** Every stored ballot is in the vote, lost, or about to be recorded; only one of them. */
  ghost predicate Fits(s: Sys, lost: set<string>, v: Vote) {
    && Voters(v.ballots) !! lost
    && (forall a <- s.stored :: a in lost || a in Voters(v.ballots) || Pending(s, a))
    && (forall a :: Pending(s, a) ==> a !in lost && a !in Voters(v.ballots))
  }

  ghost predicate Accounted(s: Sys, lost: set<string>) {
    && (forall v :: IsHome(s, v) ==> Fits(s, lost, v) && forall a <- Voters(v.ballots) :: a in s.stored)
    && (forall a <- lost :: a in s.stored)
    && PersistedStored(s) && PersistedOnce(s)
  }

  lemma PendingStep(s: Sys, step: Step, agent: string)
    requires Enabled(s, step)
    ensures Pending(Next(s, step), agent) ==>
              Pending(s, agent) || (step.Persist? && s.tasks[step.t].agent == agent && agent !in s.stored)
    ensures Pending(s, agent) ==> Pending(Next(s, step), agent) || (step.Record? && s.tasks[step.t].agent == agent)
  {
    var s' := Next(s, step);
    if Pending(s, agent) {
      var t :| t in s.tasks && s.tasks[t].Persisted? && s.tasks[t].agent == agent;
      assert (step.Record? && step.t == t) || s'.tasks[t].Persisted?;
    }
  }

  lemma HomeStep(s: Sys, step: Step, v: Vote)
    requires Enabled(s, step) && IsHome(Next(s, step), v)
    ensures IsHome(s, v)
         || (step.Record? && !Loses(s, step)
             && v == Cast(s.active.value, s.tasks[step.t].agent, s.tasks[step.t].option).value)
  {
  }

  lemma PersistFits(s: Sys, t: int, lost: set<string>, v: Vote)
    requires Accounted(s, lost) && t in s.tasks && s.tasks[t].Checked? && IsHome(s, v)
    ensures Fits(DoPersist(s, t), lost, v)
  {
    var s' := DoPersist(s, t);
    forall a
      ensures Pending(s', a) ==> Pending(s, a) || (s.tasks[t].agent == a && a !in s.stored)
      ensures Pending(s, a) ==> Pending(s', a)
    {
      PendingStep(s, Persist(t), a);
    }
    if s' != s.(tasks := s.tasks - {t}) {
      assert s'.tasks[t].Persisted?;
      assert Pending(s', s.tasks[t].agent);
    }
  }

  /** Recording moves the ballot from the pending ones into the vote, or loses it. */
  lemma RecordFits(s: Sys, t: int, lost: set<string>, v: Vote)
    requires Accounted(s, lost) && t in s.tasks && s.tasks[t].Persisted? && IsHome(s, v)
    requires !Loses(s, Record(t)) ==> s.active == Some(v)
    ensures Loses(s, Record(t)) ==> Fits(DoRecord(s, t), lost + LostNow(s, Record(t)), v)
    ensures !Loses(s, Record(t)) ==> Fits(DoRecord(s, t), lost, Cast(v, s.tasks[t].agent, s.tasks[t].option).value)
  {
    var agent := s.tasks[t].agent;
    var s' := DoRecord(s, t);
    assert Pending(s, agent);
    assert !Pending(s', agent);
    forall a | a != agent
      ensures Pending(s', a) <==> Pending(s, a)
    {
      PendingStep(s, Record(t), a);
    }
    if !Loses(s, Record(t)) {
      assert Cast(v, agent, s.tasks[t].option).value.ballots == v.ballots + [Ballot(agent, s.tasks[t].option)];
      assert Voters(v.ballots + [Ballot(agent, s.tasks[t].option)]) == Voters(v.ballots) + {agent};
    }
  }

  lemma AccountedStep(s: Sys, step: Step, lost: set<string>)
    requires OneOwner(s) && Accounted(s, lost) && Enabled(s, step)
    ensures Accounted(Next(s, step), lost + LostNow(s, step))
  {
    var s' := Next(s, step);
    StoredStep(s, step);
    forall v | IsHome(s', v)
      ensures Fits(s', lost + LostNow(s, step), v) && forall a <- Voters(v.ballots) :: a in s'.stored
    {
      HomeStep(s, step, v);
      if step.Record? {
        RecordHome(s, step.t, lost, v);
      } else if step.Persist? {
        PersistFits(s, step.t, lost, v);
      } else {
        forall a
          ensures Pending(s', a) <==> Pending(s, a)
        {
          PendingStep(s, step, a);
        }
      }
    }
  }

  lemma RecordHome(s: Sys, t: int, lost: set<string>, v: Vote)
    requires OneOwner(s) && Accounted(s, lost) && t in s.tasks && s.tasks[t].Persisted? && IsHome(DoRecord(s, t), v)
    ensures Fits(DoRecord(s, t), lost + LostNow(s, Record(t)), v) && forall a <- Voters(v.ballots) :: a in s.stored
  {
    HomeStep(s, Record(t), v);
    if Loses(s, Record(t)) {
      RecordFits(s, t, lost, v);
    } else {
      assert IsHome(s, s.active.value);
      RecordFits(s, t, lost, s.active.value);
      assert DoRecord(s, t).active == Some(v);
      CastVoters(s.active.value, s.tasks[t].agent, s.tasks[t].option);
    }
  }

  lemma CastVoters(v: Vote, agent: string, option: nat)
    requires Cast(v, agent, option).Ok?
    ensures Voters(Cast(v, agent, option).value.ballots) == Voters(v.ballots) + {agent}
  {
    assert Voters(v.ballots + [Ballot(agent, option)]) == Voters(v.ballots) + {agent};
  }

  lemma {:induction false} AccountedAlways(s: Sys, steps: seq<Step>, end: Sys, lost: set<string>)
    requires Inv(s) && Accounted(s, lost) && Runs(s, steps, end)
    ensures Accounted(end, lost + Lost(s, steps))
    decreases |steps|
  {
    if steps == [] {
      assert lost + {} == lost;
    } else {
      AccountedStep(s, steps[0], lost);
      OwnerStep(s, steps[0]);
      RecordedStep(s, steps[0]);
      OpenStep(s, steps[0]);
      FullStep(s, steps[0]);
      AccountedAlways(Next(s, steps[0]), steps[1..], end, lost + LostNow(s, steps[0]));
      assert lost + LostNow(s, steps[0]) + Lost(Next(s, steps[0]), steps[1..]) == lost + Lost(s, steps);
    }
  }

  /**
   * Once all casts have returned, the published tally is the tally of the stored ballots exactly
   * when no cast that had persisted a ballot for an option there is came too early or too late to
   * record it.
   */
  lemma PublishedTallyMatchesStored(s: Sys, steps: seq<Step>, end: Sys, v: Vote)
    requires Initial(s) && Runs(s, steps, end) && end.tasks == map[] && end.published == [v]
    ensures (forall k :: 0 <= k < s.options ==> Count(v.ballots, k) == |StoredFor(end.stored, k)|)
       <==> (forall a <- Lost(s, steps) :: a in end.stored && end.stored[a] >= s.options)
  {
    InitialInv(s);
    PublishedIsProper(s, steps, end, 0);
    assert Accounted(s, {});
    AccountedAlways(s, steps, end, {});
    assert {} + Lost(s, steps) == Lost(s, steps);
    TallyMatchesStored(s.options, v.ballots, end.stored);
    assert IsHome(end, v);
    assert Fits(end, Lost(s, steps), v);
  }

  /** Such a ballot stays on record and is never counted, whatever its agent tries later. */
  lemma LostIsNeverCounted(s: Sys, steps: seq<Step>, end: Sys, v: Vote, agent: string)
    requires Initial(s) && Runs(s, steps, end) && IsHome(end, v) && agent in Lost(s, steps)
    ensures agent in end.stored && agent !in Voters(v.ballots)
  {
    InitialInv(s);
    assert Accounted(s, {});
    AccountedAlways(s, steps, end, {});
    assert {} + Lost(s, steps) == Lost(s, steps);
    assert Fits(end, Lost(s, steps), v);
  }

  /** While the vote is open, an eligible agent is still to vote, unless a closing cast is under way. */
  lemma OpenMissesAVoter(s: Sys, steps: seq<Step>, end: Sys)
    requires Initial(s) && Runs(s, steps, end) && end.active.Some?
    ensures var v := end.active.value;
            (exists t :: t in end.tasks && end.tasks[t].Full?) <==> v.ballots != [] && Voters(v.ballots) == v.eligible
    ensures var v := end.active.value;
            (forall t <- end.tasks :: !end.tasks[t].Full?) ==> v.ballots == [] || |v.ballots| < |v.eligible|
  {
    InitialInv(s);
    InvAlways(s, steps, end);
    FullMeansAll(end.active.value);
  }

  lemma RunsOne(s: Sys, step: Step, mid: Sys, steps: seq<Step>, end: Sys)
    requires Enabled(s, step) && Next(s, step) == mid && Runs(mid, steps, end)
    ensures Runs(s, [step] + steps, end)
  {
    assert ([step] + steps)[1..] == steps;
  }

  /** The deadline takes the vote, closes and publishes it. */
  lemma CloseAlone(s: Sys) returns (steps: seq<Step>, end: Sys)
    requires s.active.Some? && s.tasks == map[] && s.published == []
    ensures Runs(s, steps, end) && end.published == [s.active.value] && end.stored == s.stored && end.tasks.Keys == {}
  {
    var s1 := Next(s, Deadline(2));
    var s2 := Next(s1, CloseRow(2));
    end := Next(s2, Publish(2));
    RunsOne(s2, Publish(2), end, [], end);
    RunsOne(s1, CloseRow(2), s2, [Publish(2)] + [], end);
    RunsOne(s, Deadline(2), s1, [CloseRow(2)] + ([Publish(2)] + []), end);
    steps := [Deadline(2)] + ([CloseRow(2)] + ([Publish(2)] + []));
  }

  /** A ballot can be persisted too early: before the vote opens in memory. */
  lemma EarlyBallotIsStoredOnly(s: Sys, agent: string, option: nat)
    requires Initial(s) && agent in s.roll
    ensures exists steps: seq<Step>, end: Sys ::
      && Runs(s, steps, end) && end.tasks.Keys == {} && |end.published| == 1
      && end.stored == map[agent := option] && end.published[0].ballots == []
  {
    var s1 := Next(s, Begin(1, agent, option, true));
    var s2 := Next(s1, Persist(1));
    var s3 := Next(s2, Record(1));
    assert s3.tasks == map[];
    var s4 := Next(s3, Open);
    var steps, end := CloseAlone(s4);
    RunsOne(s3, Open, s4, steps, end);
    RunsOne(s2, Record(1), s3, [Open] + steps, end);
    RunsOne(s1, Persist(1), s2, [Record(1)] + ([Open] + steps), end);
    RunsOne(s, Begin(1, agent, option, true), s1, [Persist(1)] + ([Record(1)] + ([Open] + steps)), end);
  }

  /** The deadline has the vote: it closes and publishes it, while a persisted ballot finds no vote. */
  lemma CloseBehind(s: Sys, agent: string, option: nat, v: Vote) returns (steps: seq<Step>, end: Sys)
    requires s.unopened.None? && s.active.None? && s.tasks == map[1 := Persisted(agent, option), 2 := Closing(v)]
             && s.published == []
    ensures Runs(s, steps, end) && end.published == [v] && end.stored == s.stored && end.tasks.Keys == {}
  {
    var s1 := Next(s, Record(1));
    var s2 := Next(s1, CloseRow(2));
    end := Next(s2, Publish(2));
    RunsOne(s2, Publish(2), end, [], end);
    RunsOne(s1, CloseRow(2), s2, [Publish(2)] + [], end);
    steps := [CloseRow(2)] + ([Publish(2)] + []);
    RunsOne(s, Record(1), s1, steps, end);
    steps := [Record(1)] + steps;
  }

  /** And too late: between the persisting and the recording the deadline takes the vote. */
  lemma LateBallotIsStoredOnly(s: Sys, agent: string, option: nat)
    requires Initial(s) && agent in s.roll && option < s.options
    ensures exists steps: seq<Step>, end: Sys ::
      && Runs(s, steps, end) && end.tasks.Keys == {} && |end.published| == 1
      && end.stored == map[agent := option] && end.published[0].ballots == []
  {
    var s0 := Next(s, Open);
    var s1 := Next(s0, Begin(1, agent, option, true));
    var s2 := Next(s1, Persist(1));
    var s3 := Next(s2, Deadline(2));
    assert s3.tasks == map[1 := Persisted(agent, option), 2 := Closing(s0.active.value)];
    var steps, end := CloseBehind(s3, agent, option, s0.active.value);
    RunsOne(s2, Deadline(2), s3, steps, end);
    RunsOne(s1, Persist(1), s2, [Deadline(2)] + steps, end);
    RunsOne(s0, Begin(1, agent, option, true), s1, [Persist(1)] + ([Deadline(2)] + steps), end);
    RunsOne(s, Open, s0, [Begin(1, agent, option, true)] + ([Persist(1)] + ([Deadline(2)] + steps)), end);
  }
}
