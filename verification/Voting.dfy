/** Sealed votes: the ballots held in memory, and the tally. */
module Voting {
  import opened Prelude

  datatype Ballot = Ballot(agent: string, option: nat)

  /** `options` is how many there are; the eligible agents are fixed when the vote opens. */
  datatype Vote = Vote(room: string, options: nat, eligible: set<string>, ballots: seq<Ballot>)

  datatype VoteError = VoteNotFound | InvalidOption | AccessDenied | AlreadyVoted

  predicate HasVoted(ballots: seq<Ballot>, agent: string) {
    exists b <- ballots :: b.agent == agent
  }

  /** The vote after a ballot, or why it was refused. */
  function Cast(v: Vote, agent: string, option: nat): Result<Vote, VoteError> {
    if option >= v.options then Err(InvalidOption)
    else if agent !in v.eligible then Err(AccessDenied)
    else if HasVoted(v.ballots, agent) then Err(AlreadyVoted)
    else Ok(v.(ballots := v.ballots + [Ballot(agent, option)]))
  }

  /** Ballots are from distinct eligible agents, for options there are. */
  predicate Proper(v: Vote) {
    && (forall b <- v.ballots :: b.agent in v.eligible && b.option < v.options)
    && Distinct(v.ballots)
  }

  predicate Distinct(ballots: seq<Ballot>) {
    forall i, j :: 0 <= i < j < |ballots| ==> ballots[i].agent != ballots[j].agent
  }

  function Voters(ballots: seq<Ballot>): set<string> {
    set b <- ballots :: b.agent
  }

  lemma CastKeepsProper(v: Vote, agent: string, option: nat)
    requires Proper(v) && Cast(v, agent, option).Ok?
    ensures Proper(Cast(v, agent, option).value)
    ensures Voters(Cast(v, agent, option).value.ballots) == Voters(v.ballots) + {agent}
  {
    var after := Cast(v, agent, option).value.ballots;
    assert after[|v.ballots|] == Ballot(agent, option);
    assert forall b <- v.ballots :: b in after;
    forall i | 0 <= i < |v.ballots|
      ensures after[i].agent != agent
    {
      assert v.ballots[i] in v.ballots;
    }
  }

  lemma LastIsNew(init: seq<Ballot>, last: Ballot)
    requires Distinct(init + [last])
    ensures Distinct(init) && last.agent !in Voters(init)
  {
    var ballots := init + [last];
    assert forall i :: 0 <= i < |init| ==> ballots[i] == init[i];
    forall b <- init
      ensures b.agent != last.agent
    {
      var i :| 0 <= i < |init| && init[i] == b;
      assert ballots[i].agent != ballots[|init|].agent;
    }
  }

  lemma {:induction false} VotersCount(ballots: seq<Ballot>)
    requires Distinct(ballots)
    ensures |Voters(ballots)| == |ballots|
  {
    if ballots != [] {
      var init, last := ballots[..|ballots| - 1], ballots[|ballots| - 1];
      assert ballots == init + [last];
      LastIsNew(init, last);
      VotersCount(init);
      assert Voters(init + [last]) == Voters(init) + {last.agent};
    }
  }

  /** As many ballots as eligible agents means exactly that every eligible agent has voted. */
  lemma FullMeansAll(v: Vote)
    requires Proper(v)
    ensures |v.ballots| <= |v.eligible|
    ensures |v.ballots| >= |v.eligible| <==> Voters(v.ballots) == v.eligible
  {
    VotersCount(v.ballots);
    var voters := Voters(v.ballots);
    assert voters <= v.eligible;
    assert v.eligible == voters + (v.eligible - voters);
  }

  /** How many ballots chose an option. */
  function Count(ballots: seq<Ballot>, option: nat): nat {
    if ballots == [] then 0
    else Count(ballots[..|ballots| - 1], option) + (if ballots[|ballots| - 1].option == option then 1 else 0)
  }

  function Sum(counts: seq<nat>): nat {
    if counts == [] then 0 else Sum(counts[..|counts| - 1]) + counts[|counts| - 1]
  }

  /** The counting loop shared by closing and by the history of closed votes. */
  method Tally(options: nat, ballots: seq<Ballot>) returns (counts: seq<nat>)
    ensures |counts| == options
    ensures forall i :: 0 <= i < options ==> counts[i] == Count(ballots, i)
  {
    var tally := new nat[options](_ => 0);
    var k := 0;
    while k < |ballots|
      invariant 0 <= k <= |ballots|
      invariant forall i :: 0 <= i < options ==> tally[i] == Count(ballots[..k], i)
    {
      var option := ballots[k].option;
      assert ballots[..k + 1][..k] == ballots[..k];
      if option < options {
        tally[option] := tally[option] + 1;
      }
      k := k + 1;
    }
    assert ballots[..k] == ballots;
    counts := tally[..];
  }

  function Counts(options: nat, ballots: seq<Ballot>): seq<nat> {
    seq(options, i requires 0 <= i < options => Count(ballots, i))
  }

  /** The counts add up to the ballots: each counts once. */
  lemma {:induction false} CountsSum(options: nat, ballots: seq<Ballot>)
    requires forall b <- ballots :: b.option < options
    ensures Sum(Counts(options, ballots)) == |ballots|
    decreases |ballots|
  {
    if ballots == [] {
      SumZero(options);
    } else {
      var init, last := ballots[..|ballots| - 1], ballots[|ballots| - 1];
      CountsSum(options, init);
      SumBump(Counts(options, init), Counts(options, ballots), last.option);
    }
  }

  lemma {:induction false} SumZero(options: nat)
    ensures Sum(Counts(options, [])) == 0
  {
    if options > 0 {
      SumZero(options - 1);
      assert Counts(options, [])[..options - 1] == Counts(options - 1, []);
    }
  }

  lemma {:induction false} SumBump(a: seq<nat>, b: seq<nat>, at: nat)
    requires |a| == |b| && at < |a| && b[at] == a[at] + 1
    requires forall i :: 0 <= i < |a| && i != at ==> a[i] == b[i]
    ensures Sum(b) == Sum(a) + 1
    decreases |a|
  {
    var n := |a| - 1;
    if at == n {
      assert a[..n] == b[..n];
    } else {
      SumBump(a[..n], b[..n], at);
    }
  }

  /** Stored ballots: one row per agent. */
  function StoredFor(stored: map<string, nat>, option: nat): set<string> {
    set a | a in stored && stored[a] == option
  }

  function VotersFor(ballots: seq<Ballot>, option: nat): set<string> {
    set b | b in ballots && b.option == option :: b.agent
  }

  lemma {:induction false} CountIsVoters(ballots: seq<Ballot>, option: nat)
    requires Distinct(ballots)
    ensures Count(ballots, option) == |VotersFor(ballots, option)|
  {
    if ballots != [] {
      var init, last := ballots[..|ballots| - 1], ballots[|ballots| - 1];
      assert ballots == init + [last];
      LastIsNew(init, last);
      CountIsVoters(init, option);
      assert VotersFor(init, option) <= Voters(init);
      if last.option == option {
        assert VotersFor(init + [last], option) == VotersFor(init, option) + {last.agent};
      } else {
        assert VotersFor(init + [last], option) == VotersFor(init, option);
      }
    }
  }

  /** Every ballot counted in memory is also on record. */
  predicate OnRecord(ballots: seq<Ballot>, stored: map<string, nat>) {
    forall b <- ballots :: b.agent in stored && stored[b.agent] == b.option
  }

  lemma CountAgainstStored(ballots: seq<Ballot>, stored: map<string, nat>, option: nat)
    requires Distinct(ballots) && OnRecord(ballots, stored)
    ensures Count(ballots, option) <= |StoredFor(stored, option)|
    ensures Count(ballots, option) == |StoredFor(stored, option)| <==> StoredFor(stored, option) <= Voters(ballots)
  {
    CountIsVoters(ballots, option);
    var mine, all := VotersFor(ballots, option), StoredFor(stored, option);
    assert mine <= all;
    assert all == mine + (all - mine);
    if all <= Voters(ballots) {
      forall a <- all
        ensures a in mine
      {
        var b :| b in ballots && b.agent == a;
      }
    }
  }

  /**
   * The published tally is the tally of the stored ballots exactly when every stored ballot for an
   * option there is was also counted in memory.
   */
  lemma TallyMatchesStored(options: nat, ballots: seq<Ballot>, stored: map<string, nat>)
    requires Distinct(ballots) && OnRecord(ballots, stored)
    ensures (forall i :: 0 <= i < options ==> Count(ballots, i) == |StoredFor(stored, i)|)
       <==> (forall a <- stored :: stored[a] < options ==> a in Voters(ballots))
  {
    forall i | 0 <= i < options
      ensures Count(ballots, i) == |StoredFor(stored, i)| <==> StoredFor(stored, i) <= Voters(ballots)
    {
      CountAgainstStored(ballots, stored, i);
    }
    assert forall a <- stored :: a in StoredFor(stored, stored[a]);
  }

  /** The manager's table of open votes. */
  class VoteManager {
    var active: map<string, Vote>

    constructor ()
      ensures active == map[]
    {
      active := map[];
    }

    /** `create_vote`, with the eligible agents already without repeats. */
    method CreateVote(id: string, room: string, options: nat, eligible: set<string>)
      modifies this
      ensures active == old(active)[id := Vote(room, options, eligible, [])]
    {
      active := active[id := Vote(room, options, eligible, [])];
    }

    /** The locked part of `cast_vote`: the ballot, and whether it was the last one. */
    method CastBallot(id: string, agent: string, option: nat)
      returns (result: Result<(nat, nat), VoteError>, close: bool)
      modifies this
      ensures id !in old(active) ==> result == Err(VoteNotFound) && active == old(active) && !close
      ensures id in old(active) && Cast(old(active)[id], agent, option).Err? ==>
                result == Err(Cast(old(active)[id], agent, option).error) && active == old(active) && !close
      ensures id in old(active) && Cast(old(active)[id], agent, option).Ok? ==>
                active == old(active)[id := Cast(old(active)[id], agent, option).value]
      ensures id in old(active) && Cast(old(active)[id], agent, option).Ok? ==>
                && result == Ok((|active[id].ballots|, |active[id].eligible|))
                && close == (|active[id].ballots| >= |active[id].eligible|)
    {
      close := false;
      if id !in active {
        return Err(VoteNotFound), false;
      }
      var vote := active[id];
      if option >= vote.options {
        return Err(InvalidOption), false;
      }
      if agent !in vote.eligible {
        return Err(AccessDenied), false;
      }
      var i := 0;
      while i < |vote.ballots|
        invariant 0 <= i <= |vote.ballots|
        invariant forall j :: 0 <= j < i ==> vote.ballots[j].agent != agent
      {
        if vote.ballots[i].agent == agent {
          return Err(AlreadyVoted), false;
        }
        i := i + 1;
      }
      active := active[id := vote.(ballots := vote.ballots + [Ballot(agent, option)])];
      var votes := |active[id].ballots|;
      result := Ok((votes, |vote.eligible|));
      close := votes >= |vote.eligible|;
    }

    /** Whoever removes the vote closes it. */
    method Take(id: string) returns (vote: Option<Vote>)
      modifies this
      ensures vote == if id in old(active) then Some(old(active)[id]) else None
      ensures active == old(active) - {id}
    {
      if id !in active {
        return None;
      }
      vote := Some(active[id]);
      active := active - {id};
    }

    /** `forget_room`. */
    method ForgetRoom(room: string)
      modifies this
      ensures active == map id | id in old(active) && old(active)[id].room != room :: old(active)[id]
    {
      active := map id | id in active && active[id].room != room :: active[id];
    }
  }
}
