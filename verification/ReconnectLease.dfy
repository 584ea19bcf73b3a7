/** Reclaim leases are exclusive, and an aborted one leaves no trace; what is committed is all that was buffered. */
module ReconnectLease {
  import opened Prelude
  import opened Frames
  import opened Reconnect

  /** The manager as if no lease had been taken. */
  function Unleased(m: Manager): Manager {
    m.(stash := map a | a in m.stash :: m.stash[a].(token := None), issued := 0)
  }

  /** An operation with its leasing taken away: what is left of it for the stashes. */
  datatype Plain = Same(op: Op) | Gone(agent: string) | Nothing

  function Stripped(m: Manager, op: Op): Plain {
    match op
    case Begin(agent, _, _, now) =>
      if agent in m.stash && now - m.stash[agent].since >= WINDOW then Gone(agent) else Nothing
    case Commit(lease) => if Owns(m, lease) then Gone(lease.agent) else Nothing
    case Drop(_) => Nothing
    case _ => Same(op)
  }

  function ApplyPlain(m: Manager, p: Plain): Manager {
    match p
    case Same(op) => Apply(m, op)
    case Gone(agent) => m.(stash := m.stash - {agent})
    case Nothing => m
  }

  /** The run without leases that a run stands for. */
  function StrippedRun(m: Manager, ops: seq<Op>): seq<Plain> {
    if ops == [] then []
    else
      var init := ops[..|ops| - 1];
      StrippedRun(m, init) + [Stripped(Run(m, init), ops[|ops| - 1])]
  }

  function RunPlain(m: Manager, ps: seq<Plain>): Manager {
    if ps == [] then m else ApplyPlain(RunPlain(m, ps[..|ps| - 1]), ps[|ps| - 1])
  }

  lemma LeaseOpsVanish(m: Manager, op: Op)
    requires op.Begin? || op.Commit? || op.Drop?
    ensures Unleased(Apply(m, op)) == ApplyPlain(Unleased(m), Stripped(m, op))
  {
    assert Unleased(Apply(m, op)).stash == ApplyPlain(Unleased(m), Stripped(m, op)).stash;
  }

  lemma OtherOpsCommute(m: Manager, op: Op)
    requires !(op.Begin? || op.Commit? || op.Drop?)
    ensures Unleased(Apply(m, op)) == Apply(Unleased(m), op)
  {
    assert Unleased(Apply(m, op)).stash == Apply(Unleased(m), op).stash;
  }

  /** A run with leases is, for every stash, the run in which nobody ever took one. */
  lemma {:induction false} LeasesAreTransparent(m: Manager, ops: seq<Op>)
    ensures Unleased(Run(m, ops)) == RunPlain(Unleased(m), StrippedRun(m, ops))
    decreases |ops|
  {
    if ops != [] {
      var init, op := ops[..|ops| - 1], ops[|ops| - 1];
      LeasesAreTransparent(m, init);
      var before := StrippedRun(m, init);
      assert (before + [Stripped(Run(m, init), op)])[..|before|] == before;
      if op.Begin? || op.Commit? || op.Drop? {
        LeaseOpsVanish(Run(m, init), op);
      } else {
        OtherOpsCommute(Run(m, init), op);
      }
    }
  }

  /** A commit hands over the stash exactly as the run without leases has it. */
  lemma CommitReturnsTheStash(m: Manager, ops: seq<Op>, lease: Lease)
    requires CommitResult(Run(m, ops), lease).Some?
    ensures var plain := RunPlain(Unleased(m), StrippedRun(m, ops));
            lease.agent in plain.stash && CommitResult(Run(m, ops), lease).value == plain.stash[lease.agent]
  {
    LeasesAreTransparent(m, ops);
  }

  /** Tokens are new when issued. */
  predicate Fresh(m: Manager) {
    forall a <- m.stash :: m.stash[a].token.Some? ==> m.stash[a].token.value < m.issued
  }

  lemma FreshStep(m: Manager, op: Op)
    requires Fresh(m)
    ensures Fresh(Apply(m, op)) && m.issued <= Apply(m, op).issued
  {
  }

  lemma {:induction false} FreshRun(m: Manager, ops: seq<Op>)
    requires Fresh(m)
    ensures Fresh(Run(m, ops)) && m.issued <= Run(m, ops).issued
    decreases |ops|
  {
    if ops != [] {
      FreshRun(m, ops[..|ops| - 1]);
      FreshStep(Run(m, ops[..|ops| - 1]), ops[|ops| - 1]);
    }
  }

  lemma SpentStep(m: Manager, op: Op, lease: Lease)
    requires !Owns(m, lease) && lease.token < m.issued
    ensures !Owns(Apply(m, op), lease)
  {
  }

  /** Once a token does not own its stash it never will again: each lease commits at most once. */
  lemma {:induction false} SpentForever(m: Manager, ops: seq<Op>, lease: Lease)
    requires Fresh(m) && lease.token < m.issued && !Owns(m, lease)
    ensures CommitResult(Run(m, ops), lease).None?
    decreases |ops|
  {
    if ops != [] {
      var init := ops[..|ops| - 1];
      SpentForever(m, init, lease);
      FreshRun(m, init);
      SpentStep(Run(m, init), ops[|ops| - 1], lease);
    }
  }

  lemma CommitSpends(m: Manager, ops: seq<Op>, lease: Lease)
    requires Fresh(m) && Owns(m, lease)
    ensures CommitResult(Run(DoCommit(m, lease), ops), lease).None?
    ensures CommitResult(Run(DoDrop(m, lease), ops), lease).None?
  {
    SpentForever(DoCommit(m, lease), ops, lease);
    assert Fresh(DoDrop(m, lease));
    SpentForever(DoDrop(m, lease), ops, lease);
  }

  predicate Keeps(op: Op, agent: string) {
    op.Keep? && op.agent == agent
  }

  lemma {:induction false} AbsentStays(m: Manager, ops: seq<Op>, agent: string)
    requires agent !in m.stash && forall i :: 0 <= i < |ops| ==> !Keeps(ops[i], agent)
    ensures agent !in Run(m, ops).stash
    decreases |ops|
  {
    if ops != [] {
      AbsentStays(m, ops[..|ops| - 1], agent);
    }
  }

  /** A stash is handed over at most once: another commit needs another stash. */
  lemma OneCommitPerStash(m: Manager, first: Lease, ops: seq<Op>, second: Lease)
    requires CommitResult(m, first).Some? && second.agent == first.agent
    requires CommitResult(Run(DoCommit(m, first), ops), second).Some?
    ensures exists i :: 0 <= i < |ops| && Keeps(ops[i], first.agent)
  {
    if forall i :: 0 <= i < |ops| ==> !Keeps(ops[i], first.agent) {
      AbsentStays(DoCommit(m, first), ops, first.agent);
    }
  }

  lemma OwnedRefuses(m: Manager, lease: Lease, key: string, noAuth: bool, now: int)
    requires Owns(m, lease)
    ensures var result := BeginResult(m, lease.agent, key, noAuth, now); result.Ok? ==> result.value.None?
  {
  }

  /**
   * Leases of one agent never overlap: when a second one is given out, the first has lost its stash
   * and never commits again, and until then it was the only one that could.
   */
  lemma LaterLeaseVoidsEarlier(m: Manager, first: Lease, ops: seq<Op>, key: string, noAuth: bool, now: int,
                               more: seq<Op>)
    requires Fresh(m) && first.token < m.issued
    requires var result := BeginResult(Run(m, ops), first.agent, key, noAuth, now); result.Ok? && result.value.Some?
    ensures var next := DoBegin(Run(m, ops), first.agent, key, noAuth, now);
            && !Owns(Run(m, ops), first)
            && Owns(next, BeginResult(Run(m, ops), first.agent, key, noAuth, now).value.value)
            && CommitResult(Run(next, more), first).None?
  {
    var before := Run(m, ops);
    FreshRun(m, ops);
    if Owns(before, first) {
      OwnedRefuses(before, first, key, noAuth, now);
    }
    SpentStep(before, Begin(first.agent, key, noAuth, now), first);
    FreshStep(before, Begin(first.agent, key, noAuth, now));
    SpentForever(DoBegin(before, first.agent, key, noAuth, now), more, first);
  }

  /** What an operation offers to an agent's buffer. */
  function Offer(op: Op, agent: string, key: string): seq<Frame> {
    if op.Message? && op.agent == agent then [op.frame]
    else if op.Visible? && key in op.audience then [op.frame]
    else []
  }

  function Offers(ops: seq<Op>, agent: string, key: string): seq<Frame> {
    if ops == [] then [] else Offers(ops[..|ops| - 1], agent, key) + Offer(ops[|ops| - 1], agent, key)
  }

  function Live(dead: set<string>): Frame -> bool {
    (f: Frame) => !IsDead(dead, f)
  }

  /** Never removed, stashed anew, or forgotten by the tombstone table. */
  predicate Undisturbed(op: Op, agent: string) {
    !Keeps(op, agent) && !op.Expire?
  }

  lemma {:induction false} FilterTwice(s: seq<Frame>, dead: set<string>, room: string)
    ensures Filter(Filter(s, Live(dead)), (f: Frame) => f.room != Some(room)) == Filter(s, Live(dead + {room}))
  {
    if s != [] {
      var p := (f: Frame) => f.room != Some(room);
      var head := if Live(dead)(s[0]) then [s[0]] else [];
      FilterTwice(s[1..], dead, room);
      FilterAppend(head, Filter(s[1..], Live(dead)), p);
      if head != [] {
        assert head[1..] == [];
        assert Filter(head, p) == if p(s[0]) then [s[0]] else [];
      }
    }
  }

  /** The agent's stash with exactly the offered events whose rooms live. */
  predicate Complete(m: Manager, agent: string, key: string, offers: seq<Frame>) {
    agent in m.stash && m.stash[agent].key == key && m.stash[agent].frames == Filter(offers, Live(m.dead))
  }

  lemma OfferOne(m: Manager, agent: string, key: string, offers: seq<Frame>, f: Frame)
    requires Complete(m, agent, key, offers) && |offers| < MAX_BUFFERED
    ensures |m.stash[agent].frames| < MAX_BUFFERED
    ensures Filter(offers + [f], Live(m.dead)) == m.stash[agent].frames + (if IsDead(m.dead, f) then [] else [f])
  {
    FilterAppend(offers, [f], Live(m.dead));
    assert [f][1..] == [];
    FilterShorter(offers, Live(m.dead));
  }

  lemma CompleteStep(m: Manager, op: Op, agent: string, key: string, offers: seq<Frame>)
    requires Complete(m, agent, key, offers) && Undisturbed(op, agent) && agent in Apply(m, op).stash
    requires |offers + Offer(op, agent, key)| <= MAX_BUFFERED
    ensures Complete(Apply(m, op), agent, key, offers + Offer(op, agent, key))
  {
    assert offers + [] == offers;
    if op.Message? || op.Visible? {
      if Offer(op, agent, key) != [] {
        OfferOne(m, agent, key, offers, op.frame);
      }
    } else if op.ForgetRoom? {
      FilterTwice(offers, m.dead, op.room);
    }
  }

  /**
   * From the moment of the stash, with or without a lease on it, the buffer is every event offered
   * to the agent, in order, except those of destroyed rooms, as long as 200 suffice.
   */
  lemma {:induction false} BufferIsLossless(m: Manager, agent: string, key: string, rooms: set<string>, now: int,
                                            ops: seq<Op>)
    requires forall i :: 0 <= i < |ops| ==> Undisturbed(ops[i], agent)
    requires forall n :: 0 <= n <= |ops| ==> agent in Run(DoKeep(m, agent, key, rooms, now), ops[..n]).stash
    requires |Offers(ops, agent, key)| <= MAX_BUFFERED
    ensures Complete(Run(DoKeep(m, agent, key, rooms, now), ops), agent, key, Offers(ops, agent, key))
    decreases |ops|
  {
    if ops != [] {
      var init := ops[..|ops| - 1];
      assert forall n :: 0 <= n <= |init| ==> init[..n] == ops[..n];
      BufferIsLossless(m, agent, key, rooms, now, init);
      assert ops[..|ops|] == ops;
      CompleteStep(Run(DoKeep(m, agent, key, rooms, now), init), ops[|ops| - 1], agent, key, Offers(init, agent, key));
    }
  }

  /** So a commit hands over exactly those, including what arrived while the lease was held. */
  lemma CommitIsLossless(m: Manager, agent: string, key: string, rooms: set<string>, now: int, ops: seq<Op>,
                         lease: Lease)
    requires forall i :: 0 <= i < |ops| ==> Undisturbed(ops[i], agent)
    requires forall n :: 0 <= n <= |ops| ==> agent in Run(DoKeep(m, agent, key, rooms, now), ops[..n]).stash
    requires |Offers(ops, agent, key)| <= MAX_BUFFERED && lease.agent == agent
    requires CommitResult(Run(DoKeep(m, agent, key, rooms, now), ops), lease).Some?
    ensures var end := Run(DoKeep(m, agent, key, rooms, now), ops);
            CommitResult(end, lease).value.frames == Filter(Offers(ops, agent, key), Live(end.dead))
  {
    BufferIsLossless(m, agent, key, rooms, now, ops);
  }

  /** The events offered while their room lived and not destroyed since, the last step being `op`. */
  function Survivors(before: seq<Frame>, m: Manager, op: Op, offered: seq<Frame>): seq<Frame> {
    if op.ForgetRoom? then Filter(before, (f: Frame) => f.room != Some(op.room))
    else before + Filter(offered, Live(m.dead))
  }

  function LiveOffers(m: Manager, ops: seq<Op>, agent: string, key: string): seq<Frame> {
    if ops == [] then []
    else
      var init, op := ops[..|ops| - 1], ops[|ops| - 1];
      Survivors(LiveOffers(m, init, agent, key), Run(m, init), op, Offer(op, agent, key))
  }

  predicate FullFor(m: Manager, agent: string) {
    agent in m.stash && |m.stash[agent].frames| >= MAX_BUFFERED
  }

  /** Those of them that found 200 events held. */
  function Dropped(m: Manager, ops: seq<Op>, agent: string, key: string): seq<Frame> {
    if ops == [] then []
    else
      var init, op := ops[..|ops| - 1], ops[|ops| - 1];
      var before := Run(m, init);
      Survivors(Dropped(m, init, agent, key), before, op,
                if FullFor(before, agent) then Offer(op, agent, key) else [])
  }

  /** `all` is `a` and `b` merged: each is a subsequence, and together they are all of it. */
  predicate Merged(all: seq<Frame>, a: seq<Frame>, b: seq<Frame>) {
    if all == [] then a == [] && b == []
    else
      var n := |all| - 1;
      || (a != [] && a[|a| - 1] == all[n] && Merged(all[..n], a[..|a| - 1], b))
      || (b != [] && b[|b| - 1] == all[n] && Merged(all[..n], a, b[..|b| - 1]))
  }

  lemma FilterLast(s: seq<Frame>, p: Frame -> bool)
    requires s != []
    ensures var init, last := s[..|s| - 1], s[|s| - 1];
            Filter(s, p) == if p(last) then Filter(init, p) + [last] else Filter(init, p)
  {
    var last := [s[|s| - 1]];
    assert s == s[..|s| - 1] + last;
    FilterAppend(s[..|s| - 1], last, p);
    assert last[1..] == [];
  }

  lemma MergedLeft(all: seq<Frame>, a: seq<Frame>, b: seq<Frame>, f: Frame)
    requires Merged(all, a, b)
    ensures Merged(all + [f], a + [f], b)
  {
    assert (all + [f])[..|all|] == all && (a + [f])[..|a|] == a;
  }

  lemma MergedRight(all: seq<Frame>, a: seq<Frame>, b: seq<Frame>, f: Frame)
    requires Merged(all, a, b)
    ensures Merged(all + [f], a, b + [f])
  {
    assert (all + [f])[..|all|] == all && (b + [f])[..|b|] == b;
  }

  lemma {:induction false} MergedFilter(all: seq<Frame>, a: seq<Frame>, b: seq<Frame>, p: Frame -> bool)
    requires Merged(all, a, b)
    ensures Merged(Filter(all, p), Filter(a, p), Filter(b, p))
    decreases |all|
  {
    if all != [] {
      var init, f := all[..|all| - 1], all[|all| - 1];
      FilterLast(all, p);
      if a != [] && a[|a| - 1] == f && Merged(init, a[..|a| - 1], b) {
        var rest := a[..|a| - 1];
        FilterLast(a, p);
        MergedFilter(init, rest, b, p);
        MergedLeft(Filter(init, p), Filter(rest, p), Filter(b, p), f);
      } else {
        var rest := b[..|b| - 1];
        FilterLast(b, p);
        MergedFilter(init, a, rest, p);
        MergedRight(Filter(init, p), Filter(a, p), Filter(rest, p), f);
      }
    }
  }

  lemma {:induction false} MergedLength(all: seq<Frame>, a: seq<Frame>, b: seq<Frame>)
    requires Merged(all, a, b)
    ensures |all| == |a| + |b|
    decreases |all|
  {
    if all != [] {
      var init, f := all[..|all| - 1], all[|all| - 1];
      if a != [] && a[|a| - 1] == f && Merged(init, a[..|a| - 1], b) {
        MergedLength(init, a[..|a| - 1], b);
      } else {
        MergedLength(init, a, b[..|b| - 1]);
      }
    }
  }

  lemma {:induction false} MergedAlone(all: seq<Frame>, a: seq<Frame>)
    requires Merged(all, a, [])
    ensures a == all
    decreases |all|
  {
    if all != [] {
      MergedAlone(all[..|all| - 1], a[..|a| - 1]);
      assert all == all[..|all| - 1] + [all[|all| - 1]] && a == a[..|a| - 1] + [a[|a| - 1]];
    }
  }

  predicate Holds(m: Manager, agent: string, key: string, all: seq<Frame>, dropped: seq<Frame>) {
    agent in m.stash && m.stash[agent].key == key && Merged(all, m.stash[agent].frames, dropped)
  }

  /** What an operation does to a stash's events. */
  lemma FramesAfter(m: Manager, op: Op, agent: string)
    requires agent in m.stash && !Keeps(op, agent) && agent in Apply(m, op).stash
    ensures var e, e' := m.stash[agent], Apply(m, op).stash[agent];
            && e'.key == e.key
            && e'.frames == if op.ForgetRoom? then Filter(e.frames, (f: Frame) => f.room != Some(op.room))
                            else if Offer(op, agent, e.key) != [] && Live(m.dead)(op.frame) && !FullFor(m, agent)
                            then e.frames + [op.frame] else e.frames
  {
  }

  lemma HoldsOffer(m: Manager, op: Op, agent: string, key: string, all: seq<Frame>, dropped: seq<Frame>)
    requires Holds(m, agent, key, all, dropped) && !Keeps(op, agent) && agent in Apply(m, op).stash
    requires (op.Message? || op.Visible?) && Offer(op, agent, key) == [op.frame]
    ensures Holds(Apply(m, op), agent, key, Survivors(all, m, op, [op.frame]),
                  Survivors(dropped, m, op, if FullFor(m, agent) then [op.frame] else []))
  {
    FramesAfter(m, op, agent);
    var one: seq<Frame> := [op.frame];
    assert one[1..] == [];
    assert Filter(one, Live(m.dead)) == if Live(m.dead)(op.frame) then one else [];
    assert all + [] == all && dropped + [] == dropped;
    MergedLeft(all, m.stash[agent].frames, dropped, op.frame);
    MergedRight(all, m.stash[agent].frames, dropped, op.frame);
  }

  lemma HoldsStep(m: Manager, op: Op, agent: string, key: string, all: seq<Frame>, dropped: seq<Frame>)
    requires Holds(m, agent, key, all, dropped) && !Keeps(op, agent) && agent in Apply(m, op).stash
    ensures Holds(Apply(m, op), agent, key, Survivors(all, m, op, Offer(op, agent, key)),
                  Survivors(dropped, m, op, if FullFor(m, agent) then Offer(op, agent, key) else []))
  {
    FramesAfter(m, op, agent);
    if op.ForgetRoom? {
      MergedFilter(all, m.stash[agent].frames, dropped, (f: Frame) => f.room != Some(op.room));
    } else if Offer(op, agent, key) != [] {
      HoldsOffer(m, op, agent, key, all, dropped);
    } else {
      assert all + [] == all && dropped + [] == dropped;
    }
  }

  /**
   * In every run from the moment of the stash: the events offered that still could be delivered are the
   * buffered ones and the dropped ones, merged in order, and only at 200 held events was any dropped.
   */
  lemma {:induction false} BufferMissesOnlyDropped(m: Manager, agent: string, key: string, rooms: set<string>, now: int,
                                                   ops: seq<Op>)
    requires forall i :: 0 <= i < |ops| ==> !Keeps(ops[i], agent)
    requires forall n :: 0 <= n <= |ops| ==> agent in Run(DoKeep(m, agent, key, rooms, now), ops[..n]).stash
    ensures var start := DoKeep(m, agent, key, rooms, now);
            Holds(Run(start, ops), agent, key, LiveOffers(start, ops, agent, key), Dropped(start, ops, agent, key))
    decreases |ops|
  {
    if ops != [] {
      var init := ops[..|ops| - 1];
      var start := DoKeep(m, agent, key, rooms, now);
      assert forall n :: 0 <= n <= |init| ==> init[..n] == ops[..n];
      BufferMissesOnlyDropped(m, agent, key, rooms, now, init);
      assert ops[..|ops|] == ops;
      HoldsStep(Run(start, init), ops[|ops| - 1], agent, key, LiveOffers(start, init, agent, key),
                Dropped(start, init, agent, key));
    }
  }

  /** So a commit hands over all of them exactly when none was dropped. */
  lemma CommitMissesOnlyDropped(m: Manager, agent: string, key: string, rooms: set<string>, now: int, ops: seq<Op>,
                                lease: Lease)
    requires forall i :: 0 <= i < |ops| ==> !Keeps(ops[i], agent)
    requires forall n :: 0 <= n <= |ops| ==> agent in Run(DoKeep(m, agent, key, rooms, now), ops[..n]).stash
    requires lease.agent == agent && CommitResult(Run(DoKeep(m, agent, key, rooms, now), ops), lease).Some?
    ensures var start := DoKeep(m, agent, key, rooms, now);
            var frames := CommitResult(Run(start, ops), lease).value.frames;
            && Merged(LiveOffers(start, ops, agent, key), frames, Dropped(start, ops, agent, key))
            && (frames == LiveOffers(start, ops, agent, key) <==> Dropped(start, ops, agent, key) == [])
  {
    var start := DoKeep(m, agent, key, rooms, now);
    BufferMissesOnlyDropped(m, agent, key, rooms, now, ops);
    var all, frames := LiveOffers(start, ops, agent, key), Run(start, ops).stash[agent].frames;
    MergedLength(all, frames, Dropped(start, ops, agent, key));
    if Dropped(start, ops, agent, key) == [] {
      MergedAlone(all, frames);
    }
  }

  predicate Bounded(m: Manager) {
    forall a <- m.stash :: |m.stash[a].frames| <= MAX_BUFFERED
  }

  lemma BoundedStep(m: Manager, op: Op)
    requires Bounded(m)
    ensures Bounded(Apply(m, op))
  {
    if op.ForgetRoom? {
      forall a <- m.stash
        ensures |Without(m.stash[a], op.room).frames| <= MAX_BUFFERED
      {
        FilterShorter(m.stash[a].frames, (f: Frame) => f.room != Some(op.room));
      }
    }
  }

  /** No stash ever holds more than 200 events. */
  lemma {:induction false} AtMostTwoHundred(m: Manager, ops: seq<Op>)
    requires Bounded(m)
    ensures Bounded(Run(m, ops))
    decreases |ops|
  {
    if ops != [] {
      AtMostTwoHundred(m, ops[..|ops| - 1]);
      BoundedStep(Run(m, ops[..|ops| - 1]), ops[|ops| - 1]);
    }
  }
}
