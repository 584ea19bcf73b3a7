/** Coalescing: however many events arrive, a target is woken at most once a lease. */
module WakeLease {
  import opened Prelude
  import opened WakePaging
  import opened WakeStore
  import opened WakeProtocol
  import opened WakeNoLost

  /** The step gives the claim back: an accepted acknowledgement, or a wake that failed. */
  predicate Frees(w: World, s: Step, target: string) {
    || (s.AckStart? && s.target == target && Acknowledge(w.tables, target, s.cursor).Ok?)
    || (s.WakeFail? && s.id in w.calls && TargetOfCall(w.calls[s.id]) == target)
  }

  predicate HeldSince(w: World, target: string, since: int) {
    && target in w.tables.targets && w.tables.targets[target].claimedAt.Some?
    && w.tables.targets[target].claimedAt.value >= since
  }

  predicate NeverFreed(c: Config, w: World, steps: seq<Step>, target: string)
    decreases |steps|
  {
    steps == [] || (!Frees(w, steps[0], target)
                    && (Enabled(c, w, steps[0]) ==> NeverFreed(c, Next(c, w, steps[0]), steps[1..], target)))
  }

  lemma ClaimHolds(c: Config, w: World, s: Step, target: string)
    requires Claims(c, w, s, target)
    ensures HeldSince(Next(c, w, s), target, s.now)
  {
  }

  lemma HeldStep(c: Config, w: World, s: Step, target: string, since: int)
    requires Enabled(c, w, s) && HeldSince(w, target, since) && !Frees(w, s, target) && c.lease >= 0
    ensures HeldSince(Next(c, w, s), target, since)
  {
  }

  lemma HeldRefuses(c: Config, w: World, s: Step, target: string, since: int)
    requires HeldSince(w, target, since) && Claims(c, w, s, target)
    ensures s.now >= since + c.lease
  {
  }

  lemma {:induction false} HeldThrough(c: Config, w: World, steps: seq<Step>, end: World, target: string, since: int)
    requires HeldSince(w, target, since) && Runs(c, w, steps, end) && NeverFreed(c, w, steps, target) && c.lease >= 0
    ensures HeldSince(end, target, since)
    decreases |steps|
  {
    if steps != [] {
      HeldStep(c, w, steps[0], target, since);
      HeldThrough(c, Next(c, w, steps[0]), steps[1..], end, target, since);
    }
  }

  /** Two wakes of one target, with no acknowledgement and no failed wake between, are a lease apart. */
  lemma OneWakePerLease(c: Config, w: World, first: Step, steps: seq<Step>, end: World, second: Step, target: string)
    requires c.lease >= 0 && Claims(c, w, first, target)
    requires Runs(c, Next(c, w, first), steps, end) && NeverFreed(c, Next(c, w, first), steps, target)
    requires Claims(c, end, second, target)
    ensures second.now >= first.now + c.lease
  {
    ClaimHolds(c, w, first, target);
    HeldThrough(c, Next(c, w, first), steps, end, target, first.now);
    HeldRefuses(c, end, second, target, first.now);
  }
}
