/**
 * Session registrations that overlap. `try_register_session` looks at the size of its table, may
 * sweep it and look again, and registers; the table is shared, and these are separate steps.
 */
module SessionRace {
  import opened Prelude
  import opened RateLimit

  /** A call: it found the table full, has swept it, or was let through and is about to register. */
  datatype Task = Full(ip: string) | Swept(ip: string) | Admitted(ip: string)

  datatype World = World(table: Table, tasks: map<int, Task>)

  datatype Step =
    | Enter(t: int, ip: string)
    | Sweep(t: int, now: int)
    | Recheck(t: int)
    | Register(t: int, now: int)

  predicate Enabled(w: World, step: Step) {
    match step
    case Enter(t, _) => t !in w.tasks
    case Sweep(t, _) => t in w.tasks && w.tasks[t].Full?
    case Recheck(t) => t in w.tasks && w.tasks[t].Swept?
    case Register(t, _) => t in w.tasks && w.tasks[t].Admitted?
  }

  function DoRecheck(w: World, t: int): World
    requires t in w.tasks
  {
    var ip := w.tasks[t].ip;
    if ip !in w.table && |w.table| >= SESSION_CAP then w.(tasks := w.tasks - {t})
    else w.(tasks := w.tasks[t := Admitted(ip)])
  }

  function Next(w: World, step: Step): World
    requires Enabled(w, step)
  {
    match step
    case Enter(t, ip) => w.(tasks := w.tasks[t := if |w.table| >= SESSION_CAP then Full(ip) else Admitted(ip)])
    case Sweep(t, now) => w.(table := Unelapsed(w.table, now), tasks := w.tasks[t := Swept(w.tasks[t].ip)])
    case Recheck(t) => DoRecheck(w, t)
    case Register(t, now) =>
      w.(table := Registered(w.table, w.tasks[t].ip, now, SESSION_MAX, SESSION_WINDOW), tasks := w.tasks - {t})
  }

  predicate Runs(w: World, steps: seq<Step>, end: World)
    decreases |steps|
  {
    if steps == [] then w == end else Enabled(w, steps[0]) && Runs(Next(w, steps[0]), steps[1..], end)
  }

  /** A call that nothing comes between is `AfterSession`. */
  lemma RegistrationAlone(w: World, t: int, ip: string, now: int) returns (steps: seq<Step>)
    requires t !in w.tasks
    ensures Runs(w, steps, w.(table := AfterSession(w.table, ip, now)))
  {
    var end := w.(table := AfterSession(w.table, ip, now));
    var w1 := Next(w, Enter(t, ip));
    if |w.table| < SESSION_CAP {
      steps := RegisterAlone(w, w1, t, ip, now);
    } else {
      var w2 := Next(w1, Sweep(t, now));
      var w3 := Next(w2, Recheck(t));
      if AtCapacity(w.table, ip, now) {
        assert w3.tasks == w.tasks;
        RunsOne(w2, Recheck(t), end, [], end);
        steps := [Recheck(t)] + [];
      } else {
        steps := RegisterAlone(w.(table := w2.table), w3, t, ip, now);
        RunsOne(w2, Recheck(t), w3, steps, end);
        steps := [Recheck(t)] + steps;
      }
      RunsOne(w1, Sweep(t, now), w2, steps, end);
      steps := [Sweep(t, now)] + steps;
    }
    RunsOne(w, Enter(t, ip), w1, steps, end);
    steps := [Enter(t, ip)] + steps;
  }

  lemma RegisterAlone(before: World, w: World, t: int, ip: string, now: int) returns (steps: seq<Step>)
    requires t !in before.tasks && w == before.(tasks := before.tasks[t := Admitted(ip)])
    ensures Runs(w, steps, before.(table := Registered(before.table, ip, now, SESSION_MAX, SESSION_WINDOW)))
  {
    var end := before.(table := Registered(before.table, ip, now, SESSION_MAX, SESSION_WINDOW));
    assert w.tasks - {t} == before.tasks;
    RunsOne(w, Register(t, now), end, [], end);
    steps := [Register(t, now)] + [];
  }

  lemma RunsOne(w: World, step: Step, mid: World, steps: seq<Step>, end: World)
    requires Enabled(w, step) && Next(w, step) == mid && Runs(mid, steps, end)
    ensures Runs(w, [step] + steps, end)
  {
    assert ([step] + steps)[1..] == steps;
  }

  /** The calls let through and not yet registered. */
  function Between(w: World): set<int> {
    set t | t in w.tasks && w.tasks[t].Admitted?
  }

  function Awaited(w: World): set<string> {
    set t | t in w.tasks && w.tasks[t].Admitted? :: w.tasks[t].ip
  }

  /** At no time are there more than `k` of them. */
  predicate AtMostBetween(w: World, steps: seq<Step>, k: nat)
    decreases |steps|
  {
    && |Between(w)| <= k
    && (steps == [] || (Enabled(w, steps[0]) && AtMostBetween(Next(w, steps[0]), steps[1..], k)))
  }

  lemma {:induction false} ImageSmaller(ids: set<int>, tasks: map<int, Task>, ips: set<string>)
    requires forall t <- ids :: t in tasks
    requires ips == set t <- ids :: tasks[t].ip
    ensures |ips| <= |ids|
    decreases |ids|
  {
    if t :| t in ids {
      var rest := set u <- ids - {t} :: tasks[u].ip;
      ImageSmaller(ids - {t}, tasks, rest);
      assert ips == rest + {tasks[t].ip};
    }
  }

  lemma SubsetSmaller(a: set<string>, b: set<string>)
    requires a <= b
    ensures |a| <= |b|
  {
    assert b == a + (b - a);
  }

  /** The buckets there are, and those about to be there. */
  function Claimed(w: World): set<string> {
    w.table.Keys + Awaited(w)
  }

  lemma LetThrough(w: World, k: nat)
    requires |w.table| < SESSION_CAP && |Between(w)| <= k
    ensures |Claimed(w)| < SESSION_CAP + k
  {
    assert Awaited(w) == set t <- Between(w) :: w.tasks[t].ip;
    ImageSmaller(Between(w), w.tasks, Awaited(w));
    assert |w.table.Keys| == |w.table|;
  }

  lemma ClaimedStep(w: World, step: Step)
    requires Enabled(w, step) && !(Next(w, step).table == w.table && |w.table| < SESSION_CAP)
    ensures Claimed(Next(w, step)) <= Claimed(w)
  {
    if step.Register? {
      assert w.tasks[step.t].ip in Awaited(w);
    }
  }

  lemma BoundStep(w: World, step: Step, k: nat)
    requires Enabled(w, step) && |Claimed(w)| < SESSION_CAP + k && |Between(Next(w, step))| <= k
    ensures |Claimed(Next(w, step))| < SESSION_CAP + k
  {
    var w' := Next(w, step);
    if w'.table == w.table && |w.table| < SESSION_CAP {
      LetThrough(w', k);
    } else {
      ClaimedStep(w, step);
      SubsetSmaller(Claimed(w'), Claimed(w));
    }
  }

  /**
   * With at most `k` calls between their look at the table and their registration, the table holds
   * at most 4095 + k buckets: 4096 if calls follow one another.
   */
  lemma {:induction false} TableBoundedBy(w: World, steps: seq<Step>, end: World, k: nat)
    requires Runs(w, steps, end) && AtMostBetween(w, steps, k) && |Claimed(w)| < SESSION_CAP + k
    ensures |end.table| < SESSION_CAP + k
    decreases |steps|
  {
    if steps == [] {
      SubsetSmaller(w.table.Keys, Claimed(w));
      assert |w.table.Keys| == |w.table|;
    } else {
      BoundStep(w, steps[0], k);
      TableBoundedBy(Next(w, steps[0]), steps[1..], end, k);
    }
  }

  /** A registration of a new bucket in a table that has filled up since the look at it. */
  predicate Overfills(w: World, step: Step) {
    step.Register? && step.t in w.tasks && w.tasks[step.t].ip !in w.table && |w.table| >= SESSION_CAP
  }

  predicate NeverOverfills(w: World, steps: seq<Step>)
    decreases |steps|
  {
    steps == [] || (Enabled(w, steps[0]) && !Overfills(w, steps[0]) && NeverOverfills(Next(w, steps[0]), steps[1..]))
  }

  predicate AlwaysBounded(w: World, steps: seq<Step>)
    decreases |steps|
  {
    && |w.table| <= SESSION_CAP
    && (steps == [] || (Enabled(w, steps[0]) && AlwaysBounded(Next(w, steps[0]), steps[1..])))
  }

  lemma OverfillStep(w: World, step: Step)
    requires Enabled(w, step) && |w.table| <= SESSION_CAP
    ensures |Next(w, step).table| <= SESSION_CAP <==> !Overfills(w, step)
  {
    if step.Sweep? {
      SweptSmaller(w.table, step.now);
    } else if step.Register? {
      var after := Next(w, step).table;
      assert after.Keys == w.table.Keys + {w.tasks[step.t].ip};
      assert |after.Keys| == |after| && |w.table.Keys| == |w.table|;
    }
  }

  /** The table stays within 4096 all along a run if and only if no registration overfills it. */
  lemma {:induction false} BoundedExactly(w: World, steps: seq<Step>, end: World)
    requires |w.table| <= SESSION_CAP && Runs(w, steps, end)
    ensures AlwaysBounded(w, steps) <==> NeverOverfills(w, steps)
    decreases |steps|
  {
    if steps != [] {
      OverfillStep(w, steps[0]);
      if !Overfills(w, steps[0]) {
        BoundedExactly(Next(w, steps[0]), steps[1..], end);
      }
    }
  }

  predicate Different(ips: seq<string>) {
    forall i, j :: 0 <= i < j < |ips| ==> ips[i] != ips[j]
  }

  /** The calls from number `from` on are let through and about to register their addresses. */
  ghost predicate Lined(tasks: map<int, Task>, ips: seq<string>, from: nat, to: nat) {
    && to <= |ips|
    && (forall t :: t in tasks <==> from <= t < to)
    && (forall t :: from <= t < to ==> tasks[t] == Admitted(ips[t]))
  }

  /** Call after call is let through while the table is one short of full. */
  lemma {:induction false} AllEnter(w: World, ips: seq<string>, n: nat) returns (steps: seq<Step>, end: World)
    requires |w.table| < SESSION_CAP && Lined(w.tasks, ips, 0, n) && n <= |ips|
    ensures Runs(w, steps, end) && end.table == w.table && Lined(end.tasks, ips, 0, |ips|)
    decreases |ips| - n
  {
    if n == |ips| {
      return [], w;
    }
    var w' := Next(w, Enter(n, ips[n]));
    var rest, last := AllEnter(w', ips, n + 1);
    RunsOne(w, Enter(n, ips[n]), w', rest, last);
    return [Enter(n, ips[n])] + rest, last;
  }

  lemma NewBucket(m: Table, ip: string, now: int)
    requires ip !in m
    ensures var after := Registered(m, ip, now, SESSION_MAX, SESSION_WINDOW);
            |after| == |m| + 1 && forall other :: other in after <==> other in m || other == ip
  {
    var after := Registered(m, ip, now, SESSION_MAX, SESSION_WINDOW);
    assert after.Keys == m.Keys + {ip};
    assert |after.Keys| == |after| && |m.Keys| == |m|;
  }

  lemma LinedTail(tasks: map<int, Task>, ips: seq<string>, n: nat)
    requires Lined(tasks, ips, n, |ips|) && n < |ips|
    ensures n in tasks && tasks[n] == Admitted(ips[n]) && Lined(tasks - {n}, ips, n + 1, |ips|)
  {
  }

  /** Then each registers its new address. */
  lemma {:induction false} AllRegister(w: World, ips: seq<string>, n: nat) returns (steps: seq<Step>, end: World)
    requires Lined(w.tasks, ips, n, |ips|) && n <= |ips| && Different(ips)
    requires forall i :: n <= i < |ips| ==> ips[i] !in w.table
    ensures Runs(w, steps, end) && |end.table| == |w.table| + (|ips| - n)
    decreases |ips| - n
  {
    if n == |ips| {
      return [], w;
    }
    var w' := Next(w, Register(n, 0));
    NewBucket(w.table, ips[n], 0);
    LinedTail(w.tasks, ips, n);
    var rest, last := AllRegister(w', ips, n + 1);
    RunsOne(w, Register(n, 0), w', rest, last);
    return [Register(n, 0)] + rest, last;
  }

  lemma {:induction false} RunsAppend(w: World, steps: seq<Step>, mid: World, more: seq<Step>, end: World)
    requires Runs(w, steps, mid) && Runs(mid, more, end)
    ensures Runs(w, steps + more, end)
    decreases |steps|
  {
    if steps == [] {
      assert steps + more == more;
    } else {
      var w' := Next(w, steps[0]);
      RunsAppend(w', steps[1..], mid, more, end);
      RunsOne(w, steps[0], w', steps[1..] + more, end);
      FirstApart(steps, more);
    }
  }

  lemma FirstApart(steps: seq<Step>, more: seq<Step>)
    requires steps != []
    ensures steps + more == [steps[0]] + (steps[1..] + more)
  {
  }

  /** The bound is reached: any new addresses that look together at a table one short of full all get in. */
  lemma TogetherTheyOverfill(w: World, ips: seq<string>) returns (steps: seq<Step>, end: World)
    requires |w.table| == SESSION_CAP - 1 && w.tasks == map[]
    requires Different(ips) && forall i :: 0 <= i < |ips| ==> ips[i] !in w.table
    ensures Runs(w, steps, end) && |end.table| == SESSION_CAP - 1 + |ips|
  {
    var enters, mid := AllEnter(w, ips, 0);
    var registers, last := AllRegister(mid, ips, 0);
    RunsAppend(w, enters, mid, registers, last);
    return enters + registers, last;
  }

  /** Addresses that come one after the other fill the table up. */
  lemma {:induction false} FillUp(w: World, ips: seq<string>, n: nat) returns (steps: seq<Step>, end: World)
    requires w.tasks == map[] && n <= |ips| && Different(ips) && |w.table| + (|ips| - n) < SESSION_CAP
    requires forall i :: n <= i < |ips| ==> ips[i] !in w.table
    ensures Runs(w, steps, end) && end.tasks == map[] && |end.table| == |w.table| + (|ips| - n)
    ensures forall ip <- end.table :: ip in w.table || ip in ips[n..]
    decreases |ips| - n
  {
    if n == |ips| {
      return [], w;
    }
    var first := RegistrationAlone(w, 0, ips[n], 0);
    var w' := w.(table := AfterSession(w.table, ips[n], 0));
    assert w'.table.Keys == w.table.Keys + {ips[n]};
    assert |w'.table.Keys| == |w'.table| && |w.table.Keys| == |w.table|;
    var rest, last := FillUp(w', ips, n + 1);
    RunsAppend(w, first, w', rest, last);
    SliceMembers(ips, n);
    return first + rest, last;
  }

  lemma SliceMembers(ips: seq<string>, n: nat)
    requires n < |ips|
    ensures ips[n] in ips[n..] && forall ip <- ips[n + 1..] :: ip in ips[n..]
  {
    assert ips[n..] == [ips[n]] + ips[n + 1..];
  }

  const EMPTY: World := World(map[], map[])

  /** So from the empty table on, for every number of addresses that look at it together. */
  lemma BoundIsReached(k: nat)
    ensures exists steps: seq<Step>, end: World :: Runs(EMPTY, steps, end) && |end.table| == SESSION_CAP - 1 + k
  {
    var ips := Names(SESSION_CAP - 1 + k);
    NamesDiffer(SESSION_CAP - 1 + k);
    var early, late := ips[..SESSION_CAP - 1], ips[SESSION_CAP - 1..];
    SlicesDiffer(ips, SESSION_CAP - 1);
    var before, full := FillUp(EMPTY, early, 0);
    assert early[0..] == early;
    var after, end := TogetherTheyOverfill(full, late);
    RunsAppend(EMPTY, before, full, after, end);
  }

  lemma SlicesDiffer(ips: seq<string>, m: nat)
    requires Different(ips) && m <= |ips|
    ensures Different(ips[..m]) && Different(ips[m..])
    ensures forall i :: 0 <= i < |ips| - m ==> ips[m..][i] !in ips[..m]
  {
  }

  /** `n` different addresses. */
  function Names(n: nat): (names: seq<string>)
    ensures |names| == n
  {
    seq(n, i requires 0 <= i => seq(i, _ => '1'))
  }

  lemma NamesDiffer(n: nat)
    ensures Different(Names(n))
  {
    forall i, j | 0 <= i < j < n
      ensures Names(n)[i] != Names(n)[j]
    {
      assert |Names(n)[i]| == i && |Names(n)[j]| == j;
    }
  }
}
