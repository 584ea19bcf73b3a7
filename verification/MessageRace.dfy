/**
 * Sends of one key that overlap. The rate is checked before the message is appended and counted
 * after it; an append that fails, or repeats a message, is not counted. The usage record is made
 * by whoever found none, and the insertion replaces one made meanwhile. A check holds the record and
 * its window's mutex, but counting takes no mutex: it can come between a check's new window start
 * and its new count.
 */
module MessageRace {
  import opened Prelude
  import opened RateLimit

  /** What the holder of the mutex still has to do. */
  datatype Gate = Free | Zeroing(t: int) | Comparing(t: int)

  /**
   * `makers` are the calls that found no record, with the time of the record they have made;
   * `between` the sends that passed the check and are not counted yet. `sent`, `wiped` and
   * `replaced` are history: when sends were counted, how many of those since the count last
   * started over are in records replaced since, and how many records were replaced.
   */
  datatype World = World(window: Option<Window>, makers: map<int, Option<int>>, gate: Gate, between: set<int>,
                         sent: seq<int>, wiped: nat, replaced: nat)

  datatype Step =
    | Look(t: int, now: int)
    | Make(t: int, now: int)
    | Insert(t: int, now: int)
    | Lock(t: int, now: int)
    | Zero(t: int, now: int)
    | Compare(t: int, now: int)
    | Increment(t: int, now: int)
    | GiveUp(t: int, now: int)

  /** A call that finds a record goes on with it, and needs no step for that: records stay. */
  predicate Enabled(w: World, step: Step) {
    match step
    case Look(t, _) => w.window.None? && t !in w.makers
    case Make(t, _) => t in w.makers && w.makers[t].None?
    case Insert(t, _) => t in w.makers && w.makers[t].Some? && w.gate.Free?
    case Lock(t, _) => w.window.Some? && w.gate.Free? && t !in w.between
    case Zero(t, _) => w.window.Some? && w.gate == Zeroing(t)
    case Compare(t, _) => w.window.Some? && w.gate == Comparing(t)
    case Increment(t, _) => w.window.Some? && t in w.between
    case GiveUp(t, _) => t in w.between
  }

  function CountOf(w: World): nat {
    if w.window.None? then 0 else w.window.value.count
  }

  function DoInsert(w: World, t: int): World
    requires t in w.makers && w.makers[t].Some?
  {
    w.(window := Some(Window(0, w.makers[t].value)), makers := w.makers - {t},
       wiped := w.wiped + CountOf(w), replaced := if w.window.Some? then w.replaced + 1 else w.replaced)
  }

  /** The start of a check: an elapsed window gets a new start. */
  function DoLock(w: World, t: int, now: int): World
    requires w.window.Some?
  {
    if now - w.window.value.start > MESSAGE_WINDOW then
      w.(window := Some(w.window.value.(start := now)), gate := Zeroing(t))
    else w.(gate := Comparing(t))
  }

  function DoCompare(w: World, t: int, max: nat): World {
    w.(between := if CountOf(w) < max then w.between + {t} else w.between, gate := Free)
  }

  function DoIncrement(w: World, t: int, now: int): World
    requires w.window.Some?
  {
    var usage := w.window.value;
    w.(window := Some(usage.(count := usage.count + 1)), between := w.between - {t}, sent := w.sent + [now])
  }

  function Next(w: World, step: Step, max: nat): World
    requires Enabled(w, step)
  {
    match step
    case Look(t, _) => w.(makers := w.makers[t := None])
    case Make(t, now) => w.(makers := w.makers[t := Some(now)])
    case Insert(t, _) => DoInsert(w, t)
    case Lock(t, now) => DoLock(w, t, now)
    case Zero(t, _) => w.(window := Some(w.window.value.(count := 0)), wiped := 0, gate := Comparing(t))
    case Compare(t, _) => DoCompare(w, t, max)
    case Increment(t, now) => DoIncrement(w, t, now)
    case GiveUp(t, _) => w.(between := w.between - {t})
  }

  predicate Runs(w: World, steps: seq<Step>, end: World, max: nat)
    decreases |steps|
  {
    if steps == [] then w == end else Enabled(w, steps[0]) && Runs(Next(w, steps[0], max), steps[1..], end, max)
  }

  const START: World := World(None, map[], Free, {}, [], 0, 0)

  /** At no time are more than `k` sends between their check and their count. */
  predicate AtMostBetween(w: World, steps: seq<Step>, max: nat, k: nat)
    decreases |steps|
  {
    && |w.between| <= k
    && (steps == [] || (Enabled(w, steps[0]) && AtMostBetween(Next(w, steps[0], max), steps[1..], max, k)))
  }

  /** No record's window ever counts more than `most`. */
  predicate CountsWithin(w: World, steps: seq<Step>, max: nat, most: nat)
    decreases |steps|
  {
    && CountOf(w) <= most
    && (steps == [] || (Enabled(w, steps[0]) && CountsWithin(Next(w, steps[0], max), steps[1..], max, most)))
  }

  /** What a window counts, with what is still to be counted. */
  predicate Reserved(w: World, max: nat, k: nat) {
    CountOf(w) + |w.between| < max + k && (max == 0 ==> w.between == {} && CountOf(w) == 0)
  }

  lemma ReservedStep(w: World, step: Step, max: nat, k: nat)
    requires Enabled(w, step) && Reserved(w, max, k) && |Next(w, step, max).between| <= k
    ensures Reserved(Next(w, step, max), max, k)
  {
    if step.Increment? || step.GiveUp? {
      assert |w.between - {step.t}| == |w.between| - 1;
    }
  }

  /** With at most `k` sends in between, each record counts at most max + k - 1 a window. */
  lemma {:induction false} WindowBoundedBy(w: World, steps: seq<Step>, end: World, max: nat, k: nat)
    requires Runs(w, steps, end, max) && Reserved(w, max, k) && AtMostBetween(w, steps, max, k)
    ensures CountsWithin(w, steps, max, max + k - 1)
    decreases |steps|
  {
    if steps != [] {
      ReservedStep(w, steps[0], max, k);
      WindowBoundedBy(Next(w, steps[0], max), steps[1..], end, max, k);
    }
  }

  /** A send counted when its window is full already. */
  predicate Late(w: World, step: Step, max: nat) {
    step.Increment? && CountOf(w) >= max
  }

  predicate NeverLate(w: World, steps: seq<Step>, max: nat)
    decreases |steps|
  {
    steps == [] || (Enabled(w, steps[0]) && !Late(w, steps[0], max)
                    && NeverLate(Next(w, steps[0], max), steps[1..], max))
  }

  /** No record counts more than the maximum if and only if no send is counted late. */
  lemma {:induction false} CountsExactly(w: World, steps: seq<Step>, end: World, max: nat)
    requires Runs(w, steps, end, max) && CountOf(w) <= max
    ensures CountsWithin(w, steps, max, max) <==> NeverLate(w, steps, max)
    decreases |steps|
  {
    if steps != [] {
      assert CountOf(Next(w, steps[0], max)) <= max <==> !Late(w, steps[0], max);
      if !Late(w, steps[0], max) {
        CountsExactly(Next(w, steps[0], max), steps[1..], end, max);
      }
    }
  }

  /** The sends counted since the count last started over, in whichever record. */
  function Spent(w: World): nat {
    w.wiped + CountOf(w)
  }

  /** Between two resets never more than `most` are counted, in whichever record. */
  predicate SpentWithin(w: World, steps: seq<Step>, max: nat, most: nat)
    decreases |steps|
  {
    && Spent(w) <= most
    && (steps == [] || (Enabled(w, steps[0]) && SpentWithin(Next(w, steps[0], max), steps[1..], max, most)))
  }

  /** A send that only the loss of an earlier record leaves space for. */
  predicate Slips(w: World, step: Step, max: nat) {
    step.Increment? && CountOf(w) < max <= Spent(w)
  }

  predicate NeverSlips(w: World, steps: seq<Step>, max: nat)
    decreases |steps|
  {
    steps == [] || (Enabled(w, steps[0]) && !Slips(w, steps[0], max)
                    && NeverSlips(Next(w, steps[0], max), steps[1..], max))
  }

  /**
   * Between two resets no more than the maximum are counted if and only if no send is counted late
   * and none slips past a replaced record.
   */
  lemma {:induction false} WithinExactly(w: World, steps: seq<Step>, end: World, max: nat)
    requires Runs(w, steps, end, max) && Spent(w) <= max
    ensures SpentWithin(w, steps, max, max) <==> NeverLate(w, steps, max) && NeverSlips(w, steps, max)
    decreases |steps|
  {
    if steps != [] {
      assert Spent(Next(w, steps[0], max)) <= max <==> !Late(w, steps[0], max) && !Slips(w, steps[0], max);
      if !Late(w, steps[0], max) && !Slips(w, steps[0], max) {
        WithinExactly(Next(w, steps[0], max), steps[1..], end, max);
      }
    }
  }

  /** Without a replacement none slips. */
  lemma {:induction false} OneRecordNeverSlips(w: World, steps: seq<Step>, end: World, max: nat)
    requires Runs(w, steps, end, max) && w.wiped == 0 && end.replaced == w.replaced
    ensures NeverSlips(w, steps, max)
    decreases |steps|
  {
    if steps != [] {
      ReplacedGrows(w, steps, end, max);
      ReplacedGrows(Next(w, steps[0], max), steps[1..], end, max);
      OneRecordNeverSlips(Next(w, steps[0], max), steps[1..], end, max);
    }
  }

  lemma {:induction false} ReplacedGrows(w: World, steps: seq<Step>, end: World, max: nat)
    requires Runs(w, steps, end, max)
    ensures w.replaced <= end.replaced
    decreases |steps|
  {
    if steps != [] {
      ReplacedGrows(Next(w, steps[0], max), steps[1..], end, max);
    }
  }

  /** At no time are more than `m` calls making a record. */
  predicate AtMostMaking(w: World, steps: seq<Step>, max: nat, m: nat)
    decreases |steps|
  {
    && |w.makers| <= m
    && (steps == [] || (Enabled(w, steps[0]) && AtMostMaking(Next(w, steps[0], max), steps[1..], max, m)))
  }

  /** Once there is a record, only the calls that looked before can replace it. */
  predicate FirstUse(w: World, m: nat) {
    if w.window.None? then w.replaced == 0 else w.replaced + |w.makers| < m
  }

  lemma FirstUseStep(w: World, step: Step, max: nat, m: nat)
    requires Enabled(w, step) && FirstUse(w, m) && |w.makers| <= m
    ensures FirstUse(Next(w, step, max), m)
  {
    if step.Insert? {
      assert (w.makers - {step.t}).Keys == w.makers.Keys - {step.t};
      assert |w.makers.Keys - {step.t}| == |w.makers.Keys| - 1;
    } else if step.Make? {
      assert w.makers[step.t := Some(step.now)].Keys == w.makers.Keys;
      assert |w.makers[step.t := Some(step.now)]| == |w.makers.Keys|;
    }
  }

  /** Records are replaced on the first use of a key only: fewer often than calls make one at a time. */
  lemma {:induction false} ReplacedBoundedBy(w: World, steps: seq<Step>, end: World, max: nat, m: nat)
    requires Runs(w, steps, end, max) && FirstUse(w, m) && AtMostMaking(w, steps, max, m)
    ensures FirstUse(end, m) && (end.replaced == 0 || end.replaced < m)
    decreases |steps|
  {
    if steps != [] {
      FirstUseStep(w, steps[0], max, m);
      ReplacedBoundedBy(Next(w, steps[0], max), steps[1..], end, max, m);
    }
  }

  /** How many of some times lie in an interval. */
  function Within(times: seq<int>, from: int, to: int): nat {
    if times == [] then 0
    else Within(times[..|times| - 1], from, to) + (if from <= times[|times| - 1] <= to then 1 else 0)
  }

  lemma WithinPost(times: seq<int>, t: int, from: int, to: int)
    ensures Within(times + [t], from, to) == Within(times, from, to) + if from <= t <= to then 1 else 0
  {
    assert (times + [t])[..|times|] == times;
  }

  /** Time does not go back. */
  predicate Ordered(steps: seq<Step>, from: int) {
    steps == [] || (from <= steps[0].now && Ordered(steps[1..], steps[0].now))
  }

  function Sends(w: World, from: int, to: int): nat {
    Within(w.sent, from, to)
  }

  lemma SendsStep(w: World, step: Step, max: nat, from: int, to: int)
    requires Enabled(w, step)
    ensures Sends(Next(w, step, max), from, to) ==
            Sends(w, from, to) + if step.Increment? && from <= step.now <= to then 1 else 0
  {
    if step.Increment? {
      WithinPost(w.sent, step.now, from, to);
    }
  }

  /** After the interval nothing is added. */
  lemma {:induction false} SendsBeyond(w: World, steps: seq<Step>, end: World, max: nat, from: int, to: int, at: int)
    requires Runs(w, steps, end, max) && Ordered(steps, at) && to < at
    ensures Sends(end, from, to) == Sends(w, from, to)
    decreases |steps|
  {
    if steps != [] {
      SendsStep(w, steps[0], max, from, to);
      SendsBeyond(Next(w, steps[0], max), steps[1..], end, max, from, to, steps[0].now);
    }
  }

  /** What replacements can add: two windows each. */
  function Extra(w: World, end: World, most: nat): int {
    2 * most * (end.replaced - w.replaced)
  }

  lemma ExtraStep(w: World, step: Step, end: World, max: nat, most: nat)
    requires Enabled(w, step)
    ensures Extra(w, end, most) == Extra(Next(w, step, max), end, most)
                                   + if step.Insert? && w.window.Some? then 2 * most else 0
  {
    if step.Insert? && w.window.Some? {
      calc {
        Extra(w, end, most);
        2 * most * ((end.replaced - Next(w, step, max).replaced) + 1);
        2 * most * (end.replaced - Next(w, step, max).replaced) + 2 * most;
      }
    }
  }

  lemma ExtraBeyond(w: World, steps: seq<Step>, end: World, max: nat, most: nat)
    requires Runs(w, steps, end, max)
    ensures Extra(w, end, most) >= 0
  {
    ReplacedGrows(w, steps, end, max);
  }

  predicate BegunFrom(w: World, from: int) {
    w.window.Some? && from <= w.window.value.start
  }

  /** The counts that can still be lost to a check that gave the window its start before the interval. */
  function Gap(w: World, most: nat, from: int): int {
    if w.gate.Zeroing? && !BegunFrom(w, from) then Min(|w.between|, most - CountOf(w)) + CountOf(w) else 0
  }

  /** How many sends a world's windows can still take in the interval, replacements apart. */
  function Left(w: World, most: nat, from: int): int {
    most - CountOf(w) + (if BegunFrom(w, from) && !w.gate.Zeroing? then 0 else most) + Gap(w, most, from)
  }

  lemma LeftStep(w: World, step: Step, max: nat, most: nat, from: int, to: int)
    requires Enabled(w, step) && to - from <= MESSAGE_WINDOW && from <= step.now <= to
    requires CountOf(w) <= most && CountOf(Next(w, step, max)) <= most
    ensures Left(Next(w, step, max), most, from) + (if step.Increment? then 1 else 0)
            <= Left(w, most, from) + if step.Insert? && w.window.Some? then 2 * most else 0
  {
    if step.Increment? || step.GiveUp? {
      assert |w.between - {step.t}| == |w.between| - 1;
    }
  }

  /**
   * Once the interval has begun: what is left of the current window, one more unless that one began
   * in the interval, what a check may lose, and two windows for each record that is replaced.
   */
  lemma {:induction false} SendsWithin(w: World, steps: seq<Step>, end: World, max: nat, most: nat,
                                       from: int, to: int, at: int)
    requires Runs(w, steps, end, max) && CountsWithin(w, steps, max, most) && Ordered(steps, at)
    requires to - from <= MESSAGE_WINDOW && from <= at
    ensures Sends(end, from, to) <= Sends(w, from, to) + Left(w, most, from) + Extra(w, end, most)
    decreases |steps|
  {
    ExtraBeyond(w, steps, end, max, most);
    if steps != [] {
      var w' := Next(w, steps[0], max);
      SendsStep(w, steps[0], max, from, to);
      if steps[0].now <= to {
        ExtraStep(w, steps[0], end, max, most);
        LeftStep(w, steps[0], max, most, from, to);
        SendsWithin(w', steps[1..], end, max, most, from, to, steps[0].now);
      } else {
        SendsBeyond(w', steps[1..], end, max, from, to, steps[0].now);
      }
    }
  }

  /**
   * If no record counts more than `most`, no interval as short as a window has more than twice that
   * for each record, and what the check under way at its beginning loses: no more than `gap` sends
   * are in between, or `most`.
   */
  lemma {:induction false} IntervalBound(w: World, steps: seq<Step>, end: World, max: nat, most: nat, gap: nat,
                                         from: int, to: int, at: int)
    requires Runs(w, steps, end, max) && CountsWithin(w, steps, max, most) && Ordered(steps, at)
    requires gap >= most || AtMostBetween(w, steps, max, gap)
    requires to - from <= MESSAGE_WINDOW && Sends(w, from, to) == 0
    ensures Sends(end, from, to) <= 2 * most + gap + Extra(w, end, most)
    decreases |steps|
  {
    ExtraBeyond(w, steps, end, max, most);
    if steps != [] {
      if from <= steps[0].now {
        SendsWithin(w, steps, end, max, most, from, to, from);
      } else {
        SendsStep(w, steps[0], max, from, to);
        ExtraStep(w, steps[0], end, max, most);
        IntervalBound(Next(w, steps[0], max), steps[1..], end, max, most, gap, from, to, steps[0].now);
      }
    }
  }

  lemma TwiceARecord(end: World, most: nat)
    ensures 2 * most + Extra(START, end, most) == 2 * (1 + end.replaced) * most
  {
  }

  /**
   * With at most `k` sends between their check and their count, no interval as short as a window has
   * more than 2 (max + k - 1) sends for each record there has been, and `k`.
   */
  lemma SendsBoundedBy(steps: seq<Step>, end: World, max: nat, k: nat, from: int, to: int, at: int)
    requires Runs(START, steps, end, max) && AtMostBetween(START, steps, max, k) && k > 0 && Ordered(steps, at)
    requires to - from <= MESSAGE_WINDOW
    ensures Sends(end, from, to) <= 2 * (1 + end.replaced) * (max + k - 1) + k
  {
    WindowBoundedBy(START, steps, end, max, k);
    IntervalBound(START, steps, end, max, max + k - 1, k, from, to, at);
    TwiceARecord(end, max + k - 1);
  }

  /** However many overlap: twice the maximum for each record, and once more, if no send is counted late. */
  lemma SendsBoundedUnlessLate(steps: seq<Step>, end: World, max: nat, from: int, to: int, at: int)
    requires Runs(START, steps, end, max) && NeverLate(START, steps, max) && Ordered(steps, at)
    requires to - from <= MESSAGE_WINDOW
    ensures Sends(end, from, to) <= 2 * (1 + end.replaced) * max + max
  {
    CountsExactly(START, steps, end, max);
    IntervalBound(START, steps, end, max, max, max, from, to, at);
    TwiceARecord(end, max);
  }

  /** A run over a stretch of time with at most `k` sends in between. */
  predicate Stretch(w: World, steps: seq<Step>, end: World, max: nat, k: nat, from: int, to: int)
    decreases |steps|
  {
    && |w.between| <= k
    && (if steps == [] then w == end && from <= to
        else && Enabled(w, steps[0]) && from <= steps[0].now
             && Stretch(Next(w, steps[0], max), steps[1..], end, max, k, steps[0].now, to))
  }

  lemma {:induction false} StretchAppend(w: World, steps: seq<Step>, mid: World, more: seq<Step>, end: World, max: nat,
                                         k: nat, from: int, via: int, to: int)
    requires Stretch(w, steps, mid, max, k, from, via) && Stretch(mid, more, end, max, k, via, to)
    ensures Stretch(w, steps + more, end, max, k, from, to)
    decreases |steps|
  {
    if steps == [] {
      assert steps + more == more;
    } else {
      StretchAppend(Next(w, steps[0], max), steps[1..], mid, more, end, max, k, steps[0].now, via, to);
      assert (steps + more)[1..] == steps[1..] + more;
    }
  }

  lemma {:induction false} StretchRuns(w: World, steps: seq<Step>, end: World, max: nat, k: nat, from: int, to: int)
    requires Stretch(w, steps, end, max, k, from, to)
    ensures Runs(w, steps, end, max) && AtMostBetween(w, steps, max, k) && Ordered(steps, from)
    decreases |steps|
  {
    if steps != [] {
      StretchRuns(Next(w, steps[0], max), steps[1..], end, max, k, steps[0].now, to);
    }
  }

  ghost predicate Reaches(w: World, end: World, max: nat, k: nat, from: int, to: int) {
    exists steps :: Stretch(w, steps, end, max, k, from, to)
  }

  lemma ReachesItself(w: World, max: nat, k: nat, from: int, to: int)
    requires |w.between| <= k && from <= to
    ensures Reaches(w, w, max, k, from, to)
  {
    assert Stretch(w, [], w, max, k, from, to);
  }

  lemma ReachesBy(w: World, step: Step, end: World, max: nat, k: nat, from: int, to: int)
    requires Enabled(w, step) && from <= step.now && |w.between| <= k
    requires Reaches(Next(w, step, max), end, max, k, step.now, to)
    ensures Reaches(w, end, max, k, from, to)
  {
    var steps :| Stretch(Next(w, step, max), steps, end, max, k, step.now, to);
    assert ([step] + steps)[1..] == steps;
    assert Stretch(w, [step] + steps, end, max, k, from, to);
  }

  lemma ReachesEarlier(w: World, end: World, max: nat, k: nat, from: int, to: int, before: int)
    requires Reaches(w, end, max, k, from, to) && before <= from
    ensures Reaches(w, end, max, k, before, to)
  {
    var steps :| Stretch(w, steps, end, max, k, from, to);
    assert Stretch(w, steps, end, max, k, before, to);
  }

  lemma ReachesVia(w: World, mid: World, end: World, max: nat, k: nat, from: int, via: int, to: int)
    requires Reaches(w, mid, max, k, from, via) && Reaches(mid, end, max, k, via, to)
    ensures Reaches(w, end, max, k, from, to)
  {
    var steps :| Stretch(w, steps, mid, max, k, from, via);
    var more :| Stretch(mid, more, end, max, k, via, to);
    StretchAppend(w, steps, mid, more, end, max, k, from, via, to);
  }

  /** The first `n` call numbers. */
  function Ids(n: nat): set<int> {
    if n == 0 then {} else Ids(n - 1) + {n - 1}
  }

  lemma {:induction false} IdsMeans(n: nat)
    ensures |Ids(n)| == n && forall t <- Ids(n) :: t < n
  {
    if n > 0 {
      IdsMeans(n - 1);
    }
  }

  function Current(w: World, at: int): Window {
    Opened(w.window, at, MESSAGE_WINDOW)
  }

  /** `n` sends were counted at a time. */
  ghost predicate Added(before: seq<int>, after: seq<int>, at: int, n: nat) {
    forall from, to :: from <= at <= to ==> Within(after, from, to) == Within(before, from, to) + n
  }

  lemma AddedOne(before: seq<int>, after: seq<int>, at: int, n: nat)
    requires Added(before + [at], after, at, n)
    ensures Added(before, after, at, n + 1)
  {
    forall from, to | from <= at <= to
      ensures Within(after, from, to) == Within(before, from, to) + (n + 1)
    {
      WithinPost(before, at, from, to);
      assert Within(after, from, to) == Within(before + [at], from, to) + n;
    }
  }

  lemma AddedMore(before: seq<int>, mid: seq<int>, after: seq<int>, at: int, n: nat, m: nat)
    requires Added(before, mid, at, n) && Added(mid, after, at, m)
    ensures Added(before, after, at, n + m)
  {
    forall from, to | from <= at <= to
      ensures Within(after, from, to) == Within(before, from, to) + (n + m)
    {
      assert Within(mid, from, to) == Within(before, from, to) + n;
    }
  }

  /** Sends alone: no record comes or goes, and no check is left under way. */
  predicate SameRecords(w: World, end: World) {
    end.makers == w.makers && end.replaced == w.replaced && end.window.Some? && end.gate.Free?
  }

  /** A check that nothing comes between. */
  function Checked(w: World, t: int, at: int, max: nat): World {
    var current := Current(w, at);
    w.(window := Some(current), between := if current.count < max then w.between + {t} else w.between,
       wiped := if w.window == Some(current) then w.wiped else 0)
  }

  lemma CheckAlone(w: World, t: int, end: World, max: nat, k: nat, at: int)
    requires w.window.Some? && w.gate.Free? && t !in w.between && |w.between| <= k
    requires Reaches(Checked(w, t, at, max), end, max, k, at, at)
    ensures Reaches(w, end, max, k, at, at)
  {
    var w1 := Next(w, Lock(t, at), max);
    if w1.gate.Zeroing? {
      var w2 := Next(w1, Zero(t, at), max);
      assert Next(w2, Compare(t, at), max) == Checked(w, t, at, max);
      ReachesBy(w2, Compare(t, at), end, max, k, at, at);
      ReachesBy(w1, Zero(t, at), end, max, k, at, at);
    } else {
      assert Next(w1, Compare(t, at), max) == Checked(w, t, at, max);
      ReachesBy(w1, Compare(t, at), end, max, k, at, at);
    }
    ReachesBy(w, Lock(t, at), end, max, k, at, at);
  }

  /** Sends that follow one another. */
  lemma {:induction false} InTurn(w: World, max: nat, k: nat, at: int, n: nat) returns (end: World)
    requires w.between == {} && w.gate.Free? && k > 0 && w.window.Some? && Current(w, at).count + n <= max
    ensures Reaches(w, end, max, k, at, at) && end.between == {} && SameRecords(w, end)
    ensures Current(end, at) == Current(w, at).(count := Current(w, at).count + n)
    ensures Added(w.sent, end.sent, at, n)
    decreases n
  {
    if n == 0 {
      ReachesItself(w, max, k, at, at);
      assert Added(w.sent, w.sent, at, 0);
      return w;
    }
    var w1 := Checked(w, 0, at, max);
    var w2 := Next(w1, Increment(0, at), max);
    assert w1.between == {0} && w2.between == {};
    end := InTurn(w2, max, k, at, n - 1);
    AddedOne(w.sent, end.sent, at, n - 1);
    ReachesBy(w1, Increment(0, at), end, max, k, at, at);
    CheckAlone(w, 0, end, max, k, at);
  }

  /** Sends that all check before any is counted. */
  lemma {:induction false} AllCheck(w: World, max: nat, k: nat, at: int, n: nat) returns (end: World)
    requires n <= k && w.between == Ids(n) && w.gate.Free? && w.window.Some? && Current(w, at).count < max
    ensures Reaches(w, end, max, k, at, at) && end.between == Ids(k) && end.sent == w.sent && SameRecords(w, end)
    ensures n < k || w.window == Some(Current(w, at)) ==> end.window == Some(Current(w, at))
    decreases k - n
  {
    IdsMeans(n);
    if n == k {
      ReachesItself(w, max, k, at, at);
      return w;
    }
    end := AllCheck(Checked(w, n, at, max), max, k, at, n + 1);
    CheckAlone(w, n, end, max, k, at);
  }

  /** Then they are counted. */
  lemma {:induction false} AllCount(w: World, max: nat, k: nat, at: int, n: nat) returns (end: World)
    requires n <= k && w.between == Ids(n) && w.window.Some?
    ensures Reaches(w, end, max, k, at, at) && end == w.(window := end.window, between := {}, sent := end.sent)
    ensures end.window == Some(w.window.value.(count := w.window.value.count + n))
    ensures Added(w.sent, end.sent, at, n)
    decreases n
  {
    IdsMeans(n);
    if n == 0 {
      ReachesItself(w, max, k, at, at);
      assert Added(w.sent, w.sent, at, 0);
      return w;
    }
    var w1 := Next(w, Increment(n - 1, at), max);
    IdsMeans(n - 1);
    assert w1.between == Ids(n - 1);
    end := AllCount(w1, max, k, at, n - 1);
    ReachesBy(w, Increment(n - 1, at), end, max, k, at, at);
    AddedOne(w.sent, end.sent, at, n - 1);
  }

  /** All but one in turn and then `k` together: a window takes max + k - 1. */
  lemma Burst(w: World, max: nat, k: nat, at: int) returns (end: World)
    requires w.between == {} && w.gate.Free? && max > 0 && k > 0 && w.window.Some? && Current(w, at).count == 0
    ensures Reaches(w, end, max, k, at, at) && end.between == {} && SameRecords(w, end)
    ensures end.window.value.start == Current(w, at).start
    ensures Added(w.sent, end.sent, at, max + k - 1)
  {
    var w1 := InTurn(w, max, k, at, max - 1);
    var w2 := AllCheck(w1, max, k, at, 0);
    end := AllCount(w2, max, k, at, k);
    AddedMore(w.sent, w1.sent, end.sent, at, max - 1, k);
    ReachesVia(w1, w2, end, max, k, at, at, at);
    ReachesVia(w, w1, end, max, k, at, at, at);
  }

  /** A window later than the first record, its first elapsed moment. */
  const BASE: int := MESSAGE_WINDOW + 1

  /** Calls that found no record: made at 2 i after `BASE`, or still to be made. */
  predicate Waiting(w: World, i: nat, r: nat, made: nat) {
    forall j :: i < j <= r ==> j in w.makers && w.makers[j] == if j <= made then Some(BASE + 2 * j) else None
  }

  /** More calls find no record. */
  lemma {:induction false} AllLook(w: World, max: nat, k: nat, n: nat, r: nat) returns (end: World)
    requires n <= r + 1 && w.window.None? && w.between == {} && forall j :: j in w.makers <==> 0 <= j < n
    requires forall j <- w.makers :: w.makers[j].None?
    ensures Reaches(w, end, max, k, 0, 0) && end == w.(makers := end.makers)
    ensures 0 in end.makers && end.makers[0].None? && Waiting(end, 0, r, 0)
    decreases r + 1 - n
  {
    if n == r + 1 {
      ReachesItself(w, max, k, 0, 0);
      return w;
    }
    end := AllLook(Next(w, Look(n, 0), max), max, k, n + 1, r);
    ReachesBy(w, Look(n, 0), end, max, k, 0, 0);
  }

  /** They make their records one after the other, and keep them. */
  lemma {:induction false} AllMake(w: World, max: nat, k: nat, i: nat, r: nat) returns (end: World)
    requires i <= r && |w.between| <= k && Waiting(w, 0, r, i)
    ensures Reaches(w, end, max, k, BASE + 2 * i, BASE + 2 * r) && end == w.(makers := end.makers)
    ensures Waiting(end, 0, r, r)
    decreases r - i
  {
    if i == r {
      ReachesItself(w, max, k, BASE + 2 * i, BASE + 2 * r);
      return w;
    }
    end := AllMake(Next(w, Make(i + 1, BASE + 2 * i + 2), max), max, k, i + 1, r);
    ReachesBy(w, Make(i + 1, BASE + 2 * i + 2), end, max, k, BASE + 2 * i, BASE + 2 * r);
  }

  /** A record's two windows, full: at the very end of the first and just after it. */
  lemma TwoBursts(w: World, max: nat, k: nat, at: int, from: int, to: int) returns (end: World)
    requires w.between == {} && w.gate.Free? && max > 0 && k > 0 && w.window == Some(Window(0, at - MESSAGE_WINDOW))
    requires from <= at && at + 1 <= to
    ensures Reaches(w, end, max, k, at, at + 1) && end.between == {} && SameRecords(w, end)
    ensures Sends(end, from, to) == Sends(w, from, to) + 2 * (max + k - 1)
  {
    var mid := Burst(w, max, k, at);
    end := Burst(mid, max, k, at + 1);
    ReachesEarlier(mid, end, max, k, at + 1, at + 1, at);
    ReachesVia(w, mid, end, max, k, at, at, at + 1);
    assert Sends(mid, from, to) == Sends(w, from, to) + (max + k - 1);
  }

  /** When the i-th record's first window is about to end. */
  function At(i: nat): int {
    BASE + 2 * i + MESSAGE_WINDOW
  }

  /** Ready for the i-th record's windows, with those after it up to `r` made and waiting. */
  predicate InUse(w: World, i: nat, r: nat) {
    w.between == {} && w.gate.Free? && w.window == Some(Window(0, BASE + 2 * i)) && Waiting(w, i, r, r)
  }

  /** Then the next waiting record comes in, while its own first window still runs. */
  lemma Round(w: World, max: nat, k: nat, i: nat, r: nat, from: int, to: int) returns (end: World)
    requires i < r && InUse(w, i, r) && max > 0 && k > 0 && from <= At(i) && At(i) + 1 <= to
    ensures Reaches(w, end, max, k, At(i), At(i + 1)) && InUse(end, i + 1, r) && end.replaced == w.replaced + 1
    ensures Sends(end, from, to) == Sends(w, from, to) + 2 * (max + k - 1)
  {
    var at := At(i);
    var mid := TwoBursts(w, max, k, at, from, to);
    assert i + 1 in mid.makers && mid.makers[i + 1] == Some(BASE + 2 * (i + 1));
    assert At(i + 1) == at + 2;
    end := Next(mid, Insert(i + 1, at + 2), max);
    assert Sends(end, from, to) == Sends(mid, from, to);
    ReachesItself(end, max, k, at + 2, at + 2);
    ReachesBy(mid, Insert(i + 1, at + 2), end, max, k, at + 1, at + 2);
    ReachesVia(w, mid, end, max, k, at, at + 1, at + 2);
  }

  /** As much for each of `n` records. */
  function PerRecord(n: nat, each: int): int {
    if n == 0 then 0 else PerRecord(n - 1, each) + each
  }

  lemma {:induction false} PerRecordMeans(n: nat, each: int)
    ensures PerRecord(n, each) == n * each
  {
    if n > 0 {
      PerRecordMeans(n - 1, each);
    }
  }

  /** So do all `n` of them, the record in use being the first. */
  lemma {:induction false} Rounds(w: World, max: nat, k: nat, i: nat, n: nat, from: int, to: int) returns (end: World)
    requires n > 0 && InUse(w, i, i + n - 1) && max > 0 && k > 0
    requires from <= At(i) && to == At(i + n - 1) + 1
    ensures Reaches(w, end, max, k, At(i), to)
    ensures end.replaced == w.replaced + n - 1
    ensures Sends(end, from, to) - Sends(w, from, to) == PerRecord(n, 2 * (max + k - 1))
    decreases n
  {
    if n == 1 {
      end := TwoBursts(w, max, k, At(i), from, to);
    } else {
      var mid := Round(w, max, k, i, i + n - 1, from, to);
      end := Rounds(mid, max, k, i + 1, n - 1, from, to);
      ReachesVia(w, mid, end, max, k, At(i), At(i + 1), to);
    }
  }

  /** A first record in use, `r` calls that found none before it, and `k` sends that have checked. */
  lemma Begun(max: nat, k: nat, r: nat) returns (end: World)
    requires max > 0
    ensures Reaches(START, end, max, k, 0, 0) && end.between == Ids(k) && end.gate.Free?
    ensures end.window == Some(Window(0, 0)) && Waiting(end, 0, r, 0) && end.sent == [] && end.replaced == 0
  {
    var w1 := AllLook(START, max, k, 0, r);
    var w2 := Next(w1, Make(0, 0), max);
    var w3 := Next(w2, Insert(0, 0), max);
    end := AllCheck(w3, max, k, 0, 0);
    ReachesBy(w2, Insert(0, 0), end, max, k, 0, 0);
    ReachesBy(w1, Make(0, 0), end, max, k, 0, 0);
    ReachesVia(START, w1, end, max, k, 0, 0, 0);
  }

  /** The rest of a check, whose own send is then given up. */
  lemma Resume(w: World, t: int, max: nat, k: nat, at: int) returns (end: World)
    requires w.between == {} && w.gate == Zeroing(t) && w.window.Some? && max > 0 && k > 0
    ensures Reaches(w, end, max, k, at, at) && end == w.(window := end.window, gate := Free, wiped := 0)
    ensures end.window == Some(w.window.value.(count := 0))
  {
    var w1 := Next(w, Zero(t, at), max);
    var w2 := Next(w1, Compare(t, at), max);
    end := Next(w2, GiveUp(t, at), max);
    assert w2.between == {t} && end.between == {};
    ReachesItself(end, max, k, at, at);
    ReachesBy(w2, GiveUp(t, at), end, max, k, at, at);
    ReachesBy(w1, Compare(t, at), end, max, k, at, at);
    ReachesBy(w, Zero(t, at), end, max, k, at, at);
  }

  /** The interval: from just after the last record was made, for the length of a window. */
  function From(r: nat): int {
    BASE + 2 * r + 1
  }

  /** A check gives the elapsed window its start, and the sends in between are counted before the count is reset. */
  lemma Lost(w: World, max: nat, k: nat, r: nat) returns (end: World)
    requires w.between == Ids(k) && w.gate.Free? && w.window == Some(Window(0, 0)) && Waiting(w, 0, r, 0)
    requires w.sent == [] && max > 0 && k > 0
    ensures Reaches(w, end, max, k, BASE, From(r)) && InUse(end, 0, r) && end.replaced == w.replaced
    ensures Sends(end, From(r), From(r) + MESSAGE_WINDOW) == k
  {
    IdsMeans(k);
    var w1 := Next(w, Lock(k, BASE), max);
    var w2 := AllMake(w1, max, k, 0, r);
    var w3 := AllCount(w2, max, k, From(r), k);
    end := Resume(w3, k, max, k, From(r));
    ReachesVia(w2, w3, end, max, k, From(r), From(r), From(r));
    ReachesEarlier(w2, end, max, k, From(r), From(r), BASE + 2 * r);
    ReachesVia(w1, w2, end, max, k, BASE, BASE + 2 * r, From(r));
    ReachesBy(w, Lock(k, BASE), end, max, k, BASE, From(r));
    assert Sends(end, From(r), From(r) + MESSAGE_WINDOW) == Sends(w2, From(r), From(r) + MESSAGE_WINDOW) + k;
  }

  lemma Filled(max: nat, k: nat, r: nat) returns (end: World)
    requires max > 0 && k > 0 && 2 * r < MESSAGE_WINDOW
    ensures Reaches(START, end, max, k, 0, From(r) + MESSAGE_WINDOW) && end.replaced == r
    ensures Sends(end, From(r), From(r) + MESSAGE_WINDOW) == PerRecord(r + 1, 2 * (max + k - 1)) + k
  {
    var to := From(r) + MESSAGE_WINDOW;
    var w := Begun(max, k, r);
    var w1 := Lost(w, max, k, r);
    end := Rounds(w1, max, k, 0, r + 1, From(r), to);
    ReachesEarlier(w1, end, max, k, At(0), to, From(r));
    ReachesVia(w, w1, end, max, k, BASE, From(r), to);
    ReachesEarlier(w, end, max, k, BASE, to, 0);
    ReachesVia(START, w, end, max, k, 0, 0, to);
  }

  /**
   * The bound is reached, for every `k` and every number of replacements that fit into a window. So
   * sends that follow one another pass twice the maximum by one, and by more when a record is replaced.
   */
  lemma BoundIsReached(max: nat, k: nat, r: nat)
    requires max > 0 && k > 0 && 2 * r < MESSAGE_WINDOW
    ensures exists steps: seq<Step>, end: World ::
      && Runs(START, steps, end, max) && AtMostBetween(START, steps, max, k) && Ordered(steps, 0) && end.replaced == r
      && Sends(end, From(r), From(r) + MESSAGE_WINDOW) == 2 * (1 + r) * (max + k - 1) + k
  {
    var end := Filled(max, k, r);
    var steps :| Stretch(START, steps, end, max, k, 0, From(r) + MESSAGE_WINDOW);
    StretchRuns(START, steps, end, max, k, 0, From(r) + MESSAGE_WINDOW);
    PerRecordMeans(r + 1, 2 * (max + k - 1));
    TwiceEach(1 + r, max + k - 1);
  }

  lemma TwiceEach(n: nat, most: nat)
    ensures n * (2 * most) == 2 * n * most
  {
  }
}
