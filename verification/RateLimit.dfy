/** Counting windows per bucket, and the bounded table of session buckets. */
module RateLimit {
  import opened Prelude

  datatype Window = Window(count: nat, start: int)

  /** What a call finds: a new or elapsed window starts over. */
  function Opened(w: Option<Window>, now: int, length: int): Window {
    if w.None? || now - w.value.start > length then Window(0, now) else w.value
  }

  predicate Accepts(w: Option<Window>, now: int, max: nat, length: int) {
    Opened(w, now, length).count < max
  }

  function After(w: Option<Window>, now: int, max: nat, length: int): Window {
    var o := Opened(w, now, length);
    if o.count < max then o.(count := o.count + 1) else o
  }

  /** How many calls of a trace are accepted between two times, both included. */
  function AcceptedIn(w: Option<Window>, times: seq<int>, max: nat, length: int, from: int, to: int): nat
    decreases |times|
  {
    if times == [] then 0
    else
      (if Accepts(w, times[0], max, length) && from <= times[0] <= to then 1 else 0)
      + AcceptedIn(Some(After(w, times[0], max, length)), times[1..], max, length, from, to)
  }

  predicate Ordered(times: seq<int>) {
    forall i, j :: 0 <= i < j < |times| ==> times[i] <= times[j]
  }

  lemma OrderedTail(times: seq<int>)
    requires Ordered(times) && times != []
    ensures Ordered(times[1..]) && forall i :: 0 <= i < |times[1..]| ==> times[0] <= times[1..][i]
  {
    assert forall i :: 0 <= i < |times[1..]| ==> times[1..][i] == times[i + 1];
  }

  predicate AllFrom(times: seq<int>, from: int) {
    forall i :: 0 <= i < |times| ==> from <= times[i]
  }

  /** Calls after the interval add nothing. */
  lemma {:induction false} NoneBeyond(w: Option<Window>, times: seq<int>, max: nat, length: int, from: int, to: int)
    requires AllFrom(times, to + 1)
    ensures AcceptedIn(w, times, max, length, from, to) == 0
    decreases |times|
  {
    if times != [] {
      assert AllFrom(times[1..], to + 1);
      NoneBeyond(Some(After(w, times[0], max, length)), times[1..], max, length, from, to);
    }
  }

  lemma TailFrom(times: seq<int>, from: int)
    requires Ordered(times) && times != [] && from <= times[0]
    ensures AllFrom(times, from) && AllFrom(times[1..], from)
  {
    OrderedTail(times);
  }

  /** A window that started inside the interval takes all of it: no second one can start. */
  lemma {:induction false} WithinOne(w: Window, times: seq<int>, max: nat, length: int, from: int, to: int)
    requires Ordered(times) && to - from <= length && from <= w.start && w.count <= max
    ensures AcceptedIn(Some(w), times, max, length, from, to) <= max - w.count
    decreases |times|
  {
    if times != [] {
      OrderedTail(times);
      if times[0] > to {
        TailFrom(times, to + 1);
        NoneBeyond(Some(w), times, max, length, from, to);
      } else if times[0] - w.start <= length {
        WithinOne(After(Some(w), times[0], max, length), times[1..], max, length, from, to);
      }
    }
  }

  /** Once the interval has begun: what is left of the current window, and one more. */
  lemma {:induction false} WithinTwo(w: Window, times: seq<int>, max: nat, length: int, from: int, to: int)
    requires Ordered(times) && AllFrom(times, from) && to - from <= length && w.count <= max
    ensures AcceptedIn(Some(w), times, max, length, from, to) <= max - w.count + max
    decreases |times|
  {
    if times != [] {
      TailFrom(times, from);
      OrderedTail(times);
      var next := After(Some(w), times[0], max, length);
      if times[0] - w.start > length {
        WithinOne(next, times[1..], max, length, from, to);
      } else {
        WithinTwo(next, times[1..], max, length, from, to);
      }
    }
  }

  /** A bucket as calls leave it: never over its maximum, and counting the call that opened it. */
  predicate Used(w: Option<Window>, max: nat) {
    w.Some? ==> w.value.count <= max && (max > 0 ==> w.value.count > 0)
  }

  function Bound(max: nat): nat {
    if max == 0 then 0 else 2 * max - 1
  }

  lemma {:induction false} IntervalBound(w: Option<Window>, times: seq<int>, max: nat, length: int, from: int, to: int)
    requires Ordered(times) && 0 <= length && to - from <= length && Used(w, max)
    ensures AcceptedIn(w, times, max, length, from, to) <= Bound(max)
    decreases |times|
  {
    if times != [] {
      OrderedTail(times);
      var next := After(w, times[0], max, length);
      if times[0] < from {
        IntervalBound(Some(next), times[1..], max, length, from, to);
      } else if w.None? || times[0] - w.value.start > length {
        WithinOne(next, times[1..], max, length, from, to);
      } else {
        TailFrom(times, from);
        WithinTwo(next, times[1..], max, length, from, to);
      }
    }
  }

  /** Over any trace of calls on a bucket, no interval as short as the window has more than 2 max - 1 accepted calls. */
  lemma AtMostTwiceTheMaximum(times: seq<int>, max: nat, length: int, from: int, to: int)
    requires Ordered(times) && 0 <= length && to - from <= length
    ensures AcceptedIn(None, times, max, length, from, to) <= Bound(max) <= 2 * max
  {
    IntervalBound(None, times, max, length, from, to);
  }

  function Repeat(t: int, n: nat): seq<int> {
    if n == 0 then [] else [t] + Repeat(t, n - 1)
  }

  /** `n` calls at one time in a window with space for them, then the rest of the trace. */
  lemma {:induction false} Burst(w: Window, t: int, n: nat, more: seq<int>, max: nat, length: int, from: int, to: int)
    requires t - w.start <= length && w.count + n <= max && from <= t <= to
    ensures AcceptedIn(Some(w), Repeat(t, n) + more, max, length, from, to)
         == n + AcceptedIn(Some(w.(count := w.count + n)), more, max, length, from, to)
    decreases n
  {
    if n == 0 {
      assert Repeat(t, n) + more == more;
    } else {
      var times := Repeat(t, n) + more;
      assert times[0] == t && times[1..] == Repeat(t, n - 1) + more;
      Burst(w.(count := w.count + 1), t, n - 1, more, max, length, from, to);
    }
  }

  /** The bound is reached: a call, the rest of its window at the very end, and a whole window just after. */
  lemma BoundIsReached(max: nat, length: int)
    requires max > 0 && 0 < length
    ensures var times := [0] + (Repeat(length, max - 1) + ([length + 1] + Repeat(length + 1, max - 1)));
            AcceptedIn(None, times, max, length, length, length + 1) == Bound(max)
  {
    var second := [length + 1] + Repeat(length + 1, max - 1);
    var first := Repeat(length, max - 1) + second;
    assert ([0] + first)[1..] == first;
    Burst(Window(1, 0), length, max - 1, second, max, length, length, length + 1);
    assert second[1..] == Repeat(length + 1, max - 1);
    assert Repeat(length + 1, max - 1) + [] == Repeat(length + 1, max - 1);
    Burst(Window(1, length + 1), length + 1, max - 1, [], max, length, length, length + 1);
  }

  const SESSION_CAP: nat := 4096
  const SESSION_MAX: nat := 120
  const SESSION_WINDOW: int := 60 * SECOND
  const UPLOAD_MAX: nat := 60
  const UPLOAD_WINDOW: int := 3600 * SECOND
  const SIGNUP_MAX: nat := 10
  const SIGNUP_WINDOW: int := 3600 * SECOND
  const MESSAGE_WINDOW: int := 60 * SECOND

  type Table = map<string, Window>

  function Find(m: Table, bucket: string): Option<Window> {
    if bucket in m then Some(m[bucket]) else None
  }

  function Registered(m: Table, bucket: string, now: int, max: nat, length: int): Table {
    m[bucket := After(Find(m, bucket), now, max, length)]
  }

  /** The buckets whose window has not elapsed. */
  function Unelapsed(m: Table, now: int): Table {
    map b | b in m && now - m[b].start <= SESSION_WINDOW :: m[b]
  }

  /** The session table before the call's own bucket: swept once it is full. */
  function SweptTable(m: Table, now: int): Table {
    if |m| >= SESSION_CAP then Unelapsed(m, now) else m
  }

  predicate AtCapacity(m: Table, bucket: string, now: int) {
    |m| >= SESSION_CAP && bucket !in SweptTable(m, now) && |SweptTable(m, now)| >= SESSION_CAP
  }

  predicate SessionAccepts(m: Table, bucket: string, now: int) {
    !AtCapacity(m, bucket, now) && Accepts(Find(SweptTable(m, now), bucket), now, SESSION_MAX, SESSION_WINDOW)
  }

  function AfterSession(m: Table, bucket: string, now: int): Table {
    if AtCapacity(m, bucket, now) then SweptTable(m, now)
    else Registered(SweptTable(m, now), bucket, now, SESSION_MAX, SESSION_WINDOW)
  }

  /** The limiter's tables. */
  class RateLimiter {
    var sessions: Table
    var uploads: Table
    var signups: Table
    var messages: Table

    constructor ()
      ensures sessions == map[] && uploads == map[] && signups == map[] && messages == map[]
    {
      sessions, uploads, signups, messages := map[], map[], map[], map[];
    }

    /** `try_register_window` on a table's entry. */
    static method TryRegisterWindow(m: Table, bucket: string, max: nat, length: int, now: int)
      returns (ok: bool, after: Table)
      ensures ok == Accepts(Find(m, bucket), now, max, length)
      ensures after == Registered(m, bucket, now, max, length)
    {
      var w := if bucket in m then m[bucket] else Window(0, now);
      if now - w.start > length {
        w := w.(count := 0, start := now);
      }
      if w.count >= max {
        return false, m[bucket := w];
      }
      w := w.(count := w.count + 1);
      return true, m[bucket := w];
    }

    /** `try_register_upload`. */
    method TryRegisterUpload(key: string, now: int) returns (ok: bool)
      modifies this`uploads
      ensures ok == Accepts(Find(old(uploads), key), now, UPLOAD_MAX, UPLOAD_WINDOW)
      ensures uploads == Registered(old(uploads), key, now, UPLOAD_MAX, UPLOAD_WINDOW)
    {
      ok, uploads := TryRegisterWindow(uploads, key, UPLOAD_MAX, UPLOAD_WINDOW, now);
    }

    /** `try_register_signup`. */
    method TryRegisterSignup(ip: string, now: int) returns (ok: bool)
      modifies this`signups
      ensures ok == Accepts(Find(old(signups), ip), now, SIGNUP_MAX, SIGNUP_WINDOW)
      ensures signups == Registered(old(signups), ip, now, SIGNUP_MAX, SIGNUP_WINDOW)
    {
      ok, signups := TryRegisterWindow(signups, ip, SIGNUP_MAX, SIGNUP_WINDOW, now);
    }

    /** The look of `try_register_session` at its table: sweep it when full, refuse a new bucket while it stays full. */
    method AdmitSession(ip: string, now: int) returns (admitted: bool)
      modifies this`sessions
      ensures sessions == SweptTable(old(sessions), now)
      ensures admitted == !AtCapacity(old(sessions), ip, now)
    {
      if |sessions| >= SESSION_CAP {
        sessions := map b | b in sessions && now - sessions[b].start <= SESSION_WINDOW :: sessions[b];
        if ip !in sessions && |sessions| >= SESSION_CAP {
          return false;
        }
      }
      return true;
    }

    /** `try_register_session`, when nothing comes between the look and the registration. */
    method TryRegisterSession(ip: string, now: int) returns (ok: bool)
      modifies this`sessions
      ensures ok == SessionAccepts(old(sessions), ip, now)
      ensures sessions == AfterSession(old(sessions), ip, now)
    {
      ok := AdmitSession(ip, now);
      if ok {
        ok, sessions := TryRegisterWindow(sessions, ip, SESSION_MAX, SESSION_WINDOW, now);
      }
    }

    /** The look of `get_or_create`. */
    method HasUsage(key: string) returns (found: bool)
      ensures found <==> key in messages
    {
      found := key in messages;
    }

    /** Its insertion of a record made at some time, over whatever is there by now. */
    method InsertUsage(key: string, made: int)
      modifies this`messages
      ensures messages == old(messages)[key := Window(0, made)]
    {
      messages := messages[key := Window(0, made)];
    }

    /** `get_or_create`, when nothing comes between its look and its insertion. */
    method GetOrCreate(key: string, now: int)
      modifies this`messages
      ensures messages == old(messages)[key := if key in old(messages) then old(messages)[key] else Window(0, now)]
    {
      var found := HasUsage(key);
      if !found {
        InsertUsage(key, now);
      }
    }

    /** What `check_message_rate` does with the record: opens the window and says whether there is space. */
    method CheckUsage(key: string, max: nat, now: int) returns (ok: bool)
      requires key in messages
      modifies this`messages
      ensures messages == old(messages)[key := Opened(Some(old(messages)[key]), now, MESSAGE_WINDOW)]
      ensures ok == Accepts(Some(old(messages)[key]), now, max, MESSAGE_WINDOW)
    {
      var w := messages[key];
      if now - w.start > MESSAGE_WINDOW {
        w := w.(start := now);
        w := w.(count := 0);
      }
      messages := messages[key := w];
      ok := w.count < max;
    }

    /** What `increment_message` does with the record. */
    method CountUsage(key: string)
      requires key in messages
      modifies this`messages
      ensures messages == old(messages)[key := old(messages)[key].(count := old(messages)[key].count + 1)]
    {
      messages := messages[key := messages[key].(count := messages[key].count + 1)];
    }

    /** `check_message_rate`, when nothing comes between. */
    method CheckMessageRate(key: string, max: nat, now: int) returns (ok: bool)
      modifies this`messages
      ensures messages == old(messages)[key := Opened(Find(old(messages), key), now, MESSAGE_WINDOW)]
      ensures ok == Accepts(Find(old(messages), key), now, max, MESSAGE_WINDOW)
    {
      GetOrCreate(key, now);
      ok := CheckUsage(key, max, now);
    }

    /** `increment_message`, when nothing comes between. */
    method IncrementMessage(key: string, now: int)
      modifies this`messages
      ensures var w := if key in old(messages) then old(messages)[key] else Window(0, now);
              messages == old(messages)[key := w.(count := w.count + 1)]
    {
      GetOrCreate(key, now);
      CountUsage(key);
    }

    /** A send that nothing comes between: its check and its increment are one registration. */
    method SendMessage(key: string, max: nat, now: int) returns (ok: bool)
      modifies this`messages
      ensures ok == Accepts(Find(old(messages), key), now, max, MESSAGE_WINDOW)
      ensures messages == Registered(old(messages), key, now, max, MESSAGE_WINDOW)
    {
      ok := CheckMessageRate(key, max, now);
      if ok {
        IncrementMessage(key, now);
      }
    }
  }

  datatype Call = Call(ip: string, now: int)

  function RunSessions(m: Table, calls: seq<Call>): Table {
    if calls == [] then m
    else
      var last := calls[|calls| - 1];
      AfterSession(RunSessions(m, calls[..|calls| - 1]), last.ip, last.now)
  }

  lemma SweptSmaller(m: Table, now: int)
    ensures |Unelapsed(m, now)| <= |m| && |SweptTable(m, now)| <= |m|
  {
    var swept := Unelapsed(m, now);
    assert m.Keys == swept.Keys + (m.Keys - swept.Keys);
    assert |m.Keys| == |m| && |swept.Keys| == |swept|;
  }

  /** The unbounded table over the same calls, those refused for capacity left out. */
  function RunUnbounded(m: Table, u: Table, calls: seq<Call>): Table {
    if calls == [] then u
    else
      var init, last := calls[..|calls| - 1], calls[|calls| - 1];
      var before := RunUnbounded(m, u, init);
      if AtCapacity(RunSessions(m, init), last.ip, last.now) then before
      else Registered(before, last.ip, last.now, SESSION_MAX, SESSION_WINDOW)
  }

  /** The bounded table is the unbounded one without some elapsed windows. */
  ghost predicate Mirrors(m: Table, u: Table, now: int) {
    && (forall b <- m :: b in u && u[b] == m[b])
    && (forall b <- u :: b in m || now - u[b].start > SESSION_WINDOW)
  }

  lemma MirrorsStep(m: Table, u: Table, before: int, ip: string, now: int)
    requires Mirrors(m, u, before) && before <= now
    ensures AtCapacity(m, ip, now) ==> Mirrors(AfterSession(m, ip, now), u, now)
    ensures !AtCapacity(m, ip, now) ==>
              && Mirrors(AfterSession(m, ip, now), Registered(u, ip, now, SESSION_MAX, SESSION_WINDOW), now)
              && SessionAccepts(m, ip, now) == Accepts(Find(u, ip), now, SESSION_MAX, SESSION_WINDOW)
  {
    var swept := SweptTable(m, now);
    assert Mirrors(swept, u, now);
    assert Opened(Find(swept, ip), now, SESSION_WINDOW) == Opened(Find(u, ip), now, SESSION_WINDOW);
  }

  predicate CallsOrdered(calls: seq<Call>, from: int) {
    && (forall i :: 0 <= i < |calls| ==> from <= calls[i].now)
    && (forall i, j :: 0 <= i < j < |calls| ==> calls[i].now <= calls[j].now)
  }

  function LastTime(calls: seq<Call>, from: int): int {
    if calls == [] then from else calls[|calls| - 1].now
  }

  lemma {:induction false} MirrorsAlways(m: Table, u: Table, from: int, calls: seq<Call>)
    requires Mirrors(m, u, from) && CallsOrdered(calls, from)
    ensures Mirrors(RunSessions(m, calls), RunUnbounded(m, u, calls), LastTime(calls, from))
    decreases |calls|
  {
    if calls != [] {
      var init, last := calls[..|calls| - 1], calls[|calls| - 1];
      MirrorsAlways(m, u, from, init);
      MirrorsStep(RunSessions(m, init), RunUnbounded(m, u, init), LastTime(init, from), last.ip, last.now);
    }
  }

  /** Whatever came before, a call not refused for capacity is answered as the unbounded table answers it. */
  lemma AnswersAsUnbounded(calls: seq<Call>, from: int, next: Call)
    requires CallsOrdered(calls + [next], from)
    ensures var m, u := RunSessions(map[], calls), RunUnbounded(map[], map[], calls);
            !AtCapacity(m, next.ip, next.now) ==>
              SessionAccepts(m, next.ip, next.now) == Accepts(Find(u, next.ip), next.now, SESSION_MAX, SESSION_WINDOW)
  {
    var all := calls + [next];
    assert forall i :: 0 <= i < |calls| ==> calls[i] == all[i];
    assert all[|calls|] == next;
    MirrorsAlways(map[], map[], from, calls);
    MirrorsStep(RunSessions(map[], calls), RunUnbounded(map[], map[], calls), LastTime(calls, from), next.ip, next.now);
  }
}
