/**
  Calls whose clock moves.  The loop reads the clock anew for every event; whatever it shows, as long as it never
  goes back, a call from a state that a run has reached handles a bounded number of events.
*/
module HeartbeatClock {
  import opened Common
  import opened Heartbeat
  import opened HeartbeatLimits

  ghost predicate Nondecreasing(clock: nat -> nat) { forall i: nat, j: nat | i <= j :: clock(i) <= clock(j) }

  // ---- events up to a given time ----

  function Gap(t: nat, tsc: nat): (n: nat) { if tsc <= t then t + 1 - tsc else 0 }

  /** How far the events of the queue can still be put off without passing time `t`. */
  function Room(q: seq<Event>, t: nat): (n: nat) {
    if q == [] then 0 else Gap(t, q[0].tsc) + Room(q[1..], t)
  }

  lemma {:induction false} RoomAppend(q: seq<Event>, r: seq<Event>, t: nat)
    ensures Room(q + r, t) == Room(q, t) + Room(r, t)
  {
    if q == [] {
      assert q + r == r;
    } else {
      assert (q + r)[1..] == q[1..] + r;
      RoomAppend(q[1..], r, t);
    }
  }

  lemma RoomWithout(q: seq<Event>, i: nat, t: nat)
    requires i < |q|
    ensures Room(RemoveAt(q, i), t) == Room(q, t) - Gap(t, q[i].tsc)
  {
    assert q == q[..i] + ([q[i]] + q[i + 1..]);
    RoomAppend(q[..i], [q[i]] + q[i + 1..], t);
    RoomAppend([q[i]], q[i + 1..], t);
    RoomAppend(q[..i], q[i + 1..], t);
  }

  /** A handled event is dropped or put off. */
  lemma RoomFalls(st: State, timeout: nat, i: nat, now: nat, t: nat)
    requires timeout >= 10 && i < |st.queue| && st.queue[i].tsc <= now && st.queue[i].tsc <= t
    ensures Room(Handle(st, timeout, i, now).queue, t) < Room(st.queue, t)
  {
    var e, rest := st.queue[i], RemoveAt(st.queue, i);
    RoomWithout(st.queue, i, t);
    RoomAppend(rest, Schedule([], timeout, e.kind, e.uri, now), t);
    assert Schedule(rest, timeout, e.kind, e.uri, now) == rest + Schedule([], timeout, e.kind, e.uri, now);
  }

  function Rows(n: nat, t: nat): (r: nat) { if n == 0 then 0 else t + 1 + Rows(n - 1, t) }

  lemma {:induction false} RoomIsBounded(q: seq<Event>, n: nat, t: nat)
    requires |q| <= n
    ensures Room(q, t) <= Rows(n, t)
    decreases n
  {
    if q != [] { RoomIsBounded(q[1..], n - 1, t); }
  }

  // ---- what every turn of a call keeps ----

  predicate AllBefore(q: seq<Event>, t: nat) { forall i :: 0 <= i < |q| ==> q[i].tsc <= t }

  /** No recorded time is later than `t`. */
  predicate RecordedBy(st: State, t: nat) { forall uri :: uri in st.lastRx ==> st.lastRx[uri] <= t }

  ghost predicate Reached(st: State, n: nat, t: nat) { AllPending(st) && RecordedBy(st, t) && |st.queue| <= n }

  lemma TurnKeepsReached(st: State, timeout: nat, i: nat, now: nat, n: nat, t: nat)
    requires Reached(st, n, t) && Enabled(st, Consume(i, now))
    ensures Reached(Handle(st, timeout, i, now), n, t)
  {
    StepKeepsPending(st, timeout, Consume(i, now));
  }

  lemma TurnKeepsBefore(st: State, timeout: nat, i: nat, now: nat, t: nat)
    requires AllBefore(st.queue, t) && i < |st.queue| && now + timeout <= t
    ensures AllBefore(Handle(st, timeout, i, now).queue, t)
  {
    var e, rest := st.queue[i], RemoveAt(st.queue, i);
    forall k | 0 <= k < |rest| ensures rest[k].tsc <= t { assert rest[k] == st.queue[Before(i, k)]; }
  }

  lemma {:induction false} StaysReached(path: seq<State>, picks: seq<nat>, timeout: nat, clock: nat -> nat,
                                        k: nat, n: nat, t: nat)
    requires Walks(path, picks, timeout, clock) && k <= |picks| && Reached(path[0], n, t)
    ensures Reached(path[k], n, t)
  {
    if k > 0 {
      StaysReached(path, picks, timeout, clock, k - 1, n, t);
      assert StepOk(path[k - 1], timeout, Consume(picks[k - 1], clock(k - 1)), path[k]);
      TurnKeepsReached(path[k - 1], timeout, picks[k - 1], clock(k - 1), n, t);
    }
  }

  lemma {:induction false} StaysBefore(path: seq<State>, picks: seq<nat>, timeout: nat, clock: nat -> nat,
                                       k: nat, last: nat, t: nat)
    requires Walks(path, picks, timeout, clock) && Nondecreasing(clock) && k <= |picks| && k <= last
    requires AllBefore(path[0].queue, t) && clock(last) + timeout <= t
    ensures AllBefore(path[k].queue, t)
    decreases k
  {
    if k > 0 {
      StaysBefore(path, picks, timeout, clock, k - 1, last, t);
      assert StepOk(path[k - 1], timeout, Consume(picks[k - 1], clock(k - 1)), path[k]);
      TurnKeepsBefore(path[k - 1], timeout, picks[k - 1], clock(k - 1), t);
    }
  }

  // ---- stretches of a call that handle nothing later than `t` ----

  ghost predicate Capped(path: seq<State>, picks: seq<nat>, a: nat, b: nat, t: nat) {
    a <= b <= |picks| < |path| && forall k :: a <= k < b ==> picks[k] < |path[k].queue| && path[k].queue[picks[k]].tsc <= t
  }

  lemma {:induction false} CappedIsShort(path: seq<State>, picks: seq<nat>, timeout: nat, clock: nat -> nat,
                                         a: nat, b: nat, t: nat)
    requires timeout >= 10 && Walks(path, picks, timeout, clock) && Capped(path, picks, a, b, t)
    ensures b - a + Room(path[b].queue, t) <= Room(path[a].queue, t)
    decreases b - a
  {
    if a < b {
      CappedIsShort(path, picks, timeout, clock, a, b - 1, t);
      assert StepOk(path[b - 1], timeout, Consume(picks[b - 1], clock(b - 1)), path[b]);
      RoomFalls(path[b - 1], timeout, picks[b - 1], clock(b - 1), t);
    }
  }

  /** At most so many turns of a call with `n` events handle nothing later than `t`. */
  lemma CappedLength(path: seq<State>, picks: seq<nat>, timeout: nat, clock: nat -> nat, a: nat, b: nat, n: nat, t: nat)
    requires timeout >= 10 && Walks(path, picks, timeout, clock) && Capped(path, picks, a, b, t) && |path[a].queue| <= n
    ensures b - a <= Rows(n, t)
  {
    CappedIsShort(path, picks, timeout, clock, a, b, t);
    RoomIsBounded(path[a].queue, n, t);
  }

  // ---- when the clock stands or moves but little ----

  lemma EarlyClockCaps(path: seq<State>, picks: seq<nat>, timeout: nat, clock: nat -> nat, t: nat)
    requires Walks(path, picks, timeout, clock) && forall k: nat :: clock(k) <= t
    ensures Capped(path, picks, 0, |picks|, t)
  {
    forall k | 0 <= k < |picks| ensures picks[k] < |path[k].queue| && path[k].queue[picks[k]].tsc <= t {
      assert StepOk(path[k], timeout, Consume(picks[k], clock(k)), path[k + 1]);
    }
  }

  // ---- when every check that is handled reports ----

  predicate PicksCheck(st: State, i: nat) { i < |st.queue| && st.queue[i].kind == Check }

  /** The first check handled from turn `a` on. */
  lemma FirstCheck(path: seq<State>, picks: seq<nat>, a: nat) returns (b: nat)
    requires a <= |picks| < |path|
    ensures a <= b <= |picks| && (forall k :: a <= k < b ==> !PicksCheck(path[k], picks[k]))
    ensures b < |picks| ==> PicksCheck(path[b], picks[b])
  {
    b := a;
    while b < |picks| && !PicksCheck(path[b], picks[b])
      invariant a <= b <= |picks| && forall k :: a <= k < b ==> !PicksCheck(path[k], picks[k])
    {
      b := b + 1;
    }
  }

  lemma OtherStays(st: State, timeout: nat, i: nat, now: nat, e: Event)
    requires e in st.queue && Enabled(st, Consume(i, now)) && st.queue[i] != e
    ensures e in Handle(st, timeout, i, now).queue && st.queue[i].tsc <= e.tsc
  {
    var k :| 0 <= k < |st.queue| && st.queue[k] == e;
    HandledQueue(st, timeout, i, now, k);
  }

  lemma CheckStays(path: seq<State>, picks: seq<nat>, timeout: nat, clock: nat -> nat, k: nat, e: Event)
    requires Walks(path, picks, timeout, clock) && k < |picks| && e in path[k].queue && e.kind == Check
    requires !PicksCheck(path[k], picks[k])
    ensures e in path[k + 1].queue && picks[k] < |path[k].queue| && path[k].queue[picks[k]].tsc <= e.tsc
  {
    assert StepOk(path[k], timeout, Consume(picks[k], clock(k)), path[k + 1]);
    OtherStays(path[k], timeout, picks[k], clock(k), e);
  }

  /** A check that is not handled lets nothing later pass. */
  lemma {:induction false} CheckCaps(path: seq<State>, picks: seq<nat>, timeout: nat, clock: nat -> nat,
                                     a: nat, b: nat, e: Event)
    requires Walks(path, picks, timeout, clock) && a <= b <= |picks| && e in path[a].queue && e.kind == Check
    requires forall k :: a <= k < b ==> !PicksCheck(path[k], picks[k])
    ensures e in path[b].queue && Capped(path, picks, a, b, e.tsc)
    decreases b - a
  {
    if a < b {
      CheckCaps(path, picks, timeout, clock, a, b - 1, e);
      CheckStays(path, picks, timeout, clock, b - 1, e);
    }
  }

  lemma {:induction false} OrphanCaps(path: seq<State>, picks: seq<nat>, timeout: nat, clock: nat -> nat,
                                      a: nat, b: nat, uri: Uri, tsc: nat)
    requires Walks(path, picks, timeout, clock) && a <= b <= |picks| && Orphan(path[a], uri, tsc)
    ensures Orphan(path[b], uri, tsc) && Capped(path, picks, a, b, tsc)
    decreases b - a
  {
    if a < b {
      OrphanCaps(path, picks, timeout, clock, a, b - 1, uri, tsc);
      assert StepOk(path[b - 1], timeout, Consume(picks[b - 1], clock(b - 1)), path[b]);
      OrphanStays(path[b - 1], timeout, Consume(picks[b - 1], clock(b - 1)), uri, tsc);
    }
  }

  /** Long after tracking began a handled check reports its remote and strands its send. */
  lemma LateCheckStrands(st: State, timeout: nat, i: nat, now: nat, n: nat, t: nat, last: nat) returns (tsc: nat)
    requires Reached(st, n, t) && Enabled(st, Consume(i, now)) && st.queue[i].kind == Check && now > t + timeout
    requires AllBefore(st.queue, last)
    ensures Orphan(Handle(st, timeout, i, now), st.queue[i].uri, tsc) && tsc <= last
  {
    var uri := st.queue[i].uri;
    assert Pending(st.queue, Send, uri);
    var k :| 0 <= k < |st.queue| && st.queue[k].kind == Send && st.queue[k].uri == uri;
    tsc := st.queue[k].tsc;
    HandledQueue(st, timeout, i, now, k);
  }

  lemma CapsAreMonotone(path: seq<State>, picks: seq<nat>, a: nat, b: nat, t: nat, u: nat)
    requires Capped(path, picks, a, b, t) && t <= u
    ensures Capped(path, picks, a, b, u)
  {
  }

  /** From turn `a` on, when checks report: until the first check is handled. */
  lemma UntilFirstCheck(path: seq<State>, picks: seq<nat>, timeout: nat, clock: nat -> nat,
                        a: nat, b: nat, n: nat, t: nat, soon: nat)
    requires timeout >= 10 && Walks(path, picks, timeout, clock) && a < |picks| && a <= b <= |picks|
    requires Reached(path[a], n, t) && AllBefore(path[a].queue, soon)
    requires forall k :: a <= k < b ==> !PicksCheck(path[k], picks[k])
    ensures b - a <= Rows(n, soon)
  {
    assert StepOk(path[a], timeout, Consume(picks[a], clock(a)), path[a + 1]);
    var q, uri := path[a].queue, path[a].queue[picks[a]].uri;
    assert Pending(q, Check, uri);
    var i :| 0 <= i < |q| && q[i].kind == Check && q[i].uri == uri;
    CheckCaps(path, picks, timeout, clock, a, b, q[i]);
    CapsAreMonotone(path, picks, a, b, q[i].tsc, soon);
    CappedLength(path, picks, timeout, clock, a, b, n, soon);
  }

  /** And from there to the end of the call. */
  lemma AfterFirstCheck(path: seq<State>, picks: seq<nat>, timeout: nat, clock: nat -> nat,
                        b: nat, n: nat, t: nat, last: nat)
    requires timeout >= 10 && Walks(path, picks, timeout, clock) && b < |picks| && PicksCheck(path[b], picks[b])
    requires Reached(path[b], n, t) && clock(b) > t + timeout && AllBefore(path[b].queue, last)
    ensures |picks| - (b + 1) <= Rows(n, last)
  {
    assert StepOk(path[b], timeout, Consume(picks[b], clock(b)), path[b + 1]);
    var tsc := LateCheckStrands(path[b], timeout, picks[b], clock(b), n, t, last);
    OrphanCaps(path, picks, timeout, clock, b + 1, |picks|, path[b].queue[picks[b]].uri, tsc);
    CapsAreMonotone(path, picks, b + 1, |picks|, tsc, last);
    TurnKeepsReached(path[b], timeout, picks[b], clock(b), n, t);
    CappedLength(path, picks, timeout, clock, b + 1, |picks|, n, last);
  }

  /** The clock leaves all recorded times behind at turn `a`. */
  lemma LateClockBounds(path: seq<State>, picks: seq<nat>, timeout: nat, clock: nat -> nat,
                        a: nat, n: nat, t: nat, soon: nat, last: nat)
    requires timeout >= 10 && Walks(path, picks, timeout, clock) && Nondecreasing(clock) && Reached(path[0], n, t)
    requires clock(a) > t + timeout && AllBefore(path[0].queue, soon) && clock(a) + timeout <= soon <= last
    requires clock(a + Rows(n, soon)) + timeout <= last
    ensures |picks| <= a + Rows(n, soon) + 1 + Rows(n, last)
  {
    if a < |picks| {
      StaysReached(path, picks, timeout, clock, a, n, t);
      StaysBefore(path, picks, timeout, clock, a, a, soon);
      var b := FirstCheck(path, picks, a);
      UntilFirstCheck(path, picks, timeout, clock, a, b, n, t, soon);
      if b < |picks| {
        StaysReached(path, picks, timeout, clock, b, n, t);
        StaysBefore(path, picks, timeout, clock, b, a + Rows(n, soon), last);
        AfterFirstCheck(path, picks, timeout, clock, b, n, t, last);
      }
    }
  }

  // ---- the result ----

  function Latest(q: seq<Event>): (t: nat) {
    if q == [] then 0 else if Latest(q[1..]) >= q[0].tsc then Latest(q[1..]) else q[0].tsc
  }

  lemma {:induction false} LatestIsLast(q: seq<Event>)
    ensures AllBefore(q, Latest(q))
  {
    if q != [] {
      LatestIsLast(q[1..]);
      forall i | 0 <= i < |q| ensures q[i].tsc <= Latest(q) { if i > 0 { assert q[i] == q[1..][i - 1]; } }
    }
  }

  function Max(a: nat, b: nat): (m: nat) { if a >= b then a else b }

  lemma MovingClockBounds(st: State, timeout: nat, clock: nat -> nat, t: nat) returns (bound: nat)
    requires timeout >= 10 && Nondecreasing(clock) && AllPending(st) && RecordedBy(st, t)
    ensures BoundedBy(st, timeout, clock, bound)
  {
    var n := |st.queue|;
    if forall k: nat :: clock(k) <= t + timeout {
      bound := Rows(n, t + timeout);
      forall path, picks | Walks(path, picks, timeout, clock) && path[0] == st ensures |picks| <= bound {
        EarlyClockCaps(path, picks, timeout, clock, t + timeout);
        CappedLength(path, picks, timeout, clock, 0, |picks|, n, t + timeout);
      }
    } else {
      var a: nat :| clock(a) > t + timeout;
      LatestIsLast(st.queue);
      var soon := Max(Latest(st.queue), clock(a) + timeout);
      var last := Max(soon, clock(a + Rows(n, soon)) + timeout);
      bound := a + Rows(n, soon) + 1 + Rows(n, last);
      forall path, picks | Walks(path, picks, timeout, clock) && path[0] == st ensures |picks| <= bound {
        LateClockBounds(path, picks, timeout, clock, a, n, t, soon, last);
      }
    }
  }

  /** The clock goes on from where the run has left it. */
  ghost predicate GoesOn(r: Run, clock: nat -> nat) {
    Nondecreasing(clock) && (r.steps != [] ==> r.steps[|r.steps| - 1].now <= clock(0))
  }

  lemma RecordedInRun(r: Run, t: nat)
    requires IsRun(r) && (r.steps != [] ==> r.steps[|r.steps| - 1].now <= t)
    ensures RecordedBy(Last(r), t)
  {
    forall uri | uri in Last(r).lastRx ensures Last(r).lastRx[uri] <= t {
      var j := TrackingBegan(r, |r.states| - 1, uri);
      assert r.steps[j].now <= r.steps[|r.steps| - 1].now;
    }
  }

  /** A call made after the run, with this clock, is sure to end. */
  ghost predicate EndsAfter(r: Run, clock: nat -> nat)
    requires |r.states| > 0
  {
    exists bound: nat :: BoundedBy(Last(r), r.timeout, clock, bound)
  }

  ghost predicate CallsEndAfterAllRuns(timeout: nat) {
    forall r: Run, clock: nat -> nat | IsRun(r) && r.timeout == timeout && GoesOn(r, clock) :: EndsAfter(r, clock)
  }

  lemma StillClockStalls(timeout: nat)
    requires timeout < 10
    ensures !CallsEndAfterAllRuns(timeout)
  {
    ShortTimeoutStalls(timeout);
    var empty := State([], map[]);
    var r := Run(timeout, [empty, AddRemote(empty, timeout, "a", 0), JustSent(timeout)], [Add("a", 0), Consume(0, 0)]);
    var clock: nat -> nat := _ => 0;
    assert IsRun(r) && GoesOn(r, clock);
    forall bound: nat ensures !BoundedBy(Last(r), timeout, clock, bound) {
      var path, picks := seq(bound + 2, _ => JustSent(timeout)), seq(bound + 1, _ => 1);
      assert Walks(path, picks, timeout, clock);
    }
    assert !EndsAfter(r, clock);
  }

  /**
    A call of the loop is sure to end, after every run and under every clock that does not go back, if and only
    if the timeout is at least ten cycles.
  */
  lemma CallsEndAfterAllRunsIff(timeout: nat)
    ensures CallsEndAfterAllRuns(timeout) <==> timeout >= 10
  {
    if timeout >= 10 {
      forall r: Run, clock: nat -> nat | IsRun(r) && r.timeout == timeout && GoesOn(r, clock) ensures EndsAfter(r, clock) {
        RunKeepsPending(r, |r.states| - 1);
        RecordedInRun(r, clock(0));
        var bound := MovingClockBounds(Last(r), timeout, clock, clock(0));
        assert BoundedBy(Last(r), r.timeout, clock, bound);
      }
    } else {
      StillClockStalls(timeout);
    }
  }
}
