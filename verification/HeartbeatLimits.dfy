/**
  What the heartbeat loop promises and what it does not: when a call is sure to end, when it handles all that is
  due, what an event of a remote that is no longer tracked holds up, and what receiving heartbeats is worth.
*/
module HeartbeatLimits {
  import opened Common
  import opened Heartbeat

  /** What one call consumes, event after event, when the clock shows `now` throughout. */
  ghost predicate Called(path: seq<State>, picks: seq<nat>, timeout: nat, now: nat) {
    && |path| == |picks| + 1
    && forall k :: 0 <= k < |picks| ==> StepOk(path[k], timeout, Consume(picks[k], now), path[k + 1])
  }

  // ---- when a call is sure to end ----

  lemma {:induction false} CallCountsDown(path: seq<State>, picks: seq<nat>, timeout: nat, now: nat, k: nat)
    requires timeout >= 10 && Called(path, picks, timeout, now) && k <= |picks|
    ensures Due(path[k].queue, now) == Due(path[0].queue, now) - k
  {
    if k > 0 {
      CallCountsDown(path, picks, timeout, now, k - 1);
      assert StepOk(path[k - 1], timeout, Consume(picks[k - 1], now), path[k]);
      HandleMakesProgress(path[k - 1], timeout, picks[k - 1], now);
    }
  }

  /** Every call from this state handles at most that many events. */
  ghost predicate Bounded(st: State, timeout: nat, now: nat, bound: nat) {
    forall path, picks | Called(path, picks, timeout, now) && path[0] == st :: |picks| <= bound
  }

  ghost predicate Ends(st: State, timeout: nat, now: nat) { exists bound: nat :: Bounded(st, timeout, now, bound) }

  ghost predicate EveryCallEnds(timeout: nat) { forall st: State, now: nat :: Ends(st, timeout, now) }

  /** A remote has just been added and its first heartbeat sent, all at time zero. */
  function JustSent(timeout: nat): (st: State) {
    State([Event(Check, "a", CheckDelta(timeout)), Event(Send, "a", 0)], map["a" := 0])
  }

  /** With a timeout below ten cycles that state is reachable, and handling the send leads back to it. */
  lemma ShortTimeoutStalls(timeout: nat)
    requires timeout < 10
    ensures var r := Run(timeout, [State([], map[]), AddRemote(State([], map[]), timeout, "a", 0), JustSent(timeout)],
                         [Add("a", 0), Consume(0, 0)]); IsRun(r)
    ensures StepOk(JustSent(timeout), timeout, Consume(1, 0), JustSent(timeout))
  {
    var empty := State([], map[]);
    var added := AddRemote(empty, timeout, "a", 0);
    assert added.queue == [Event(Send, "a", 0), Event(Check, "a", CheckDelta(timeout))];
    assert RemoveAt(added.queue, 0) == [Event(Check, "a", CheckDelta(timeout))];
    assert RemoveAt(JustSent(timeout).queue, 1) == [Event(Check, "a", CheckDelta(timeout))];
  }

  /** Every call is sure to end, from every state and at every time, if and only if the timeout is at least ten. */
  lemma EveryCallEndsIff(timeout: nat)
    ensures EveryCallEnds(timeout) <==> timeout >= 10
  {
    if timeout >= 10 {
      forall st: State, now: nat ensures Ends(st, timeout, now) {
        forall path, picks | Called(path, picks, timeout, now) && path[0] == st ensures |picks| <= Due(st.queue, now) {
          CallCountsDown(path, picks, timeout, now, |picks|);
        }
        assert Bounded(st, timeout, now, Due(st.queue, now));
      }
    } else {
      ShortTimeoutStalls(timeout);
      forall bound: nat ensures !Bounded(JustSent(timeout), timeout, 0, bound) {
        var path, picks := seq(bound + 2, _ => JustSent(timeout)), seq(bound + 1, _ => 1);
        assert Called(path, picks, timeout, 0);
      }
      assert !Ends(JustSent(timeout), timeout, 0);
    }
  }

  // ---- what one call leaves undone ----

  predicate IsDue(st: State, i: nat, now: nat) { i < |st.queue| && st.queue[i].tsc <= now }

  /** A check of the remote would report it. */
  predicate Late(st: State, timeout: nat, uri: Uri, now: nat) {
    uri in st.lastRx && Elapsed(now, st.lastRx[uri]) > timeout
  }

  /** The i-th event is a check that reports its remote while the j-th, of the same remote, is still queued. */
  ghost predicate Strands(st: State, timeout: nat, now: nat, i: nat, j: nat) {
    && i != j && IsDue(st, i, now) && IsDue(st, j, now) && st.queue[i].kind == Check
    && st.queue[i].uri == st.queue[j].uri && Late(st, timeout, st.queue[i].uri, now)
    && st.queue[i].tsc <= st.queue[j].tsc
  }

  /** No due event belongs to an untracked remote, and none will when its remote is reported. */
  ghost predicate Clear(st: State, timeout: nat, now: nat) {
    && (forall i: nat :: IsDue(st, i, now) ==> st.queue[i].uri in st.lastRx)
    && (forall i: nat, j: nat :: !Strands(st, timeout, now, i, j))
  }

  /** Where the k-th event is once the i-th has been taken out. */
  function After(i: nat, k: nat): (m: nat)
    requires k != i
  {
    if k < i then k else k - 1
  }

  function Before(i: nat, m: nat): (k: nat)
    ensures k != i && After(i, k) == m
  {
    if m < i then m else m + 1
  }

  /** The events after handling one: the others where they were, and perhaps a new one that is not due. */
  lemma HandledQueue(st: State, timeout: nat, i: nat, now: nat, k: nat)
    requires i < |st.queue| && k < |st.queue| && k != i
    ensures After(i, k) < |Handle(st, timeout, i, now).queue|
    ensures Handle(st, timeout, i, now).queue[After(i, k)] == st.queue[k]
  {
  }

  lemma DueWasDue(st: State, timeout: nat, i: nat, now: nat, m: nat)
    requires timeout >= 10 && i < |st.queue| && IsDue(Handle(st, timeout, i, now), m, now)
    ensures IsDue(st, Before(i, m), now) && Handle(st, timeout, i, now).queue[m] == st.queue[Before(i, m)]
  {
    var rest := RemoveAt(st.queue, i);
    if m < |rest| { HandledQueue(st, timeout, i, now, Before(i, m)); }
  }

  lemma HandleStaysClear(st: State, timeout: nat, i: nat, now: nat)
    requires timeout >= 10 && Clear(st, timeout, now) && Enabled(st, Consume(i, now))
    ensures Clear(Handle(st, timeout, i, now), timeout, now)
  {
    var st' := Handle(st, timeout, i, now);
    forall m: nat | IsDue(st', m, now) ensures st'.queue[m].uri in st'.lastRx {
      DueWasDue(st, timeout, i, now, m);
      assert !Strands(st, timeout, now, i, Before(i, m));
    }
    forall m: nat, l: nat ensures !Strands(st', timeout, now, m, l) {
      if Strands(st', timeout, now, m, l) {
        DueWasDue(st, timeout, i, now, m);
        DueWasDue(st, timeout, i, now, l);
        assert Strands(st, timeout, now, Before(i, m), Before(i, l));
      }
    }
  }

  lemma {:induction false} NothingDue(q: seq<Event>, now: nat)
    ensures Due(q, now) == 0 <==> forall k :: 0 <= k < |q| ==> q[k].tsc > now
  {
    if q != [] {
      NothingDue(q[1..], now);
      assert forall k :: 1 <= k < |q| ==> q[k] == q[1..][k - 1];
    }
  }

  lemma {:induction false} CallStaysClear(path: seq<State>, picks: seq<nat>, timeout: nat, now: nat, k: nat)
    requires timeout >= 10 && Called(path, picks, timeout, now) && k <= |picks| && Clear(path[0], timeout, now)
    ensures Clear(path[k], timeout, now)
  {
    if k > 0 {
      CallStaysClear(path, picks, timeout, now, k - 1);
      assert StepOk(path[k - 1], timeout, Consume(picks[k - 1], now), path[k]);
      HandleStaysClear(path[k - 1], timeout, picks[k - 1], now);
    }
  }

  /** The call went from `st` as far as the loop goes and left something that was due. */
  ghost predicate LeavesDue(st: State, path: seq<State>, picks: seq<nat>, timeout: nat, now: nat) {
    Called(path, picks, timeout, now) && path[0] == st && Stops(path[|picks|], now) && Due(path[|picks|].queue, now) > 0
  }

  ghost predicate MayLeaveDue(st: State, timeout: nat, now: nat) {
    exists path, picks :: LeavesDue(st, path, picks, timeout, now)
  }

  lemma StoppedDue(st: State, timeout: nat, now: nat, k: nat)
    requires Stops(st, now) && IsDue(st, k, now)
    ensures MayLeaveDue(st, timeout, now)
  {
    NothingDue(st.queue, now);
    assert LeavesDue(st, [st], [], timeout, now);
  }

  lemma LaterLeavesDue(st: State, timeout: nat, i: nat, now: nat)
    requires Enabled(st, Consume(i, now)) && MayLeaveDue(Handle(st, timeout, i, now), timeout, now)
    ensures MayLeaveDue(st, timeout, now)
  {
    var path, picks :| LeavesDue(Handle(st, timeout, i, now), path, picks, timeout, now);
    var path', picks' := [st] + path, [i] + picks;
    forall k | 0 <= k < |picks'| ensures StepOk(path'[k], timeout, Consume(picks'[k], now), path'[k + 1]) {
      if k > 0 { assert StepOk(path[k - 1], timeout, Consume(picks[k - 1], now), path[k]); }
    }
    assert LeavesDue(st, path', picks', timeout, now);
  }

  lemma {:induction false} SomeTop(q: seq<Event>) returns (i: nat)
    requires q != []
    ensures OnTop(q, i)
  {
    if |q| == 1 {
      i := 0;
    } else {
      var j := SomeTop(q[1..]);
      i := if q[0].tsc <= q[j + 1].tsc then 0 else j + 1;
      forall k | 0 <= k < |q| ensures q[i].tsc <= q[k].tsc {
        if k > 0 { assert q[k] == q[1..][k - 1]; }
      }
    }
  }

  /** A due event of an untracked remote stays, however the call goes. */
  lemma {:induction false} OrphanIsLeft(st: State, timeout: nat, now: nat, k: nat)
    requires timeout >= 10 && IsDue(st, k, now) && st.queue[k].uri !in st.lastRx
    ensures MayLeaveDue(st, timeout, now)
    decreases Due(st.queue, now)
  {
    var i := SomeTop(st.queue);
    if st.queue[i].uri !in st.lastRx {
      StoppedDue(st, timeout, now, k);
    } else {
      HandledQueue(st, timeout, i, now, k);
      HandleMakesProgress(st, timeout, i, now);
      OrphanIsLeft(Handle(st, timeout, i, now), timeout, now, After(i, k));
      LaterLeavesDue(st, timeout, i, now);
    }
  }

  /** Among events of equal time the queue may prefer the check, and then the other event is left. */
  lemma {:induction false} StrandedIsLeft(st: State, timeout: nat, now: nat, i: nat, j: nat)
    requires timeout >= 10 && Strands(st, timeout, now, i, j)
    ensures MayLeaveDue(st, timeout, now)
    decreases Due(st.queue, now)
  {
    var top := SomeTop(st.queue);
    var k := if top == j then i else top;
    assert OnTop(st.queue, k);
    if st.queue[k].uri !in st.lastRx {
      StoppedDue(st, timeout, now, k);
    } else {
      var st' := Handle(st, timeout, k, now);
      HandledQueue(st, timeout, k, now, j);
      HandleMakesProgress(st, timeout, k, now);
      if st.queue[j].uri !in st'.lastRx {
        OrphanIsLeft(st', timeout, now, After(k, j));
      } else {
        HandledQueue(st, timeout, k, now, i);
        StrandedIsLeft(st', timeout, now, After(k, i), After(k, j));
      }
      LaterLeavesDue(st, timeout, k, now);
    }
  }

  /**
    Every call handles everything that is due, however equal times are ordered, if and only if before the call
    no due event belongs to an untracked remote and no remote that is late has a due check with another due
    event of its own at the same time or later.
  */
  lemma CallHandlesAllDueIff(st: State, timeout: nat, now: nat)
    requires timeout >= 10
    ensures !MayLeaveDue(st, timeout, now) <==> Clear(st, timeout, now)
  {
    if Clear(st, timeout, now) {
      forall path, picks ensures !LeavesDue(st, path, picks, timeout, now) {
        if LeavesDue(st, path, picks, timeout, now) {
          CallStaysClear(path, picks, timeout, now, |picks|);
          StoppedClear(path[|picks|], timeout, now);
        }
      }
    } else if i: nat :| IsDue(st, i, now) && st.queue[i].uri !in st.lastRx {
      OrphanIsLeft(st, timeout, now, i);
    } else {
      var i: nat, j: nat :| Strands(st, timeout, now, i, j);
      StrandedIsLeft(st, timeout, now, i, j);
    }
  }

  lemma StoppedClear(st: State, timeout: nat, now: nat)
    requires Clear(st, timeout, now) && Stops(st, now)
    ensures Due(st.queue, now) == 0
  {
    NothingDue(st.queue, now);
    if st.queue != [] {
      var i: nat :| OnTop(st.queue, i) && (st.queue[i].tsc > now || st.queue[i].uri !in st.lastRx);
      assert !IsDue(st, i, now);
    }
  }

  // ---- heartbeats do not count ----

  /** With a timeout of 10: "a" is tracked from time 0 and its send is handled at time 11. */
  lemma SentOnce() returns (r: Run)
    ensures IsRun(r) && r.timeout == 10 && |r.steps| == 2 && r.steps[1].now == 11
    ensures Last(r) == State([Event(Check, "a", 5), Event(Send, "a", 12)], map["a" := 0])
  {
    r := RunOn(Run(10, [State([], map[])], []), Add("a", 0));
    var s1 := State([Event(Send, "a", 1), Event(Check, "a", 5)], map["a" := 0]);
    assert Last(r).queue == s1.queue && Last(r) == s1;
    assert RemoveAt(s1.queue, 0) == [Event(Check, "a", 5)];
    r := RunOn(r, Consume(0, 11));
  }

  /** A remote heard from at time 11 is reported failed at time 11, with a timeout of 10. */
  lemma LiveRemoteIsReported() returns (r: Run)
    ensures IsRun(r) && r.timeout == 10 && |r.steps| == 4
    ensures r.steps[2] == Receive("a", 11) && r.steps[3].now == 11 && Reports(r.states[3], 10, r.steps[3], "a")
  {
    r := SentOnce();
    var s2 := Last(r);
    r := RunOn(r, Receive("a", 11));
    assert Last(r) == s2;
    r := RunOn(r, Consume(0, 11));
  }

  // ---- what stopping at an untracked event leads to ----

  /** A report leaves the remote's next send event behind in the queue. */
  lemma FailureLeavesOrphan(r: Run, i: nat, uri: Uri) returns (tsc: nat)
    requires IsRun(r) && i < |r.steps| && Reports(r.states[i], r.timeout, r.steps[i], uri)
    ensures Event(Send, uri, tsc) in r.states[i + 1].queue && Orphan(r.states[i + 1], uri, tsc)
  {
    RunKeepsPending(r, i);
    assert StepOk(r.states[i], r.timeout, r.steps[i], r.states[i + 1]);
    WithoutKeeps(r.states[i].queue, r.steps[i].i, Send, uri);
    var q := r.states[i + 1].queue;
    var k :| 0 <= k < |q| && q[k].kind == Send && q[k].uri == uri;
    tsc := q[k].tsc;
    assert q[k] == Event(Send, uri, tsc);
  }

  /** The least time in the queue belongs to an untracked remote only. */
  ghost predicate Blocked(st: State, uri: Uri, tsc: nat) {
    && uri !in st.lastRx
    && (exists k :: 0 <= k < |st.queue| && st.queue[k].uri == uri && st.queue[k].tsc == tsc)
    && (forall k :: 0 <= k < |st.queue| ==> st.queue[k].uri == uri || st.queue[k].tsc > tsc)
  }

  lemma BlockedStays(st: State, timeout: nat, e: Step, uri: Uri, tsc: nat)
    requires Blocked(st, uri, tsc) && Enabled(st, e) && timeout >= 10 && e.now >= tsc && !(e.Add? && e.uri == uri)
    ensures Blocked(Exec(st, timeout, e), uri, tsc) && !e.Consume?
  {
    var k :| 0 <= k < |st.queue| && st.queue[k].uri == uri && st.queue[k].tsc == tsc;
    var st' := Exec(st, timeout, e);
    if e.Add? { assert st'.queue[k] == st.queue[k]; }
  }

  /**
    Once the least event belongs to an untracked remote, nothing is consumed any more, whatever else is due,
    until that remote is added again.
  */
  lemma {:induction false} BlockedQueueStandsStill(r: Run, i: nat, j: nat, uri: Uri, tsc: nat)
    requires IsRun(r) && r.timeout >= 10 && i <= j < |r.states| && Blocked(r.states[i], uri, tsc)
    requires forall k :: i <= k < j ==> r.steps[k].now >= tsc && !(r.steps[k].Add? && r.steps[k].uri == uri)
    ensures Blocked(r.states[j], uri, tsc) && forall k :: i <= k < j ==> !r.steps[k].Consume?
    decreases j - i
  {
    if i < j {
      BlockedQueueStandsStill(r, i, j - 1, uri, tsc);
      assert StepOk(r.states[j - 1], r.timeout, r.steps[j - 1], r.states[j]);
      BlockedStays(r.states[j - 1], r.timeout, r.steps[j - 1], uri, tsc);
    }
  }

  /** The remote is untracked and an event of its own, of time `tsc`, is queued. */
  ghost predicate Orphan(st: State, uri: Uri, tsc: nat) {
    uri !in st.lastRx && exists k :: 0 <= k < |st.queue| && st.queue[k].uri == uri && st.queue[k].tsc == tsc
  }

  lemma OrphanStays(st: State, timeout: nat, e: Step, uri: Uri, tsc: nat)
    requires Orphan(st, uri, tsc) && Enabled(st, e) && !(e.Add? && e.uri == uri)
    ensures Orphan(Exec(st, timeout, e), uri, tsc)
    ensures e.Consume? ==> st.queue[e.i].tsc <= tsc
  {
    var k :| 0 <= k < |st.queue| && st.queue[k].uri == uri && st.queue[k].tsc == tsc;
    var st' := Exec(st, timeout, e);
    match e
    case Add(_, _) => assert st'.queue[k] == st.queue[k];
    case Receive(_, _) =>
    case Consume(i, now) => HandledQueue(st, timeout, i, now, k);
  }

  /**
    In every run, from an orphaned event of time `tsc` until its remote is added again, only events of at most
    that time are handled.
  */
  lemma {:induction false} OrphanCapsQueue(r: Run, i: nat, j: nat, uri: Uri, tsc: nat)
    requires IsRun(r) && i <= j < |r.states| && Orphan(r.states[i], uri, tsc)
    requires forall k :: i <= k < j ==> !(r.steps[k].Add? && r.steps[k].uri == uri)
    ensures Orphan(r.states[j], uri, tsc)
    ensures forall k :: i <= k < j && r.steps[k].Consume? ==>
      r.steps[k].i < |r.states[k].queue| && r.states[k].queue[r.steps[k].i].tsc <= tsc
    decreases j - i
  {
    if i < j {
      OrphanCapsQueue(r, i, j - 1, uri, tsc);
      assert StepOk(r.states[j - 1], r.timeout, r.steps[j - 1], r.states[j]);
      OrphanStays(r.states[j - 1], r.timeout, r.steps[j - 1], uri, tsc);
    }
  }

  /** And its check, handled next, reports it. */
  lemma ReportedOnce() returns (r: Run)
    ensures IsRun(r) && r.timeout == 10 && |r.steps| == 3 && r.steps[2].now == 11
    ensures Reports(r.states[2], 10, r.steps[2], "a") && Last(r) == State([Event(Send, "a", 12)], map[])
  {
    r := SentOnce();
    assert RemoveAt(Last(r).queue, 0) == [Event(Send, "a", 12)];
    r := RunOn(r, Consume(0, 11));
  }

  /** A run that ends blocked: "a" has been reported, "b" is tracked, its events come after the one "a" left. */
  lemma BlockedIsReachable() returns (r: Run)
    ensures IsRun(r) && r.timeout == 10 && |r.steps| == 4
    ensures Blocked(r.states[4], "a", 12) && "b" in r.states[4].lastRx && Event(Check, "b", 17) in r.states[4].queue
    ensures forall i: nat, now: nat :: !Enabled(r.states[4], Consume(i, now))
  {
    r := ReportedOnce();
    r := RunOn(r, Add("b", 12));
    assert Last(r).queue == [Event(Send, "a", 12), Event(Send, "b", 13), Event(Check, "b", 17)];
    assert Last(r).queue[0].tsc == 12 && Last(r).queue[2] == Event(Check, "b", 17);
  }

  /** A due event of the untracked remote is on top. */
  ghost predicate InTheWay(st: State, uri: Uri, now: nat) {
    uri !in st.lastRx && exists m: nat :: OnTop(st.queue, m) && st.queue[m].uri == uri && st.queue[m].tsc <= now
  }

  /** A step at time `now` that handles an event or adds the remote that is in the way. */
  ghost predicate Helps(st: State, e: Step, now: nat) {
    e.now == now && (e.Consume? || (e.Add? && InTheWay(st, e.uri, now)))
  }

  /** `r'` goes on from `r` with such steps only. */
  ghost predicate Continues(r: Run, r': Run, now: nat) {
    && IsRun(r) && IsRun(r') && r'.timeout == r.timeout && r.states <= r'.states && r.steps <= r'.steps
    && forall k :: |r.steps| <= k < |r'.steps| ==> Helps(r'.states[k], r'.steps[k], now)
  }

  lemma AddIsNotDue(st: State, timeout: nat, uri: Uri, now: nat)
    requires timeout >= 10
    ensures Due(AddRemote(st, timeout, uri, now).queue, now) == Due(st.queue, now)
  {
    var q1 := Schedule(st.queue, timeout, Send, uri, now);
    DueAppend(st.queue, Schedule([], timeout, Send, uri, now), now);
    assert q1 == st.queue + Schedule([], timeout, Send, uri, now);
    DueAppend(q1, Schedule([], timeout, Check, uri, now), now);
    assert Schedule(q1, timeout, Check, uri, now) == q1 + Schedule([], timeout, Check, uri, now);
  }

  /** Handles what is on top, after adding its remote if need be. */
  lemma HandleTop(r: Run, now: nat) returns (r': Run)
    requires IsRun(r) && r.timeout >= 10 && (r.steps != [] ==> r.steps[|r.steps| - 1].now <= now)
    requires Due(Last(r).queue, now) > 0
    ensures Continues(r, r', now) && r'.steps[|r'.steps| - 1].now == now
    ensures Due(Last(r').queue, now) == Due(Last(r).queue, now) - 1
  {
    var st, tracked := Last(r), r;
    NothingDue(st.queue, now);
    var i := SomeTop(st.queue);
    if st.queue[i].uri !in st.lastRx {
      tracked := RunOn(r, Add(st.queue[i].uri, now));
      AddIsNotDue(st, r.timeout, st.queue[i].uri, now);
      TopStays(st, r.timeout, st.queue[i].uri, now, i);
      assert InTheWay(st, st.queue[i].uri, now);
    }
    HandleMakesProgress(Last(tracked), r.timeout, i, now);
    r' := RunOn(tracked, Consume(i, now));
  }

  lemma ContinuesOn(r: Run, next: Run, r': Run, now: nat)
    requires Continues(r, next, now) && Continues(next, r', now)
    ensures Continues(r, r', now)
  {
    forall k | |r.steps| <= k < |next.steps| ensures Helps(r'.states[k], r'.steps[k], now) {
      assert Helps(next.states[k], next.steps[k], now);
    }
  }

  /**
    And adding again is all it takes: from the end of every run, at any later time, adding remotes whose events
    are in the way and handling what is on top leads to a state in which nothing is due any more.
  */
  lemma {:induction false} ReAddingUnblocks(r: Run, now: nat) returns (r': Run)
    requires IsRun(r) && r.timeout >= 10 && (r.steps != [] ==> r.steps[|r.steps| - 1].now <= now)
    ensures Continues(r, r', now) && Due(Last(r').queue, now) == 0
    decreases Due(Last(r).queue, now)
  {
    if Due(Last(r).queue, now) == 0 {
      r' := r;
    } else {
      var next := HandleTop(r, now);
      r' := ReAddingUnblocks(next, now);
      ContinuesOn(r, next, r', now);
    }
  }

  lemma TopStays(st: State, timeout: nat, uri: Uri, now: nat, i: nat)
    requires OnTop(st.queue, i) && st.queue[i].tsc <= now
    ensures OnTop(AddRemote(st, timeout, uri, now).queue, i)
    ensures AddRemote(st, timeout, uri, now).queue[i] == st.queue[i]
  {
  }
}
