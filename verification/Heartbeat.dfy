/**
  The heartbeat manager: a time-ordered queue of send and check events and the set of tracked remotes.
  Modelled as written: recording a heartbeat never overwrites an existing time, and a due event of a
  remote that is no longer tracked stops the loop without leaving the queue.
*/
module Heartbeat {
  import opened Common

  type Uri = string

  datatype Kind = Send | Check

  datatype Event = Event(kind: Kind, uri: Uri, tsc: nat)

  datatype State = State(queue: seq<Event>, lastRx: map<Uri, nat>)

  function SendDelta(timeout: nat): (d: nat) { timeout / 10 }

  function CheckDelta(timeout: nat): (d: nat) { timeout / 2 }

  /** Unsigned 64-bit difference of two time stamps. */
  function Elapsed(now: nat, since: nat): (d: int) { if now >= since then now - since else now - since + TWO64 }

  // ---- single steps ----

  /** Insertion keeps the entry that is already there. */
  function Emplace(m: map<Uri, nat>, uri: Uri, t: nat): (r: map<Uri, nat>) { if uri in m then m else m[uri := t] }

  function Schedule(q: seq<Event>, timeout: nat, kind: Kind, uri: Uri, now: nat): (r: seq<Event>) {
    q + [Event(kind, uri, now + if kind == Send then SendDelta(timeout) else CheckDelta(timeout))]
  }

  function AddRemote(st: State, timeout: nat, uri: Uri, now: nat): (r: State) {
    State(Schedule(Schedule(st.queue, timeout, Send, uri, now), timeout, Check, uri, now), Emplace(st.lastRx, uri, now))
  }

  function ReceiveHeartbeat(st: State, uri: Uri, now: nat): (r: State) {
    if uri !in st.lastRx then st else st.(lastRx := Emplace(st.lastRx, uri, now))
  }

  /** The i-th event may be the one on top of the queue. */
  predicate OnTop(q: seq<Event>, i: nat) {
    i < |q| && forall j :: 0 <= j < |q| ==> q[i].tsc <= q[j].tsc
  }

  predicate Fails(st: State, timeout: nat, e: Event, now: nat) {
    e.kind == Check && e.uri in st.lastRx && Elapsed(now, st.lastRx[e.uri]) > timeout
  }

  /** Consumes a due event of a tracked remote. */
  function Handle(st: State, timeout: nat, i: nat, now: nat): (r: State)
    requires i < |st.queue|
  {
    var e, rest := st.queue[i], RemoveAt(st.queue, i);
    if Fails(st, timeout, e, now) then State(rest, st.lastRx - {e.uri})
    else State(Schedule(rest, timeout, e.kind, e.uri, now), st.lastRx)
  }

  // ---- runs ----

  datatype Step = Add(uri: Uri, now: nat) | Receive(uri: Uri, now: nat) | Consume(i: nat, now: nat)

  predicate Enabled(st: State, e: Step) {
    e.Consume? ==> OnTop(st.queue, e.i) && st.queue[e.i].tsc <= e.now && st.queue[e.i].uri in st.lastRx
  }

  function Exec(st: State, timeout: nat, e: Step): (r: State)
    requires Enabled(st, e)
  {
    match e
    case Add(uri, now) => AddRemote(st, timeout, uri, now)
    case Receive(uri, now) => ReceiveHeartbeat(st, uri, now)
    case Consume(i, now) => Handle(st, timeout, i, now)
  }

  /** This step reports the remote as failed. */
  predicate Reports(st: State, timeout: nat, e: Step, uri: Uri) {
    e.Consume? && e.i < |st.queue| && st.queue[e.i].uri == uri && Fails(st, timeout, st.queue[e.i], e.now)
  }

  datatype Run = Run(timeout: nat, states: seq<State>, steps: seq<Step>)

  ghost predicate StepOk(st: State, timeout: nat, e: Step, st': State) { Enabled(st, e) && st' == Exec(st, timeout, e) }

  ghost predicate IsRun(r: Run) {
    && |r.states| == |r.steps| + 1 && r.states[0] == State([], map[])
    && (forall i :: 0 <= i < |r.steps| ==> StepOk(r.states[i], r.timeout, r.steps[i], r.states[i + 1]))
    && (forall i, j | 0 <= i <= j < |r.steps| :: r.steps[i].now <= r.steps[j].now)
  }

  ghost function Last(r: Run): (st: State)
    requires |r.states| > 0
  {
    r.states[|r.states| - 1]
  }

  lemma RunOn(r: Run, e: Step) returns (r': Run)
    requires IsRun(r) && Enabled(Last(r), e) && (r.steps != [] ==> r.steps[|r.steps| - 1].now <= e.now)
    ensures IsRun(r') && r'.timeout == r.timeout && r'.steps == r.steps + [e]
    ensures r'.states == r.states + [Exec(Last(r), r.timeout, e)]
  {
    r' := Run(r.timeout, r.states + [Exec(Last(r), r.timeout, e)], r.steps + [e]);
    forall k | 0 <= k < |r'.steps| ensures StepOk(r'.states[k], r.timeout, r'.steps[k], r'.states[k + 1]) {
      if k < |r.steps| { assert StepOk(r.states[k], r.timeout, r.steps[k], r.states[k + 1]); }
    }
  }

  // ---- every tracked remote has a send and a check to come ----

  predicate Pending(q: seq<Event>, kind: Kind, uri: Uri) { exists i :: 0 <= i < |q| && q[i].kind == kind && q[i].uri == uri }

  ghost predicate AllPending(st: State) {
    forall uri :: uri in st.lastRx ==> Pending(st.queue, Send, uri) && Pending(st.queue, Check, uri)
  }

  lemma ScheduleKeeps(q: seq<Event>, timeout: nat, kind: Kind, uri: Uri, now: nat, k: Kind, u: Uri)
    ensures Pending(q, k, u) ==> Pending(Schedule(q, timeout, kind, uri, now), k, u)
    ensures Pending(Schedule(q, timeout, kind, uri, now), kind, uri)
  {
    var q' := Schedule(q, timeout, kind, uri, now);
    assert q'[|q|].kind == kind && q'[|q|].uri == uri;
    if Pending(q, k, u) {
      var i :| 0 <= i < |q| && q[i].kind == k && q[i].uri == u;
      assert q'[i] == q[i];
    }
  }

  lemma WithoutKeeps(q: seq<Event>, i: nat, k: Kind, u: Uri)
    requires i < |q| && Pending(q, k, u)
    ensures !(q[i].kind == k && q[i].uri == u) ==> Pending(RemoveAt(q, i), k, u)
  {
    var j :| 0 <= j < |q| && q[j].kind == k && q[j].uri == u;
    if j != i {
      assert RemoveAt(q, i)[if j < i then j else j - 1] == q[j];
    }
  }

  lemma HandleKeepsPending(st: State, timeout: nat, i: nat, now: nat, kind: Kind, uri: Uri)
    requires AllPending(st) && i < |st.queue| && st.queue[i].uri in st.lastRx && uri in Handle(st, timeout, i, now).lastRx
    ensures Pending(Handle(st, timeout, i, now).queue, kind, uri)
  {
    var e, rest := st.queue[i], RemoveAt(st.queue, i);
    WithoutKeeps(st.queue, i, kind, uri);
    if !Fails(st, timeout, e, now) { ScheduleKeeps(rest, timeout, e.kind, e.uri, now, kind, uri); }
  }

  lemma AddKeepsPending(st: State, timeout: nat, uri: Uri, now: nat, kind: Kind, u: Uri)
    requires AllPending(st) && u in AddRemote(st, timeout, uri, now).lastRx
    ensures Pending(AddRemote(st, timeout, uri, now).queue, kind, u)
  {
    var q1 := Schedule(st.queue, timeout, Send, uri, now);
    ScheduleKeeps(st.queue, timeout, Send, uri, now, kind, u);
    ScheduleKeeps(q1, timeout, Check, uri, now, kind, u);
    ScheduleKeeps(q1, timeout, Check, uri, now, Send, uri);
  }

  lemma StepKeepsPending(st: State, timeout: nat, e: Step)
    requires AllPending(st) && Enabled(st, e)
    ensures AllPending(Exec(st, timeout, e))
  {
    var st' := Exec(st, timeout, e);
    forall uri, kind | uri in st'.lastRx ensures Pending(st'.queue, kind, uri) {
      match e
      case Add(u, now) => AddKeepsPending(st, timeout, u, now, kind, uri);
      case Receive(u, now) =>
      case Consume(i, now) => HandleKeepsPending(st, timeout, i, now, kind, uri);
    }
  }

  /** In every state of every run each tracked remote has a send and a check event in the queue. */
  lemma {:induction false} RunKeepsPending(r: Run, i: nat)
    requires IsRun(r) && i < |r.states|
    ensures AllPending(r.states[i])
  {
    if i > 0 {
      RunKeepsPending(r, i - 1);
      assert StepOk(r.states[i - 1], r.timeout, r.steps[i - 1], r.states[i]);
      StepKeepsPending(r.states[i - 1], r.timeout, r.steps[i - 1]);
    }
  }

  // ---- tracking periods and failure reports ----

  /** Step `j` began the tracking period that state `i` is still in. */
  ghost predicate BeganAt(r: Run, j: nat, i: nat, uri: Uri)
    requires IsRun(r)
  {
    && j < i < |r.states| && r.steps[j].Add? && r.steps[j].uri == uri && uri !in r.states[j].lastRx
    && forall k :: j < k <= i ==> uri in r.states[k].lastRx && r.states[k].lastRx[uri] == r.steps[j].now
  }

  lemma TrackingStep(st: State, timeout: nat, e: Step, uri: Uri)
    requires Enabled(st, e) && uri in Exec(st, timeout, e).lastRx
    ensures uri in st.lastRx ==> Exec(st, timeout, e).lastRx[uri] == st.lastRx[uri]
    ensures uri !in st.lastRx ==> e.Add? && e.uri == uri && Exec(st, timeout, e).lastRx[uri] == e.now
  {
  }

  /** A tracked remote's recorded time is the time its tracking began: no heartbeat ever changes it. */
  lemma {:induction false} TrackingBegan(r: Run, i: nat, uri: Uri) returns (j: nat)
    requires IsRun(r) && i < |r.states| && uri in r.states[i].lastRx
    ensures BeganAt(r, j, i, uri)
    decreases i
  {
    assert i > 0;
    assert StepOk(r.states[i - 1], r.timeout, r.steps[i - 1], r.states[i]);
    TrackingStep(r.states[i - 1], r.timeout, r.steps[i - 1], uri);
    if uri in r.states[i - 1].lastRx {
      j := TrackingBegan(r, i - 1, uri);
    } else {
      j := i - 1;
    }
  }

  /**
    A remote is reported failed only after more than the failure timeout since its tracking began, and the
    report ends the tracking period.
  */
  lemma FailureIsLate(r: Run, i: nat, uri: Uri) returns (j: nat)
    requires IsRun(r) && i < |r.steps| && Reports(r.states[i], r.timeout, r.steps[i], uri)
    ensures BeganAt(r, j, i, uri)
    ensures r.steps[i].now - r.steps[j].now > r.timeout
    ensures uri !in r.states[i + 1].lastRx
  {
    j := TrackingBegan(r, i, uri);
    assert StepOk(r.states[i], r.timeout, r.steps[i], r.states[i + 1]);
    assert r.steps[j].now <= r.steps[i].now;
  }

  /**
    A check of a tracked remote reports it exactly if more than the timeout has passed since its tracking began;
    heartbeats received meanwhile make no difference.
  */
  lemma CheckReportsIff(r: Run, i: nat) returns (j: nat)
    requires IsRun(r) && i < |r.steps| && r.steps[i].Consume? && r.steps[i].i < |r.states[i].queue|
    requires r.states[i].queue[r.steps[i].i].kind == Check
    ensures var uri := r.states[i].queue[r.steps[i].i].uri;
      BeganAt(r, j, i, uri) && (Reports(r.states[i], r.timeout, r.steps[i], uri) <==> r.steps[i].now - r.steps[j].now > r.timeout)
  {
    assert StepOk(r.states[i], r.timeout, r.steps[i], r.states[i + 1]);
    j := TrackingBegan(r, i, r.states[i].queue[r.steps[i].i].uri);
    assert r.steps[j].now <= r.steps[i].now;
  }

  /** Two reports of the same remote have a new beginning of its tracking between them. */
  lemma OneReportPerPeriod(r: Run, i: nat, k: nat, uri: Uri) returns (j: nat)
    requires IsRun(r) && i < k < |r.steps|
    requires Reports(r.states[i], r.timeout, r.steps[i], uri) && Reports(r.states[k], r.timeout, r.steps[k], uri)
    ensures i < j < k && r.steps[j].Add? && r.steps[j].uri == uri && uri !in r.states[j].lastRx
  {
    var b := FailureIsLate(r, i, uri);
    j := FailureIsLate(r, k, uri);
    assert BeganAt(r, j, k, uri);
  }

  // ---- one call of the manager's loop ----

  function Due(q: seq<Event>, now: nat): (n: nat) {
    if q == [] then 0 else (if q[0].tsc <= now then 1 else 0) + Due(q[1..], now)
  }

  lemma {:induction false} DueAppend(q: seq<Event>, r: seq<Event>, now: nat)
    ensures Due(q + r, now) == Due(q, now) + Due(r, now)
  {
    if q == [] {
      assert q + r == r;
    } else {
      assert (q + r)[1..] == q[1..] + r;
      DueAppend(q[1..], r, now);
    }
  }

  lemma DueWithout(q: seq<Event>, i: nat, now: nat)
    requires i < |q| && q[i].tsc <= now
    ensures Due(RemoveAt(q, i), now) == Due(q, now) - 1
  {
    assert q == q[..i] + ([q[i]] + q[i + 1..]);
    DueAppend(q[..i], [q[i]] + q[i + 1..], now);
    DueAppend([q[i]], q[i + 1..], now);
    DueAppend(q[..i], q[i + 1..], now);
  }

  /** Each due event is replaced by at most one strictly later one, so fewer are due. */
  lemma HandleMakesProgress(st: State, timeout: nat, i: nat, now: nat)
    requires timeout >= 10 && i < |st.queue| && st.queue[i].tsc <= now
    ensures Due(Handle(st, timeout, i, now).queue, now) == Due(st.queue, now) - 1
  {
    DueWithout(st.queue, i, now);
    var e, rest := st.queue[i], RemoveAt(st.queue, i);
    DueAppend(rest, Schedule([], timeout, e.kind, e.uri, now), now);
    assert Schedule(rest, timeout, e.kind, e.uri, now) == rest + Schedule([], timeout, e.kind, e.uri, now);
  }

  /** The loop may stop: nothing is due, or what is on top belongs to nobody. */
  ghost predicate Stops(st: State, now: nat) {
    st.queue == [] || exists i: nat :: OnTop(st.queue, i) && (st.queue[i].tsc > now || st.queue[i].uri !in st.lastRx)
  }

  // ---- the loop, with a clock read once per turn ----

  /** What the loop consumes, one event after the other, at the times shown by the clock. */
  ghost predicate Walks(path: seq<State>, picks: seq<nat>, timeout: nat, clock: nat -> nat) {
    && |path| == |picks| + 1
    && forall k :: 0 <= k < |picks| ==> StepOk(path[k], timeout, Consume(picks[k], clock(k)), path[k + 1])
  }

  /** And whom it reports. */
  ghost predicate Consumed(path: seq<State>, picks: seq<nat>, failed: seq<Uri>, timeout: nat, clock: nat -> nat) {
    Walks(path, picks, timeout, clock) && failed == Reported(path, picks, timeout, clock, |picks|)
  }

  /** With this clock no call from this state handles more than `bound` events. */
  ghost predicate BoundedBy(st: State, timeout: nat, clock: nat -> nat, bound: nat) {
    forall path, picks | Walks(path, picks, timeout, clock) && path[0] == st :: |picks| <= bound
  }

  ghost function Reported(path: seq<State>, picks: seq<nat>, timeout: nat, clock: nat -> nat, n: nat): (r: seq<Uri>)
    requires n <= |picks| && |path| == |picks| + 1
  {
    if n == 0 then []
    else
      var st, i, before := path[n - 1], picks[n - 1], Reported(path, picks, timeout, clock, n - 1);
      if i < |st.queue| && Fails(st, timeout, st.queue[i], clock(n - 1)) then before + [st.queue[i].uri] else before
  }

  lemma {:induction false} ReportedGrows(path: seq<State>, picks: seq<nat>, timeout: nat, clock: nat -> nat, st: State, i: nat, n: nat)
    requires |path| == |picks| + 1 && n <= |picks|
    ensures Reported(path + [st], picks + [i], timeout, clock, n) == Reported(path, picks, timeout, clock, n)
  {
    if n > 0 { ReportedGrows(path, picks, timeout, clock, st, i, n - 1); }
  }

  lemma WalksMore(path: seq<State>, picks: seq<nat>, timeout: nat, clock: nat -> nat, i: nat)
    requires Walks(path, picks, timeout, clock) && Enabled(path[|picks|], Consume(i, clock(|picks|)))
    ensures Walks(path + [Handle(path[|picks|], timeout, i, clock(|picks|))], picks + [i], timeout, clock)
  {
    var path', picks' := path + [Handle(path[|picks|], timeout, i, clock(|picks|))], picks + [i];
    forall k | 0 <= k < |picks'| ensures StepOk(path'[k], timeout, Consume(picks'[k], clock(k)), path'[k + 1]) {
      if k < |picks| { assert StepOk(path[k], timeout, Consume(picks[k], clock(k)), path[k + 1]); }
    }
  }

  lemma ConsumedMore(path: seq<State>, picks: seq<nat>, failed: seq<Uri>, timeout: nat, clock: nat -> nat, i: nat)
    requires Consumed(path, picks, failed, timeout, clock) && Enabled(path[|picks|], Consume(i, clock(|picks|)))
    ensures var st, now := path[|picks|], clock(|picks|);
      Consumed(path + [Handle(st, timeout, i, now)], picks + [i],
               if Fails(st, timeout, st.queue[i], now) then failed + [st.queue[i].uri] else failed, timeout, clock)
  {
    WalksMore(path, picks, timeout, clock, i);
    ReportedGrows(path, picks, timeout, clock, Handle(path[|picks|], timeout, i, clock(|picks|)), i, |picks|);
  }

  /** Over the call the clock advances by less than the distance between two heartbeats. */
  ghost predicate Slow(clock: nat -> nat, timeout: nat) {
    forall k: nat :: clock(0) <= clock(k) < clock(0) + SendDelta(timeout)
  }

  /** The last time at which an event scheduled during a slow call is not yet due. */
  function Horizon(clock: nat -> nat, timeout: nat): (h: nat) {
    if timeout < 10 then clock(0) else clock(0) + SendDelta(timeout) - 1
  }

  lemma SlowProgress(st: State, timeout: nat, i: nat, clock: nat -> nat, k: nat)
    requires Slow(clock, timeout) && i < |st.queue| && st.queue[i].tsc <= clock(k)
    ensures Due(Handle(st, timeout, i, clock(k)).queue, Horizon(clock, timeout)) == Due(st.queue, Horizon(clock, timeout)) - 1
  {
    var now, h := clock(k), Horizon(clock, timeout);
    assert clock(0) <= now <= h;
    DueWithout(st.queue, i, h);
    var e, rest := st.queue[i], RemoveAt(st.queue, i);
    DueAppend(rest, Schedule([], timeout, e.kind, e.uri, now), h);
    assert Schedule(rest, timeout, e.kind, e.uri, now) == rest + Schedule([], timeout, e.kind, e.uri, now);
  }

  class Manager {
    const timeout: nat
    var queue: seq<Event>
    var lastRx: map<Uri, nat>

    ghost function Value(): (st: State)
      reads this
    {
      State(queue, lastRx)
    }

    constructor (timeout: nat)
      ensures Value() == State([], map[]) && this.timeout == timeout
    {
      this.timeout, queue, lastRx := timeout, [], map[];
    }

    method Add(uri: Uri, now: nat)
      modifies this
      ensures Value() == old(AddRemote(Value(), timeout, uri, now))
    {
      if uri !in lastRx { lastRx := lastRx[uri := now]; }
      queue := Schedule(queue, timeout, Send, uri, now);
      queue := Schedule(queue, timeout, Check, uri, now);
    }

    method Receive(uri: Uri, now: nat)
      modifies this
      ensures Value() == old(ReceiveHeartbeat(Value(), uri, now))
    {
      if uri !in lastRx { return; }
      lastRx := Emplace(lastRx, uri, now);
    }

    /** The top of the queue: some event with the least time. */
    method Top() returns (i: nat)
      requires queue != []
      ensures OnTop(queue, i)
    {
      i := 0;
      for j := 1 to |queue|
        invariant i < j && forall k :: 0 <= k < j ==> queue[i].tsc <= queue[k].tsc
      {
        if queue[j].tsc < queue[i].tsc { i := j; }
      }
    }

    /**
      Handles due events until it may stop or has taken the given number of turns, reading the clock once per
      turn.  It stops by itself wherever calls are bounded, and a slow clock bounds them: each turn then leaves
      one event fewer that the call could still reach.
    */
    method DoOne(clock: nat -> nat, turns: nat) returns (failed: seq<Uri>, ended: bool, ghost path: seq<State>, ghost picks: seq<nat>)
      modifies this
      ensures Consumed(path, picks, failed, timeout, clock) && path[0] == old(Value()) && path[|picks|] == Value()
      ensures if ended then Stops(Value(), clock(|picks|)) else |picks| == turns
      ensures forall bound: nat :: BoundedBy(old(Value()), timeout, clock, bound) && turns > bound ==> ended
      ensures Slow(clock, timeout) && turns > old(Due(queue, Horizon(clock, timeout))) ==> ended
    {
      failed, ended, path, picks := [], false, [Value()], [];
      var turn := 0;
      while turn < turns
        invariant Consumed(path, picks, failed, timeout, clock) && path[0] == old(Value()) && path[|picks|] == Value()
        invariant turn == |picks| <= turns
        invariant Slow(clock, timeout) ==> Due(queue, Horizon(clock, timeout)) == old(Due(queue, Horizon(clock, timeout))) - turn
      {
        if queue == [] { ended := true; return; }
        var i := Top();
        var now := clock(turn);
        var e := queue[i];
        if e.tsc > now || e.uri !in lastRx { ended := true; return; }
        if Slow(clock, timeout) { SlowProgress(Value(), timeout, i, clock, turn); }
        ConsumedMore(path, picks, failed, timeout, clock, i);
        path, picks := path + [Handle(Value(), timeout, i, now)], picks + [i];
        queue := RemoveAt(queue, i);
        if e.kind == Check && Elapsed(now, lastRx[e.uri]) > timeout {
          failed := failed + [e.uri];
          lastRx := lastRx - {e.uri};
        } else {
          queue := Schedule(queue, timeout, e.kind, e.uri, now);
        }
        turn := turn + 1;
      }
    }
  }
}
