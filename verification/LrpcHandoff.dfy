/**
  What a hand-off carries, in every run of the driver: which request WAIT_CALL gives the shadow, and which times a
  CALL brings back.
*/
module LrpcHandoff {
  import opened Common
  import opened LrpcAbi
  import opened LrpcFile
  import opened LrpcChannel
  import opened LrpcSystem
  import opened LrpcSafety
  import opened LrpcDelivery
  import opened LrpcCalls

  /** The file WAIT_CALL works on, first entered or re-entered. */
  ghost function WaitFile(s: Core, e: Step): (f: Option<FileId>) {
    match e
    case WaitCmd(t, f, now) => Some(f)
    case WaitWake(t, now) => if t in s.tasks then HeldFile(s.tasks[t].pc) else None
    case _ => None
  }

  /** WAIT_CALL on channel `c` hands out a request. */
  ghost predicate Takes(s: State, e: Step, c: nat)
    requires Shape(s) && Enabled(s, e) && c < MAX_PROCS
  {
    var f := WaitFile(s.core, e);
    f.Some? && BoundTo(s.core, f.value, c) && Exec(s, e).1.Copied?
  }

  // ---- what one step does to the handoff of a channel ----

  /** The step starts a call: the handoff is the caller's request and nothing else. */
  ghost predicate Requests(s: State, e: Step, h: Handoff) {
    && e.CallCmd? && e.f in s.core.files && e.t in s.core.tasks
    && h.procedureId == s.core.files[e.f].proc.procedureId
    && h.callerPid == e.t && h.callerCpu == s.core.tasks[e.t].cpu
    && h.callEnterNs == e.now
    && h.result == h.shadowDispatchNs == h.shadowReturnNs == h.callerResumeNs == 0
  }

  /** What a step that shows `o` on channel `c` makes of its handoff. */
  ghost predicate Stamps(s: State, e: Step, c: nat, h: Handoff, h': Handoff)
    requires Shape(s) && Enabled(s, e) && c < MAX_PROCS
  {
    var o := Observe(s, e, c);
    if o.Started? then Requests(s, e, h')
    else if Takes(s, e, c) then h' == h.(shadowDispatchNs := e.now) && Exec(s, e).1 == Copied(h')
    else if o.Finished? then h' == h.(callerResumeNs := e.now) && Exec(s, e).1 == Copied(h')
    else if o.Answer? && e.ReturnCmd? then h' == h.(result := o.result, shadowReturnNs := e.now)
    else if o.Answer? then h' == h.(result := o.result)
    else h' == h
  }

  lemma CallStamps(s: State, e: Step, c: nat)
    requires Shape(s) && Enabled(s, e) && c < MAX_PROCS && e.CallCmd?
    ensures Stamps(s, e, c, s.core.channels[c].handoff, Exec(s, e).0.core.channels[c].handoff)
  {
    if Observe(s, e, c) == Silent { assert Exec(s, e).0.core.channels[c] == s.core.channels[c]; }
  }

  lemma WaitStamps(s: State, e: Step, c: nat)
    requires Shape(s) && Enabled(s, e) && c < MAX_PROCS && (e.WaitCmd? || e.WaitWake?)
    ensures Stamps(s, e, c, s.core.channels[c].handoff, Exec(s, e).0.core.channels[c].handoff)
  {
    if !Takes(s, e, c) { assert Exec(s, e).0.core.channels[c] == s.core.channels[c]; }
  }

  lemma ResumeStamps(s: State, e: Step, c: nat)
    requires Shape(s) && Enabled(s, e) && c < MAX_PROCS && e.CallWake?
    ensures Stamps(s, e, c, s.core.channels[c].handoff, Exec(s, e).0.core.channels[c].handoff)
  {
    if Observe(s, e, c) == Silent { assert Exec(s, e).0.core.channels[c] == s.core.channels[c]; }
  }

  lemma AnswerStamps(s: State, e: Step, c: nat)
    requires Shape(s) && Enabled(s, e) && c < MAX_PROCS && (e.ReturnCmd? || e.ReleaseFile?)
    ensures Stamps(s, e, c, s.core.channels[c].handoff, Exec(s, e).0.core.channels[c].handoff)
  {
    if Observe(s, e, c) == Silent { assert Exec(s, e).0.core.channels[c].handoff == s.core.channels[c].handoff; }
  }

  lemma OthersDoNotStamp(s: State, e: Step, c: nat)
    requires Shape(s) && Enabled(s, e) && c < MAX_PROCS
    requires !e.CallCmd? && !e.WaitCmd? && !e.WaitWake? && !e.CallWake? && !e.ReturnCmd? && !e.ReleaseFile?
    ensures Stamps(s, e, c, s.core.channels[c].handoff, Exec(s, e).0.core.channels[c].handoff)
  {
    assert Observe(s, e, c) == Silent && !Takes(s, e, c);
  }

  lemma StepStamps(s: State, e: Step, c: nat)
    requires Shape(s) && Enabled(s, e) && c < MAX_PROCS
    ensures Stamps(s, e, c, s.core.channels[c].handoff, Exec(s, e).0.core.channels[c].handoff)
  {
    match e
    case CallCmd(_, _, _) => CallStamps(s, e, c);
    case WaitCmd(_, _, _) => WaitStamps(s, e, c);
    case WaitWake(_, _) => WaitStamps(s, e, c);
    case CallWake(_, _) => ResumeStamps(s, e, c);
    case ReturnCmd(_, _, _, _) => AnswerStamps(s, e, c);
    case ReleaseFile(_) => AnswerStamps(s, e, c);
    case _ => OthersDoNotStamp(s, e, c);
  }

  // ---- a call's stamps, from its start on ----

  datatype Stamp = Start | Dispatch | Back | Break | Resumption | NoStamp

  /** Which of the stamps above a step is. */
  ghost function StampOf(s: State, e: Step, c: nat): (x: Stamp)
    requires Shape(s) && Enabled(s, e) && c < MAX_PROCS
  {
    var o := Observe(s, e, c);
    if o.Started? then Start
    else if Takes(s, e, c) then Dispatch
    else if o.Finished? then Resumption
    else if o.Answer? && e.ReturnCmd? then Back
    else if o.Answer? then Break
    else NoStamp
  }

  function TimeOf(e: Step): (now: nat) {
    match e
    case WaitCmd(_, _, now) => now
    case WaitWake(_, now) => now
    case CallCmd(_, _, now) => now
    case CallWake(_, now) => now
    case ReturnCmd(_, _, _, now) => now
    case _ => 0
  }

  ghost predicate Stamped(x: Stamp, now: nat, h: Handoff, h': Handoff) {
    match x
    case Start => h'.callEnterNs == now && h'.shadowDispatchNs == h'.shadowReturnNs == h'.callerResumeNs == 0
    case Dispatch => h' == h.(shadowDispatchNs := now)
    case Back => h' == h.(result := h'.result, shadowReturnNs := now)
    case Break => h' == h.(result := h'.result)
    case Resumption => h' == h.(callerResumeNs := now)
    case NoStamp => h' == h
  }

  /** `ns` is the time of the latest stamp of this kind after `i` and before `n`, or zero if there is none. */
  ghost predicate LatestTime(xs: seq<Stamp>, times: seq<nat>, x: Stamp, i: nat, n: nat, ns: nat)
    requires n <= |xs| == |times|
  {
    if exists k :: i < k < n && xs[k] == x
    then exists k :: i < k < n && xs[k] == x && ns == times[k] && forall m :: k < m < n ==> xs[m] != x
    else ns == 0
  }

  lemma LatestTimeStep(xs: seq<Stamp>, times: seq<nat>, x: Stamp, i: nat, n: nat, ns: nat, ns': nat)
    requires i < n < |xs| == |times| && LatestTime(xs, times, x, i, n, ns)
    requires ns' == if xs[n] == x then times[n] else ns
    ensures LatestTime(xs, times, x, i, n + 1, ns')
  {
    if xs[n] != x && exists k :: i < k < n && xs[k] == x {
      var k :| i < k < n && xs[k] == x && ns == times[k] && forall m :: k < m < n ==> xs[m] != x;
      assert i < k < n + 1 && xs[k] == x;
    }
  }

  /** What a call was started with stays, and each later time is that of its latest stamp. */
  ghost predicate Tells(xs: seq<Stamp>, times: seq<nat>, i: nat, n: nat, h: Handoff, start: Handoff)
    requires n <= |xs| == |times|
  {
    && h.procedureId == start.procedureId && h.callerPid == start.callerPid && h.callerCpu == start.callerCpu
    && h.callEnterNs == start.callEnterNs
    && LatestTime(xs, times, Dispatch, i, n, h.shadowDispatchNs)
    && LatestTime(xs, times, Back, i, n, h.shadowReturnNs)
    && LatestTime(xs, times, Resumption, i, n, h.callerResumeNs)
  }

  lemma TellsStep(xs: seq<Stamp>, times: seq<nat>, i: nat, n: nat, h: Handoff, h': Handoff, start: Handoff)
    requires i < n < |xs| == |times| && Tells(xs, times, i, n, h, start) && xs[n] != Start && Stamped(xs[n], times[n], h, h')
    ensures Tells(xs, times, i, n + 1, h', start)
  {
    LatestTimeStep(xs, times, Dispatch, i, n, h.shadowDispatchNs, h'.shadowDispatchNs);
    LatestTimeStep(xs, times, Back, i, n, h.shadowReturnNs, h'.shadowReturnNs);
    LatestTimeStep(xs, times, Resumption, i, n, h.callerResumeNs, h'.callerResumeNs);
  }

  lemma {:induction false} StampsTell(xs: seq<Stamp>, times: seq<nat>, hs: seq<Handoff>, i: nat, n: nat)
    requires i < n <= |xs| == |times| < |hs| && xs[i] == Start && forall k :: i < k < n ==> xs[k] != Start
    requires forall k :: i <= k < n ==> Stamped(xs[k], times[k], hs[k], hs[k + 1])
    ensures Tells(xs, times, i, n, hs[n], hs[i + 1])
  {
    if n > i + 1 {
      StampsTell(xs, times, hs, i, n - 1);
      assert Stamped(xs[n - 1], times[n - 1], hs[n - 1], hs[n]);
      TellsStep(xs, times, i, n - 1, hs[n - 1], hs[n], hs[i + 1]);
    } else {
      assert Stamped(xs[i], times[i], hs[i], hs[n]);
    }
  }

  lemma LatestIsLast(xs: seq<Stamp>, times: seq<nat>, x: Stamp, i: nat, n: nat, ns: nat)
    requires i < n < |xs| == |times| && xs[n] == x && LatestTime(xs, times, x, i, n + 1, ns)
    ensures ns == times[n]
  {
    assert i < n < n + 1 && xs[n] == x;
  }

  lemma OneStamp(xs: seq<Stamp>, times: seq<nat>, x: Stamp, i: nat, n: nat, j: nat, ns: nat)
    requires i < j < n <= |xs| == |times| && LatestTime(xs, times, x, i, n, ns)
    requires forall m :: i < m < n && m != j ==> xs[m] != x
    ensures ns == if xs[j] == x then times[j] else 0
  {
  }

  // ---- the history of one channel ----

  /** What shows at each step, how and when it stamps the handoff, and the handoff in each state. */
  datatype History = History(obs: seq<Observation>, xs: seq<Stamp>, times: seq<nat>, hs: seq<Handoff>)

  ghost predicate Regular(l: History) {
    && |l.obs| == |l.xs| == |l.times| < |l.hs|
    && (forall k :: 0 <= k < |l.xs| ==> Stamped(l.xs[k], l.times[k], l.hs[k], l.hs[k + 1]))
    && (forall k :: 0 <= k < |l.xs| ==> (l.xs[k] == Start <==> l.obs[k].Started?) && (l.xs[k] == Back ==> l.obs[k].Answer?))
    && (forall k :: 0 <= k < |l.obs| ==> InTurn(l.obs, k))
  }

  /** From a start until the next one, the handoff of the channel is that call's. */
  lemma HistoryTells(l: History, i: nat, n: nat)
    requires Regular(l) && i < n <= |l.obs| && l.obs[i].Started? && NoCallBetween(l.obs, i, n)
    ensures Tells(l.xs, l.times, i, n, l.hs[n], l.hs[i + 1])
  {
    StampsTell(l.xs, l.times, l.hs, i, n);
  }

  lemma {:induction false} LatestStart(obs: seq<Observation>, n: nat) returns (i: nat)
    requires n <= |obs| && TrackOf(obs[..n]).last.Started?
    ensures LatestTurn(obs, i, n) && obs[i].Started?
    decreases n
  {
    assert obs[..n][..n - 1] == obs[..n - 1];
    if Turns(obs[n - 1]) { i := n - 1; } else { i := LatestStart(obs, n - 1); }
  }

  /** A request dispatched at `n` is that of the latest start. */
  lemma DispatchTells(l: History, n: nat) returns (i: nat)
    requires Regular(l) && n < |l.obs| && l.xs[n] == Dispatch && TrackOf(l.obs[..n]).last.Started?
    ensures LatestTurn(l.obs, i, n) && l.obs[i].Started?
    ensures Tells(l.xs, l.times, i, n + 1, l.hs[n + 1], l.hs[i + 1]) && l.hs[n + 1].shadowDispatchNs == l.times[n]
  {
    i := LatestStart(l.obs, n);
    HistoryTells(l, i, n + 1);
    LatestIsLast(l.xs, l.times, Dispatch, i, n, l.hs[n + 1].shadowDispatchNs);
  }

  lemma {:induction false} StartBefore(obs: seq<Observation>, i: nat, n: nat) returns (k: nat)
    requires i < n <= |obs| && obs[i].Started?
    ensures i <= k < n && obs[k].Started? && NoCallBetween(obs, k, n)
    decreases n
  {
    if obs[n - 1].Started? {
      k := n - 1;
    } else {
      k := StartBefore(obs, i, n - 1);
    }
  }

  /** A call that entered at `i` and resumes at `n`, after the answer `j`, brings back the times of the latest start. */
  lemma ResumptionTells(l: History, i: nat, j: nat, n: nat) returns (k: nat)
    requires Regular(l) && n < |l.obs| && l.xs[n] == Resumption && l.obs[n].Finished?
    requires i < j < n && l.obs[i].Started? && l.obs[j].Answer? && LatestTurn(l.obs, j, n)
    ensures i <= k < j && l.obs[k].Started? && NoCallBetween(l.obs, k, n) && FirstAnswer(l.obs, k, j)
    ensures k == i <==> NoCallBetween(l.obs, i, n)
    ensures Tells(l.xs, l.times, k, n + 1, l.hs[n + 1], l.hs[k + 1]) && l.hs[n + 1].callerResumeNs == l.times[n]
    ensures l.hs[n + 1].shadowReturnNs == if l.xs[j] == Back then l.times[j] else 0
  {
    k := StartBefore(l.obs, i, n);
    OwnAnswerIff(l.obs, k, j, n);
    HistoryTells(l, k, n + 1);
    LatestIsLast(l.xs, l.times, Resumption, k, n, l.hs[n + 1].callerResumeNs);
    OneStamp(l.xs, l.times, Back, k, n + 1, j, l.hs[n + 1].shadowReturnNs);
  }

  // ---- runs ----

  ghost predicate Shapes(r: Run) { forall i :: 0 <= i < |r.states| ==> |r.states[i].core.channels| == MAX_PROCS }

  lemma RunShapes(r: Run)
    requires IsRun(r)
    ensures Shapes(r)
  {
    forall i | 0 <= i < |r.states| ensures |r.states[i].core.channels| == MAX_PROCS { RunKeepsInv(r, i); }
  }

  ghost function HistoryOf(r: Run, c: nat): (l: History)
    requires IsRun(r) && Shapes(r) && c < MAX_PROCS
    ensures |l.obs| == |l.xs| == |l.times| == |r.steps| && |l.hs| == |r.states|
  {
    History(Trace(r, c),
            seq(|r.steps|, i requires 0 <= i < |r.steps| && StepOk(r.states[i], r.steps[i], r.states[i + 1]) =>
              StampOf(r.states[i], r.steps[i], c)),
            seq(|r.steps|, i requires 0 <= i < |r.steps| => TimeOf(r.steps[i])),
            seq(|r.states|, i requires 0 <= i < |r.states| => r.states[i].core.channels[c].handoff))
  }

  /** The request the caller of step `i` has made on channel `c`. */
  ghost predicate IsRequestOf(r: Run, c: nat, i: nat, h: Handoff) {
    && i < |r.steps| && i < |r.states| && r.steps[i].CallCmd?
    && var e, s := r.steps[i], r.states[i].core;
       && BoundTo(s, e.f, c) && e.t in s.tasks
       && h.procedureId == s.files[e.f].proc.procedureId
       && h.callerPid == e.t && h.callerCpu == s.tasks[e.t].cpu && h.callEnterNs == e.now
  }

  lemma StampInRun(r: Run, c: nat, k: nat)
    requires IsRun(r) && Shapes(r) && c < MAX_PROCS && k < |r.steps|
    ensures var l := HistoryOf(r, c);
      && Stamped(l.xs[k], l.times[k], l.hs[k], l.hs[k + 1])
      && (l.xs[k] == Start <==> l.obs[k].Started?)
      && (l.xs[k] == Back <==> l.obs[k].Answer? && r.steps[k].ReturnCmd?)
      && (l.obs[k].Started? ==> IsRequestOf(r, c, k, l.hs[k + 1]))
  {
    assert StepOk(r.states[k], r.steps[k], r.states[k + 1]);
    StepStamps(r.states[k], r.steps[k], c);
  }

  lemma TurnInRun(r: Run, c: nat, k: nat)
    requires IsRun(r) && Shapes(r) && c < MAX_PROCS && k < |r.steps|
    ensures InTurn(HistoryOf(r, c).obs, k)
  {
    RunTakesTurns(r, c, k);
  }

  /** `l` is a regular history, whose starts are the requests of the run and whose times are those of its steps. */
  ghost predicate Records(r: Run, c: nat, l: History) {
    && Regular(l) && |l.xs| == |r.steps|
    && (forall k :: 0 <= k < |l.xs| ==> l.times[k] == TimeOf(r.steps[k]))
    && (forall k :: 0 <= k < |l.xs| ==> (l.xs[k] == Back <==> l.obs[k].Answer? && r.steps[k].ReturnCmd?))
    && (forall k :: 0 <= k < |l.xs| && l.obs[k].Started? ==> IsRequestOf(r, c, k, l.hs[k + 1]))
  }

  lemma HistoryRecords(r: Run, c: nat)
    requires IsRun(r) && Shapes(r) && c < MAX_PROCS
    ensures Records(r, c, HistoryOf(r, c))
  {
    var l := HistoryOf(r, c);
    forall k | 0 <= k < |l.xs|
      ensures Stamped(l.xs[k], l.times[k], l.hs[k], l.hs[k + 1]) && InTurn(l.obs, k)
      ensures l.xs[k] == Start <==> l.obs[k].Started?
      ensures l.xs[k] == Back <==> l.obs[k].Answer? && r.steps[k].ReturnCmd?
      ensures l.obs[k].Started? ==> IsRequestOf(r, c, k, l.hs[k + 1])
    {
      StampInRun(r, c, k);
      TurnInRun(r, c, k);
    }
  }

  /** WAIT_CALL at step `n` hands out `h` on channel `c`. */
  ghost predicate TakesAt(r: Run, c: nat, n: nat, h: Handoff)
    requires IsRun(r) && c < MAX_PROCS
  {
    && n < |r.steps| && StepOk(r.states[n], r.steps[n], r.states[n + 1])
    && Takes(r.states[n], r.steps[n], c) && Exec(r.states[n], r.steps[n]).1 == Copied(h)
  }

  /** CALL returns `h` at step `n` on channel `c`. */
  ghost predicate ReturnsAt(r: Run, c: nat, n: nat, h: Handoff)
    requires IsRun(r) && c < MAX_PROCS
  {
    && n < |r.steps| && StepOk(r.states[n], r.steps[n], r.states[n + 1])
    && Observe(r.states[n], r.steps[n], c).Finished? && Exec(r.states[n], r.steps[n]).1 == Copied(h)
  }

  lemma TakenIsStamped(r: Run, c: nat, n: nat, h: Handoff)
    requires IsRun(r) && Shapes(r) && c < MAX_PROCS && TakesAt(r, c, n, h)
    ensures n < |r.steps| && r.states[n].core.channels[c].pending
    ensures HistoryOf(r, c).xs[n] == Dispatch && HistoryOf(r, c).hs[n + 1] == h
  {
    StepStamps(r.states[n], r.steps[n], c);
  }

  lemma ReturnedIsStamped(r: Run, c: nat, n: nat, h: Handoff)
    requires IsRun(r) && Shapes(r) && c < MAX_PROCS && ReturnsAt(r, c, n, h)
    ensures n < |r.steps| && HistoryOf(r, c).obs[n].Finished? && HistoryOf(r, c).obs[n].result == h.result
    ensures HistoryOf(r, c).xs[n] == Resumption && HistoryOf(r, c).hs[n + 1] == h
  {
    StepStamps(r.states[n], r.steps[n], c);
  }

  lemma PendingShows(r: Run, c: nat, n: nat)
    requires IsRun(r) && Shapes(r) && c < MAX_PROCS && n < |r.states| && r.states[n].core.channels[c].pending
    ensures TrackOf(HistoryOf(r, c).obs[..n]).last.Started?
  {
    RunShows(r, c, n);
  }

  lemma KeepsRequest(r: Run, c: nat, i: nat, start: Handoff, h: Handoff)
    requires IsRequestOf(r, c, i, start) && h.procedureId == start.procedureId && h.callerPid == start.callerPid
    requires h.callerCpu == start.callerCpu && h.callEnterNs == start.callEnterNs
    ensures IsRequestOf(r, c, i, h)
  {
  }

  lemma DispatchedRequest(r: Run, c: nat, l: History, n: nat, h: Handoff) returns (i: nat)
    requires Records(r, c, l) && n < |r.steps| && l.xs[n] == Dispatch && l.hs[n + 1] == h && TrackOf(l.obs[..n]).last.Started?
    ensures LatestTurn(l.obs, i, n) && l.obs[i].Started?
    ensures IsRequestOf(r, c, i, h) && h.shadowDispatchNs == TimeOf(r.steps[n])
  {
    i := DispatchTells(l, n);
    KeepsRequest(r, c, i, l.hs[i + 1], h);
  }

  /**
    What the shadow is given.  When WAIT_CALL replies at step `n`, the latest turn on the channel is the start of a
    CALL at some step `i`, and the handoff is that caller's request: the procedure its file is bound to, its task
    and cpu and the time it entered, stamped with the time of this very step.
  */
  lemma TakenRequestIsTheCall(r: Run, c: nat, n: nat, h: Handoff) returns (i: nat)
    requires IsRun(r) && c < MAX_PROCS && TakesAt(r, c, n, h)
    ensures LatestTurn(Trace(r, c), i, n) && Trace(r, c)[i].Started?
    ensures IsRequestOf(r, c, i, h) && h.shadowDispatchNs == TimeOf(r.steps[n])
  {
    RunShapes(r);
    TakenIsStamped(r, c, n, h);
    PendingShows(r, c, n);
    HistoryRecords(r, c);
    i := DispatchedRequest(r, c, HistoryOf(r, c), n, h);
  }

  /** The times of a call that entered at `i`, was answered at `j` and has been resumed at `n`. */
  lemma ResumedTimes(r: Run, c: nat, l: History, i: nat, j: nat, n: nat, h: Handoff) returns (k: nat)
    requires Records(r, c, l) && i < j < n < |r.steps|
    requires l.obs[n].Finished? && l.xs[n] == Resumption && l.hs[n + 1] == h
    requires l.obs[i].Started? && l.obs[j].Answer? && LatestTurn(l.obs, j, n)
    ensures i <= k < j && l.obs[k].Started? && NoCallBetween(l.obs, k, n) && (k == i <==> NoCallBetween(l.obs, i, n))
    ensures FirstAnswer(l.obs, k, j) && LatestTime(l.xs, l.times, Dispatch, k, n + 1, h.shadowDispatchNs)
    ensures IsRequestOf(r, c, k, h) && h.callerResumeNs == TimeOf(r.steps[n])
    ensures h.shadowReturnNs == if r.steps[j].ReturnCmd? then r.steps[j].now else 0
  {
    k := ResumptionTells(l, i, j, n);
    KeepsRequest(r, c, k, l.hs[k + 1], h);
  }

  /**
    What a caller gets back.  A CALL that entered at `i` returns at `n` with the request, the entry time and the
    result of the latest start `k` on the channel: its own exactly if no other CALL was accepted meanwhile.  The
    other times are those of the latest WAIT_CALL that took that request, zero if none did, of the RETURN that
    answered it, zero if the shadow's file was released instead, and of this very step.
  */
  lemma ReturnedTimesAreTheCalls(r: Run, c: nat, n: nat, h: Handoff) returns (i: nat, k: nat, j: nat)
    requires IsRun(r) && c < MAX_PROCS && ReturnsAt(r, c, n, h)
    ensures Shapes(r) && n < |r.steps|
    ensures var obs := Trace(r, c);
      && i <= k < j < n && obs[n].Finished? && InCallSince(obs[..n], obs[n].t, i)
      && obs[k].Started? && NoCallBetween(obs, k, n) && (k == i <==> NoCallBetween(obs, i, n))
      && FirstAnswer(obs, k, j) && h.result == obs[j].result
    ensures IsRequestOf(r, c, k, h) && h.callerResumeNs == TimeOf(r.steps[n])
    ensures h.shadowReturnNs == if r.steps[j].ReturnCmd? then r.steps[j].now else 0
    ensures LatestTime(HistoryOf(r, c).xs, HistoryOf(r, c).times, Dispatch, k, n + 1, h.shadowDispatchNs)
  {
    RunShapes(r);
    ReturnedIsStamped(r, c, n, h);
    HistoryRecords(r, c);
    i, j := ReturnedResultIsTheAnswer(r, c, n);
    k := ResumedTimes(r, c, HistoryOf(r, c), i, j, n, h);
  }

  // ---- the procedure a file is bound to ----

  lemma BindingIsKept(s: State, e: Step, f: FileId)
    requires Shape(s) && Enabled(s, e) && f in Exec(s, e).0.core.files && Exec(s, e).0.core.files[f].bound
    ensures f in s.core.files
    ensures if s.core.files[f].bound then Exec(s, e).0.core.files[f] == s.core.files[f]
            else e.BindCmd? && e.f == f && Exec(s, e).0.core.files[f].proc.procedureId == e.id
  {
  }

  /** A bound file names the procedure that its BIND asked for. */
  lemma {:induction false} BoundByRequest(r: Run, n: nat, f: FileId) returns (k: nat)
    requires IsRun(r) && n < |r.states| && f in r.states[n].core.files && r.states[n].core.files[f].bound
    ensures k < n && r.steps[k].BindCmd? && r.steps[k].f == f
    ensures r.steps[k].id == r.states[n].core.files[f].proc.procedureId
    decreases n
  {
    assert n > 0;
    var s, e := r.states[n - 1], r.steps[n - 1];
    assert StepOk(s, e, r.states[n]);
    BindingIsKept(s, e, f);
    if s.core.files[f].bound { k := BoundByRequest(r, n - 1, f); } else { k := n - 1; }
  }
}
