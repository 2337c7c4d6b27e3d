/**
  Result delivery, call by call, in every run of the driver.  A CALL that returns carries the latest answer given
  on its channel; that is the answer to this very call if and only if no other CALL was accepted on the channel
  in the meantime.
*/
module LrpcCalls {
  import opened Common
  import opened LrpcAbi
  import opened LrpcFile
  import opened LrpcChannel
  import opened LrpcSystem
  import opened LrpcSafety
  import opened LrpcDelivery

  // ---- what the channel shows of its history ----

  predicate Turns(o: Observation) { o.Started? || o.Answer? }

  /** The latest start or answer, and who started last. */
  datatype Track = Track(last: Observation, caller: Option<TaskId>)

  const UNUSED: Track := Track(Silent, None)

  function Next(tr: Track, o: Observation): (r: Track) {
    match o
    case Started(t) => Track(o, Some(t))
    case Answer(_) => Track(o, tr.caller)
    case _ => tr
  }

  function TrackOf(obs: seq<Observation>): (tr: Track) {
    if obs == [] then UNUSED else Next(TrackOf(obs[..|obs| - 1]), obs[|obs| - 1])
  }

  /** The caller that started last is the one to be woken, and sleeps only while its call is pending. */
  ghost predicate LatestOk(s: Core, c: nat, t: TaskId)
    requires CoreShape(s) && c < MAX_PROCS
  {
    Outstanding(s, c, t) ==>
      && (s.channels[c].pending ==> s.channels[c].callerTask == Some(t))
      && (s.tasks[t].run != Running ==> s.channels[c].pending)
  }

  /** A call is pending exactly if the latest turn is a start; otherwise the latest answer is the stored result. */
  ghost predicate Shows(s: Core, c: nat, tr: Track)
    requires CoreShape(s) && c < MAX_PROCS
  {
    && (s.channels[c].pending <==> tr.last.Started?)
    && (tr.last.Answer? ==> s.channels[c].handoff.result == tr.last.result)
    && (tr.last.Started? ==> tr.caller == Some(tr.last.t))
    && (tr.caller.Some? ==> LatestOk(s, c, tr.caller.value))
  }

  ghost predicate Follows(s: Core, c: nat, tr: Track) { Inv(s) && c < MAX_PROCS && Shows(s, c, tr) }

  // ---- each kind of step ----

  lemma QuietShows(s: Core, c: nat, tr: Track, s': Core)
    requires Follows(s, c, tr) && CoreShape(s')
    requires s'.channels[c].pending == s.channels[c].pending
    requires s'.channels[c].callerTask == s.channels[c].callerTask
    requires s'.channels[c].handoff.result == s.channels[c].handoff.result
    requires tr.caller.Some? && Outstanding(s', c, tr.caller.value) ==> Outstanding(s, c, tr.caller.value)
    requires tr.caller.Some? && Outstanding(s', c, tr.caller.value) && s'.tasks[tr.caller.value].run != Running ==>
      s.tasks[tr.caller.value].run != Running || s.channels[c].pending
    ensures Shows(s', c, tr)
  {
  }

  lemma SetFileShows(s: Core, c: nat, tr: Track, f: FileId, file: File)
    requires Follows(s, c, tr) && FileOk(file) && (f in s.files && s.files[f].bound ==> file == s.files[f])
    ensures Shows(SetFile(s, f, file), c, tr)
  {
    if tr.caller.Some? && tr.caller.value in s.tasks { assert TaskInv(s, tr.caller.value); }
    QuietShows(s, c, tr, SetFile(s, f, file));
  }

  lemma SetTaskShows(s: Core, c: nat, tr: Track, t: TaskId, task: Task)
    requires Follows(s, c, tr) && t in s.tasks
    requires task.pc.InCall? || s.tasks[t].pc.InCall? ==> task.pc == s.tasks[t].pc
    requires task.run != Running ==> s.tasks[t].run != Running || !task.pc.InCall?
    ensures Shows(SetTask(s, t, task), c, tr)
  {
    QuietShows(s, c, tr, SetTask(s, t, task));
  }

  lemma RegisterShows(s: Core, c: nat, tr: Track, t: TaskId, f: FileId)
    requires Follows(s, c, tr) && InUser(s, t) && f in s.files
    ensures Shows(RegisterStep(s, t, f), c, tr)
  {
    QuietShows(s, c, tr, RegisterStep(s, t, f));
  }

  lemma WaitShows(s: Core, c: nat, tr: Track, t: TaskId, f: FileId, now: nat)
    requires Follows(s, c, tr) && WaitReady(s, t, f)
    ensures Shows(WaitStep(s, t, f, now).0, c, tr)
  {
    QuietShows(s, c, tr, WaitStep(s, t, f, now).0);
  }

  lemma CallShows(s: Core, c: nat, tr: Track, t: TaskId, f: FileId, now: nat)
    requires Follows(s, c, tr) && InUser(s, t) && f in s.files
    ensures var o := if BoundTo(s, f, c) && CallReply(s, t, f) == Asleep then Started(t) else Silent;
      Shows(CallStep(s, t, f, now), c, Next(tr, o)) && (o.Started? ==> !tr.last.Started?)
  {
    var s' := CallStep(s, t, f, now);
    if CallReply(s, t, f) == Asleep && !BoundTo(s, f, c) {
      assert s'.channels[c] == s.channels[c];
      QuietShows(s, c, tr, s');
    }
  }

  lemma CallWakeShows(s: Core, c: nat, tr: Track, t: TaskId, now: nat)
    requires Follows(s, c, tr) && CallWakeReady(s, t)
    ensures Shows(CallWakeStep(s, t, now).0, c, tr)
    ensures Outstanding(s, c, t) && CallWakeStep(s, t, now).1.Copied? ==>
      !tr.last.Started? && CallWakeStep(s, t, now).1.handoff.result == s.channels[c].handoff.result
  {
    var s' := CallWakeStep(s, t, now).0;
    if !Outstanding(s, c, t) { assert s'.channels[c] == s.channels[c]; }
    QuietShows(s, c, tr, s');
  }

  lemma ReturnShows(s: Core, c: nat, tr: Track, t: TaskId, f: FileId, result: int, now: nat)
    requires Follows(s, c, tr) && InUser(s, t) && ShadowIssues(s, t, f)
    ensures var o := if BoundTo(s, f, c) && ReturnReply(s, f) == Asleep then Answer(result) else Silent;
      Shows(ReturnStep(s, t, f, result, now), c, Next(tr, o)) && (o.Answer? ==> tr.last.Started?)
  {
    var s' := ReturnStep(s, t, f, result, now);
    if ReturnReply(s, f) == Asleep && !BoundTo(s, f, c) {
      assert s'.channels[c] == s.channels[c];
      QuietShows(s, c, tr, s');
    }
  }

  lemma ReleaseShows(s: Core, c: nat, tr: Track, f: FileId)
    requires Follows(s, c, tr) && f in s.files
    requires forall t :: t in s.tasks ==> HeldFile(s.tasks[t].pc) != Some(f)
    ensures var o := if BoundTo(s, f, c) && s.channels[c].owner == Some(f) && s.channels[c].pending
                     then Answer(-EPIPE) else Silent;
      Shows(ReleaseStep(s, f), c, Next(tr, o)) && (o.Answer? ==> tr.last.Started?)
  {
    var s' := ReleaseStep(s, f);
    if !(OwnsChannel(s, f) && s.files[f].procIndex == c) {
      assert s'.channels[c] == s.channels[c];
      QuietShows(s, c, tr, s');
    }
  }

  lemma OtherStepShows(s: State, e: Step, c: nat, tr: Track)
    requires Shape(s) && Enabled(s, e) && Follows(s.core, c, tr)
    requires e.PublishCmd? || e.SealCmd? || e.WaitWake? || e.ReturnWake? || e.PutTask? || e.PutMm? || e.Signal?
          || e.SpuriousWake? || e.Repin? || e.Map? || e.Unmap? || e.Store?
    requires Shape(Exec(s, e).0)
    ensures Shows(Exec(s, e).0.core, c, tr)
  {
    var core' := Exec(s, e).0.core;
    match e
    case WaitWake(t, now) =>
      assert TaskInv(s.core, t);
      if s.core.tasks[t].signal {
        SetTaskShows(s.core, c, tr, t, core'.tasks[t]);
      } else {
        WaitShows(s.core, c, tr, t, s.core.tasks[t].pc.f, now);
      }
    case PublishCmd(t, f, pub) =>
      if core' == s.core { QuietShows(s.core, c, tr, core'); } else { SetTaskShows(s.core, c, tr, t, core'.tasks[t]); }
    case SealCmd(t) => SetTaskShows(s.core, c, tr, t, core'.tasks[t]);
    case ReturnWake(t) => SetTaskShows(s.core, c, tr, t, core'.tasks[t]);
    case Signal(t) => SetTaskShows(s.core, c, tr, t, core'.tasks[t]);
    case SpuriousWake(t) => SetTaskShows(s.core, c, tr, t, core'.tasks[t]);
    case Repin(t, mm, cpu, cpusAllowed) => SetTaskShows(s.core, c, tr, t, core'.tasks[t]);
    case _ => QuietShows(s.core, c, tr, core');
  }

  /** Starts and answers alternate, and what is returned is the stored result. */
  ghost predicate TakesTurns(s: Core, c: nat, tr: Track, o: Observation)
    requires CoreShape(s) && c < MAX_PROCS
  {
    && (o.Started? ==> !tr.last.Started?)
    && (o.Answer? ==> tr.last.Started?)
    && (o.Finished? ==> !tr.last.Started? && o.result == s.channels[c].handoff.result)
  }

  lemma StepShows(s: State, e: Step, c: nat, tr: Track)
    requires Shape(s) && Enabled(s, e) && Follows(s.core, c, tr)
    ensures Shape(Exec(s, e).0) && Shows(Exec(s, e).0.core, c, Next(tr, Observe(s, e, c)))
    ensures TakesTurns(s.core, c, tr, Observe(s, e, c))
  {
    StepKeepsInv(s, e);
    match e
    case Open(f) => SetFileShows(s.core, c, tr, f, FRESH_FILE);
    case SetRoleCmd(f, code) => SetFileShows(s.core, c, tr, f, SetRole(s.core.files[f], code).0);
    case BindCmd(f, id, epoch) => SetFileShows(s.core, c, tr, f, Bind(s.core.files[f], s.mem.meta, id, epoch).0);
    case RegisterCmd(t, f) => RegisterShows(s.core, c, tr, t, f);
    case WaitCmd(t, f, now) =>
      assert TaskInv(s.core, t);
      WaitShows(s.core, c, tr, t, f, now);
    case CallCmd(t, f, now) => CallShows(s.core, c, tr, t, f, now);
    case CallWake(t, now) => CallWakeShows(s.core, c, tr, t, now);
    case ReturnCmd(t, f, result, now) => ReturnShows(s.core, c, tr, t, f, result, now);
    case ReleaseFile(f) => ReleaseShows(s.core, c, tr, f);
    case _ => OtherStepShows(s, e, c, tr);
  }

  /** In every state of every run the channel shows what its history says. */
  lemma {:induction false} RunShows(r: Run, c: nat, n: nat)
    requires IsRun(r) && n <= |r.steps| && c < MAX_PROCS
    ensures Follows(r.states[n].core, c, TrackOf(Trace(r, c)[..n]))
  {
    RunKeepsInv(r, n);
    if n > 0 {
      RunShows(r, c, n - 1);
      assert StepOk(r.states[n - 1], r.steps[n - 1], r.states[n]);
      assert Trace(r, c)[..n][..n - 1] == Trace(r, c)[..n - 1];
      StepShows(r.states[n - 1], r.steps[n - 1], c, TrackOf(Trace(r, c)[..n - 1]));
    }
  }

  lemma RunTakesTurns(r: Run, c: nat, n: nat)
    requires IsRun(r) && n < |r.steps| && c < MAX_PROCS
    ensures Follows(r.states[n].core, c, TrackOf(Trace(r, c)[..n]))
    ensures TakesTurns(r.states[n].core, c, TrackOf(Trace(r, c)[..n]), Trace(r, c)[n])
  {
    RunShows(r, c, n);
    assert StepOk(r.states[n], r.steps[n], r.states[n + 1]);
    StepShows(r.states[n], r.steps[n], c, TrackOf(Trace(r, c)[..n]));
  }

  // ---- one call, from entry to return ----

  /** `t` started a call at `i` and has neither returned from it nor started another since. */
  ghost predicate InCallSince(obs: seq<Observation>, t: TaskId, i: nat) {
    && i < |obs| && obs[i] == Started(t)
    && forall k :: i < k < |obs| ==> obs[k] != Started(t) && !(obs[k].Finished? && obs[k].t == t)
  }

  /** How an observation moves a task into or out of CALL on the channel. */
  ghost predicate Moves(s: Core, s': Core, c: nat, t: TaskId, o: Observation) {
    && (Outstanding(s', c, t) <==> o == Started(t) || (Outstanding(s, c, t) && !(o.Finished? && o.t == t)))
    && (o == Started(t) ==> !Outstanding(s, c, t))
  }

  lemma SetFileMoves(s: Core, c: nat, t: TaskId, f: FileId, file: File)
    requires Inv(s) && c < MAX_PROCS && (f in s.files && s.files[f].bound ==> file == s.files[f])
    ensures Moves(s, SetFile(s, f, file), c, t, Silent)
  {
    if t in s.tasks { assert TaskInv(s, t); }
  }

  lemma SetTaskMoves(s: Core, c: nat, t: TaskId, u: TaskId, task: Task)
    requires u in s.tasks && (task.pc.InCall? || s.tasks[u].pc.InCall? ==> task.pc == s.tasks[u].pc)
    ensures Moves(s, SetTask(s, u, task), c, t, Silent)
  {
  }

  lemma WaitMoves(s: Core, c: nat, t: TaskId, u: TaskId, f: FileId, now: nat)
    requires Inv(s) && WaitReady(s, u, f)
    ensures Moves(s, WaitStep(s, u, f, now).0, c, t, Silent)
  {
  }

  lemma CallMoves(s: Core, c: nat, t: TaskId, u: TaskId, f: FileId, now: nat)
    requires Inv(s) && InUser(s, u) && f in s.files
    ensures Moves(s, CallStep(s, u, f, now), c, t,
                  if BoundTo(s, f, c) && CallReply(s, u, f) == Asleep then Started(u) else Silent)
  {
  }

  lemma CallWakeMoves(s: Core, c: nat, t: TaskId, u: TaskId, now: nat)
    requires Inv(s) && CallWakeReady(s, u)
    ensures var (s', reply) := CallWakeStep(s, u, now);
      Moves(s, s', c, t, if Outstanding(s, c, u) && reply.Copied? then Finished(u, reply.handoff.result) else Silent)
  {
  }

  lemma ReturnMoves(s: Core, c: nat, t: TaskId, u: TaskId, f: FileId, result: int, now: nat)
    requires Inv(s) && InUser(s, u) && ShadowIssues(s, u, f)
    ensures Moves(s, ReturnStep(s, u, f, result, now), c, t, Silent)
  {
  }

  lemma ReleaseMoves(s: Core, c: nat, t: TaskId, f: FileId)
    requires Inv(s) && f in s.files && forall u :: u in s.tasks ==> HeldFile(s.tasks[u].pc) != Some(f)
    ensures Moves(s, ReleaseStep(s, f), c, t, Silent)
  {
  }

  lemma OtherStepMoves(s: State, e: Step, c: nat, t: TaskId)
    requires Shape(s) && Inv(s.core) && Enabled(s, e) && c < MAX_PROCS
    requires e.PublishCmd? || e.SealCmd? || e.WaitWake? || e.ReturnWake? || e.PutTask? || e.PutMm? || e.Signal?
          || e.SpuriousWake? || e.Repin? || e.Map? || e.Unmap? || e.Store?
    ensures Moves(s.core, Exec(s, e).0.core, c, t, Silent)
  {
    var core' := Exec(s, e).0.core;
    match e
    case WaitWake(u, now) =>
      assert TaskInv(s.core, u);
      if s.core.tasks[u].signal {
        SetTaskMoves(s.core, c, t, u, core'.tasks[u]);
      } else {
        WaitMoves(s.core, c, t, u, s.core.tasks[u].pc.f, now);
      }
    case PublishCmd(u, f, pub) => if core' != s.core { SetTaskMoves(s.core, c, t, u, core'.tasks[u]); }
    case SealCmd(u) => SetTaskMoves(s.core, c, t, u, core'.tasks[u]);
    case ReturnWake(u) => SetTaskMoves(s.core, c, t, u, core'.tasks[u]);
    case Signal(u) => SetTaskMoves(s.core, c, t, u, core'.tasks[u]);
    case SpuriousWake(u) => SetTaskMoves(s.core, c, t, u, core'.tasks[u]);
    case Repin(u, mm, cpu, cpusAllowed) => SetTaskMoves(s.core, c, t, u, core'.tasks[u]);
    case _ =>
  }

  lemma StepMoves(s: State, e: Step, c: nat, t: TaskId)
    requires Shape(s) && Inv(s.core) && Enabled(s, e) && c < MAX_PROCS
    ensures Moves(s.core, Exec(s, e).0.core, c, t, Observe(s, e, c))
  {
    match e
    case Open(f) => SetFileMoves(s.core, c, t, f, FRESH_FILE);
    case SetRoleCmd(f, code) => SetFileMoves(s.core, c, t, f, SetRole(s.core.files[f], code).0);
    case BindCmd(f, id, epoch) => SetFileMoves(s.core, c, t, f, Bind(s.core.files[f], s.mem.meta, id, epoch).0);
    case RegisterCmd(u, f) =>
    case WaitCmd(u, f, now) =>
      assert TaskInv(s.core, u);
      WaitMoves(s.core, c, t, u, f, now);
    case CallCmd(u, f, now) => CallMoves(s.core, c, t, u, f, now);
    case CallWake(u, now) => CallWakeMoves(s.core, c, t, u, now);
    case ReturnCmd(u, f, result, now) => ReturnMoves(s.core, c, t, u, f, result, now);
    case ReleaseFile(f) => ReleaseMoves(s.core, c, t, f);
    case _ => OtherStepMoves(s, e, c, t);
  }

  lemma RunMoves(r: Run, c: nat, k: nat, t: TaskId)
    requires IsRun(r) && c < MAX_PROCS && k < |r.steps|
    ensures Moves(r.states[k].core, r.states[k + 1].core, c, t, Trace(r, c)[k])
  {
    RunKeepsInv(r, k);
    assert StepOk(r.states[k], r.steps[k], r.states[k + 1]);
    StepMoves(r.states[k], r.steps[k], c, t);
  }

  /** Whoever is inside CALL entered it at some step. */
  lemma {:induction false} Entered(states: seq<State>, obs: seq<Observation>, c: nat, n: nat, t: TaskId) returns (i: nat)
    requires n <= |obs| < |states| && !Outstanding(states[0].core, c, t) && Outstanding(states[n].core, c, t)
    requires forall k :: 0 <= k < |obs| ==> Moves(states[k].core, states[k + 1].core, c, t, obs[k])
    ensures InCallSince(obs[..n], t, i)
    decreases n
  {
    assert Moves(states[n - 1].core, states[n].core, c, t, obs[n - 1]);
    if obs[n - 1] == Started(t) {
      i := n - 1;
    } else {
      i := Entered(states, obs, c, n - 1, t);
      assert forall k :: i < k < n - 1 ==> obs[..n][k] == obs[..n - 1][k];
    }
  }

  lemma CallEntered(r: Run, c: nat, n: nat, t: TaskId) returns (i: nat)
    requires IsRun(r) && c < MAX_PROCS && n < |r.states| && Outstanding(r.states[n].core, c, t)
    ensures InCallSince(Trace(r, c)[..n], t, i)
  {
    forall k | 0 <= k < |r.steps| ensures Moves(r.states[k].core, r.states[k + 1].core, c, t, Trace(r, c)[k]) {
      RunMoves(r, c, k, t);
    }
    i := Entered(r.states, Trace(r, c), c, n, t);
  }

  /** And stays inside from there on. */
  lemma {:induction false} Inside(states: seq<State>, obs: seq<Observation>, c: nat, n: nat, t: TaskId, i: nat, k: nat)
    requires n <= |obs| < |states| && InCallSince(obs[..n], t, i) && i < k <= n
    requires forall m :: 0 <= m < |obs| ==> Moves(states[m].core, states[m + 1].core, c, t, obs[m])
    ensures Outstanding(states[k].core, c, t)
    decreases k
  {
    assert Moves(states[k - 1].core, states[k].core, c, t, obs[k - 1]);
    assert obs[..n][k - 1] == obs[k - 1];
    if k - 1 > i { Inside(states, obs, c, n, t, i, k - 1); }
  }

  lemma StillInCall(r: Run, c: nat, n: nat, t: TaskId, i: nat, k: nat)
    requires IsRun(r) && c < MAX_PROCS && n < |r.states| && InCallSince(Trace(r, c)[..n], t, i) && i < k <= n
    ensures Outstanding(r.states[k].core, c, t)
  {
    forall m | 0 <= m < |r.steps| ensures Moves(r.states[m].core, r.states[m + 1].core, c, t, Trace(r, c)[m]) {
      RunMoves(r, c, m, t);
    }
    Inside(r.states, Trace(r, c), c, n, t, i, k);
  }

  /** No CALL is accepted on the channel strictly between the two steps. */
  ghost predicate NoCallBetween(obs: seq<Observation>, i: nat, n: nat)
    requires n <= |obs|
  {
    forall k :: i < k < n ==> !obs[k].Started?
  }

  /** `j` answers the call started at `i`: it is the first answer after it. */
  ghost predicate FirstAnswer(obs: seq<Observation>, i: nat, j: nat) {
    i < j < |obs| && obs[j].Answer? && forall k :: i < k < j ==> !obs[k].Answer?
  }

  /** `j` is the latest start or answer before `n`. */
  ghost predicate LatestTurn(obs: seq<Observation>, j: nat, n: nat)
    requires n <= |obs|
  {
    j < n && Turns(obs[j]) && forall k :: j < k < n ==> !Turns(obs[k])
  }

  lemma {:induction false} LatestIsTracked(obs: seq<Observation>, n: nat, i: nat) returns (j: nat)
    requires i < n <= |obs| && Turns(obs[i])
    ensures i <= j && LatestTurn(obs, j, n) && TrackOf(obs[..n]).last == obs[j]
    decreases n
  {
    assert obs[..n][..n - 1] == obs[..n - 1];
    if Turns(obs[n - 1]) {
      j := n - 1;
    } else {
      j := LatestIsTracked(obs, n - 1, i);
    }
  }

  lemma {:induction false} LatestCaller(obs: seq<Observation>, n: nat, i: nat)
    requires i < n <= |obs| && obs[i].Started? && NoCallBetween(obs, i, n)
    ensures TrackOf(obs[..n]).caller == Some(obs[i].t)
    decreases n
  {
    assert obs[..n][..n - 1] == obs[..n - 1];
    if i < n - 1 { LatestCaller(obs, n - 1, i); }
  }

  /** A start never follows a start, nor an answer an answer. */
  ghost predicate InTurn(obs: seq<Observation>, k: nat)
    requires k < |obs|
  {
    && (obs[k].Started? ==> !TrackOf(obs[..k]).last.Started?)
    && (obs[k].Answer? ==> TrackOf(obs[..k]).last.Started?)
  }

  /** The latest answer is the call's own exactly if no other call was accepted meanwhile. */
  lemma OwnAnswerIff(obs: seq<Observation>, i: nat, j: nat, n: nat)
    requires i < j < n <= |obs| && obs[i].Started? && obs[j].Answer? && LatestTurn(obs, j, n)
    requires forall k :: 0 <= k < n ==> InTurn(obs, k)
    ensures FirstAnswer(obs, i, j) <==> NoCallBetween(obs, i, n)
  {
    assert InTurn(obs, j);
    var p := LatestIsTracked(obs, j, i);
    if FirstAnswer(obs, i, j) {
      forall k | i < k < n ensures !obs[k].Started? {
        if obs[k].Started? {
          assert InTurn(obs, k);
          var q := LatestIsTracked(obs, k, i);
          assert false;
        }
      }
    }
  }

  /**
    Result delivery.  When a CALL by `t` on channel `c` returns at step `n`, it entered at a step `i`, and what it
    carries is the latest answer on the channel, given at a step `j` after `i`: the value passed to RETURN, or
    -EPIPE when `j` released the shadow's file.  That is the answer to this call, the first one after `i`, if and
    only if no other CALL was accepted on the channel between `i` and `n`.
  */
  lemma ReturnedResultIsTheAnswer(r: Run, c: nat, n: nat) returns (i: nat, j: nat)
    requires IsRun(r) && c < MAX_PROCS && n < |r.steps| && Trace(r, c)[n].Finished?
    ensures var obs := Trace(r, c); var t, result := obs[n].t, obs[n].result;
      && i < j < n && InCallSince(obs[..n], t, i) && r.steps[i].CallCmd? && r.steps[i].t == t
      && obs[j] == Answer(result) && Answers(r.steps[j], result) && LatestTurn(obs, j, n)
      && (FirstAnswer(obs, i, j) <==> NoCallBetween(obs, i, n))
  {
    var obs := Trace(r, c);
    FinishedWasInside(r, c, n);
    i := CallEntered(r, c, n, obs[n].t);
    j := LatestIsTracked(obs, n, i);
    RunTakesTurns(r, c, n);
    forall k | 0 <= k < n ensures InTurn(obs, k) { RunTakesTurns(r, c, k); }
    OwnAnswerIff(obs, i, j, n);
    ObservedStep(r, c, i);
    ObservedStep(r, c, j);
  }

  lemma FinishedWasInside(r: Run, c: nat, n: nat)
    requires IsRun(r) && c < MAX_PROCS && n < |r.steps| && Trace(r, c)[n].Finished?
    ensures Outstanding(r.states[n].core, c, Trace(r, c)[n].t)
  {
    assert StepOk(r.states[n], r.steps[n], r.states[n + 1]);
  }

  /** With one outstanding caller at a time nobody starts while somebody is inside. */
  lemma SerialStep(r: Run, c: nat, k: nat, t: TaskId)
    requires SerialRun(r) && c < MAX_PROCS && k < |r.steps| && Outstanding(r.states[k].core, c, t)
    ensures !Trace(r, c)[k].Started?
  {
    assert StepOk(r.states[k], r.steps[k], r.states[k + 1]);
    assert OneCaller(r.states[k].core, r.steps[k]);
  }

  /** So no other CALL is ever accepted during a call. */
  lemma SerialRunsDeliver(r: Run, c: nat, n: nat, t: TaskId, i: nat)
    requires SerialRun(r) && c < MAX_PROCS && n < |r.states| && InCallSince(Trace(r, c)[..n], t, i)
    ensures NoCallBetween(Trace(r, c), i, n)
  {
    forall k | i < k < n ensures !Trace(r, c)[k].Started? {
      StillInCall(r, c, n, t, i, k);
      SerialStep(r, c, k, t);
    }
  }

  // ---- nobody sleeps for ever ----

  /** Nobody returns while the latest turn is a start. */
  lemma NoReturnAfterStart(r: Run, c: nat, j: nat, k: nat)
    requires IsRun(r) && c < MAX_PROCS && j < k < |r.steps| && LatestTurn(Trace(r, c), j, k) && Trace(r, c)[j].Started?
    ensures !Trace(r, c)[k].Finished?
  {
    RunTakesTurns(r, c, k);
    var i := LatestIsTracked(Trace(r, c), k, j);
  }

  /** So whoever started is still inside, and is the one to be woken. */
  lemma LatestStarterIsInside(r: Run, c: nat, n: nat, j: nat)
    requires IsRun(r) && c < MAX_PROCS && n < |r.states| && LatestTurn(Trace(r, c), j, n) && Trace(r, c)[j].Started?
    ensures Outstanding(r.states[n].core, c, Trace(r, c)[j].t)
  {
    var obs := Trace(r, c);
    forall k | j < k < n ensures !obs[k].Finished? { NoReturnAfterStart(r, c, j, k); }
    assert InCallSince(obs[..n], obs[j].t, j);
    StillInCall(r, c, n, obs[j].t, j, n);
  }

  lemma LatestStarterIsNamed(r: Run, c: nat, n: nat, j: nat)
    requires IsRun(r) && c < MAX_PROCS && n < |r.states| && LatestTurn(Trace(r, c), j, n) && Trace(r, c)[j].Started?
    ensures CoreShape(r.states[n].core) && r.states[n].core.channels[c].callerTask == Some(Trace(r, c)[j].t)
  {
    LatestStarterIsInside(r, c, n, j);
    RunShows(r, c, n);
    var k := LatestIsTracked(Trace(r, c), n, j);
  }

  /** If its call is pending and it is the one to be woken, nobody has called since. */
  lemma NamedCallerIsLatest(r: Run, c: nat, n: nat, t: TaskId, i: nat)
    requires IsRun(r) && n < |r.states| && c < MAX_PROCS && InCallSince(Trace(r, c)[..n], t, i)
    requires CoreShape(r.states[n].core) && r.states[n].core.channels[c].pending
    requires r.states[n].core.channels[c].callerTask == Some(t)
    ensures NoCallBetween(Trace(r, c), i, n)
  {
    var obs := Trace(r, c);
    var j := LatestIsTracked(obs, n, i);
    assert obs[j].Started? by { RunShows(r, c, n); }
    LatestStarterIsNamed(r, c, n, j);
    assert obs[..n][j] == obs[j];
  }

  /**
    No lost wake-up towards the caller, exactly: a caller inside CALL that the scheduler will not run has its call
    pending and is the one the channel will wake if and only if no other CALL was accepted on the channel since it
    entered.
  */
  lemma SleepingCallerHasPendingCallIff(r: Run, c: nat, n: nat, t: TaskId, i: nat)
    requires IsRun(r) && n < |r.states| && c < MAX_PROCS && InCallSince(Trace(r, c)[..n], t, i)
    requires t in r.states[n].core.tasks && r.states[n].core.tasks[t].run != Running
    ensures CoreShape(r.states[n].core)
    ensures r.states[n].core.channels[c].pending && r.states[n].core.channels[c].callerTask == Some(t)
         <==> NoCallBetween(Trace(r, c), i, n)
  {
    RunShows(r, c, n);
    StillInCall(r, c, n, t, i, n);
    var ch := r.states[n].core.channels[c];
    if NoCallBetween(Trace(r, c), i, n) {
      LatestCaller(Trace(r, c), n, i);
    } else if ch.pending && ch.callerTask == Some(t) {
      NamedCallerIsLatest(r, c, n, t, i);
      assert false;
    }
  }

  /** The shadow of the channel is registered and not asleep waiting for this channel's calls. */
  ghost predicate ShadowAttends(s: Core, c: nat)
    requires CoreShape(s) && c < MAX_PROCS
  {
    && s.channels[c].shadowTask.Some?
    && s.channels[c].shadowTask.value in s.tasks
    && var shadow := s.tasks[s.channels[c].shadowTask.value];
       ((shadow.pc.InWait? || shadow.pc.InReturn?) && BoundTo(s, shadow.pc.f, c) ==> shadow.run == Running)
  }

  /** The caller's next step completes its call with the stored result. */
  ghost predicate CallerCompletes(s: Core, c: nat, t: TaskId, now: nat)
    requires CoreShape(s) && c < MAX_PROCS
  {
    && CallWakeReady(s, t)
    && CallWakeStep(s, t, now).1.Copied?
    && CallWakeStep(s, t, now).1.handoff.result == s.channels[c].handoff.result
  }

  /**
    Neither side sleeps for ever after the other acted.  As long as no other CALL is accepted, either the call has
    been answered and the caller's next step completes it with that answer, or it is pending, its shadow is
    registered, and the shadow is not asleep waiting for it.
  */
  lemma OutstandingCallCanProgress(r: Run, c: nat, n: nat, t: TaskId, i: nat, now: nat)
    requires IsRun(r) && n < |r.states| && c < MAX_PROCS
    requires InCallSince(Trace(r, c)[..n], t, i) && NoCallBetween(Trace(r, c), i, n)
    ensures CoreShape(r.states[n].core)
    ensures if r.states[n].core.channels[c].pending
            then ShadowAttends(r.states[n].core, c)
            else CallerCompletes(r.states[n].core, c, t, now)
  {
    RunShows(r, c, n);
    StillInCall(r, c, n, t, i, n);
    LatestCaller(Trace(r, c), n, i);
    var s := r.states[n].core;
    assert ChannelInv(s, c);
    assert TaskInv(s, t);
    if s.channels[c].pending {
      assert TaskInv(s, s.channels[c].shadowTask.value);
    }
  }
}
