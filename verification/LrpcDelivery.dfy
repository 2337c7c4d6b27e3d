/**
  Result delivery under discipline.  As long as a channel has one outstanding caller at a time, every
  run of the driver refines a three-state call/answer/finish protocol: a CALL that returns carries
  exactly the result of the one RETURN that answered it, or -EPIPE if the shadow's file was released
  instead.  What holds call by call, without that discipline, is in `LrpcCalls`.
*/
module LrpcDelivery {
  import opened Common
  import opened LrpcAbi
  import opened LrpcFile
  import opened LrpcChannel
  import opened LrpcSystem
  import opened LrpcSafety

  // ---- one outstanding caller per channel ----

  /** Task `t` is inside CALL on channel `c`. */
  ghost predicate Outstanding(s: Core, c: nat, t: TaskId) {
    t in s.tasks && s.tasks[t].pc.InCall? && BoundTo(s, s.tasks[t].pc.f, c)
  }

  /** The discipline asked of callers: nobody else is inside CALL on the channel. */
  ghost predicate OneCaller(s: Core, e: Step) {
    e.CallCmd? && e.f in s.files && s.files[e.f].channel.Some? ==>
      forall t :: !Outstanding(s, s.files[e.f].channel.value, t)
  }

  ghost predicate SerialRun(r: Run) {
    IsRun(r) && forall i :: 0 <= i < |r.steps| ==> OneCaller(r.states[i].core, r.steps[i])
  }

  /** At most one outstanding caller, registered while pending and asleep only while pending. */
  ghost predicate Serial(s: Core, c: nat)
    requires CoreShape(s) && c < MAX_PROCS
  {
    && (forall t, u :: Outstanding(s, c, t) && Outstanding(s, c, u) ==> t == u)
    && (forall t :: Outstanding(s, c, t) ==>
          && (s.channels[c].pending ==> s.channels[c].callerTask == Some(t))
          && (s.tasks[t].run != Running ==> s.channels[c].pending))
  }

  // ---- the reference protocol ----

  datatype CallState = NoCall | Waiting(t: TaskId) | Answered(t: TaskId, result: int)

  datatype Observation = Silent | Started(t: TaskId) | Answer(result: int) | Finished(t: TaskId, result: int)

  function SpecStep(a: CallState, o: Observation): (r: Option<CallState>) {
    match (a, o)
    case (_, Silent) => Some(a)
    case (NoCall, Started(t)) => Some(Waiting(t))
    case (Waiting(t), Answer(result)) => Some(Answered(t, result))
    case (Answered(t, result), Finished(u, got)) => if u == t && got == result then Some(NoCall) else None
    case _ => None
  }

  /** What a step shows to an observer of channel `c`. */
  ghost function Observe(s: State, e: Step, c: nat): (o: Observation)
    requires Shape(s) && Enabled(s, e) && c < MAX_PROCS
  {
    match e
    case CallCmd(t, f, now) =>
      if BoundTo(s.core, f, c) && Exec(s, e).1 == Asleep then Started(t) else Silent
    case CallWake(t, now) =>
      if Outstanding(s.core, c, t) && Exec(s, e).1.Copied? then Finished(t, Exec(s, e).1.handoff.result) else Silent
    case ReturnCmd(t, f, result, now) =>
      if BoundTo(s.core, f, c) && Exec(s, e).1 == Asleep then Answer(result) else Silent
    case ReleaseFile(f) =>
      if BoundTo(s.core, f, c) && s.core.channels[c].owner == Some(f) && s.core.channels[c].pending
      then Answer(-EPIPE) else Silent
    case _ => Silent
  }

  ghost predicate Represents(s: Core, c: nat, a: CallState)
    requires CoreShape(s) && c < MAX_PROCS
  {
    match a
    case NoCall => forall t :: !Outstanding(s, c, t)
    case Waiting(t) => Outstanding(s, c, t) && s.channels[c].pending
    case Answered(t, result) =>
      Outstanding(s, c, t) && !s.channels[c].pending && s.channels[c].handoff.result == result
  }

  /** What one step must establish on one channel. */
  ghost predicate Refines(s: Core, c: nat, a: CallState, o: Observation, s': Core)
    requires CoreShape(s) && CoreShape(s') && c < MAX_PROCS
  {
    && Serial(s', c)
    && SpecStep(a, o).Some?
    && Represents(s', c, SpecStep(a, o).value)
  }

  ghost predicate Linked(s: Core, c: nat, a: CallState) {
    Inv(s) && c < MAX_PROCS && Serial(s, c) && Represents(s, c, a)
  }

  // ---- each kind of step refines the protocol ----

  /** Steps that neither touch the channel's call nor move a task into or out of CALL on it. */
  lemma QuietRefines(s: Core, c: nat, a: CallState, s': Core)
    requires Linked(s, c, a) && CoreShape(s')
    requires s'.channels[c].pending == s.channels[c].pending
    requires s'.channels[c].callerTask == s.channels[c].callerTask
    requires s'.channels[c].handoff.result == s.channels[c].handoff.result
    requires forall t :: Outstanding(s', c, t) <==> Outstanding(s, c, t)
    requires forall t :: Outstanding(s', c, t) && Outstanding(s, c, t) && s'.tasks[t].run != Running ==>
      s.tasks[t].run != Running
    ensures Refines(s, c, a, Silent, s')
  {
  }

  lemma SetFileRefines(s: Core, c: nat, a: CallState, f: FileId, file: File)
    requires Linked(s, c, a) && FileOk(file)
    requires f in s.files && s.files[f].bound ==> file == s.files[f]
    ensures Refines(s, c, a, Silent, SetFile(s, f, file))
  {
    var s' := SetFile(s, f, file);
    forall t ensures Outstanding(s', c, t) <==> Outstanding(s, c, t) {
      if t in s.tasks { assert TaskInv(s, t); }
    }
    QuietRefines(s, c, a, s');
  }

  lemma SetTaskRefines(s: Core, c: nat, a: CallState, t: TaskId, task: Task)
    requires Linked(s, c, a) && t in s.tasks
    requires task.pc.InCall? || s.tasks[t].pc.InCall? ==> task.pc == s.tasks[t].pc
    requires task.run != Running ==> s.tasks[t].run != Running || !task.pc.InCall?
    ensures Refines(s, c, a, Silent, SetTask(s, t, task))
  {
    QuietRefines(s, c, a, SetTask(s, t, task));
  }

  lemma RegisterRefines(s: Core, c: nat, a: CallState, t: TaskId, f: FileId)
    requires Linked(s, c, a) && InUser(s, t) && f in s.files
    ensures Refines(s, c, a, Silent, RegisterStep(s, t, f))
  {
    QuietRefines(s, c, a, RegisterStep(s, t, f));
  }

  lemma WaitRefines(s: Core, c: nat, a: CallState, t: TaskId, f: FileId, now: nat)
    requires Linked(s, c, a) && WaitReady(s, t, f)
    ensures Refines(s, c, a, Silent, WaitStep(s, t, f, now).0)
  {
    QuietRefines(s, c, a, WaitStep(s, t, f, now).0);
  }

  lemma CallRefines(s: Core, c: nat, a: CallState, t: TaskId, f: FileId, now: nat)
    requires Linked(s, c, a) && InUser(s, t) && f in s.files
    requires OneCaller(s, CallCmd(t, f, now))
    ensures Refines(s, c, a,
                    if BoundTo(s, f, c) && CallReply(s, t, f) == Asleep then Started(t) else Silent,
                    CallStep(s, t, f, now))
  {
    var s' := CallStep(s, t, f, now);
    if CallReply(s, t, f) == Asleep {
      if BoundTo(s, f, c) {
        forall u ensures Outstanding(s', c, u) <==> u == t {
          assert !Outstanding(s, c, u);
        }
      } else {
        assert s'.channels[c] == s.channels[c];
        forall u ensures Outstanding(s', c, u) <==> Outstanding(s, c, u) {
        }
        QuietRefines(s, c, a, s');
      }
    }
  }

  lemma CallWakeRefines(s: Core, c: nat, a: CallState, t: TaskId, now: nat)
    requires Linked(s, c, a) && CallWakeReady(s, t)
    ensures var (s', reply) := CallWakeStep(s, t, now);
      Refines(s, c, a,
              if Outstanding(s, c, t) && reply.Copied? then Finished(t, reply.handoff.result) else Silent, s')
  {
    var (s', reply) := CallWakeStep(s, t, now);
    if Outstanding(s, c, t) && reply.Copied? {
      forall u ensures !Outstanding(s', c, u) {
        assert Outstanding(s', c, u) ==> Outstanding(s, c, u);
      }
    } else if !Outstanding(s, c, t) {
      assert s'.channels[c] == s.channels[c];
      QuietRefines(s, c, a, s');
    }
  }

  lemma ReturnRefines(s: Core, c: nat, a: CallState, t: TaskId, f: FileId, result: int, now: nat)
    requires Linked(s, c, a) && InUser(s, t) && ShadowIssues(s, t, f)
    ensures Refines(s, c, a,
                    if BoundTo(s, f, c) && ReturnReply(s, f) == Asleep then Answer(result) else Silent,
                    ReturnStep(s, t, f, result, now))
  {
    var s' := ReturnStep(s, t, f, result, now);
    if ReturnReply(s, f) == Asleep {
      forall u ensures Outstanding(s', c, u) <==> Outstanding(s, c, u) {
      }
      if BoundTo(s, f, c) {
        assert ChannelInv(s, c);
        assert Outstanding(s, c, s.channels[c].callerTask.value);
      } else {
        assert s'.channels[c] == s.channels[c];
        QuietRefines(s, c, a, s');
      }
    }
  }

  lemma ReleaseRefines(s: Core, c: nat, a: CallState, f: FileId)
    requires Linked(s, c, a) && f in s.files
    requires forall t :: t in s.tasks ==> HeldFile(s.tasks[t].pc) != Some(f)
    ensures Refines(s, c, a,
                    if BoundTo(s, f, c) && s.channels[c].owner == Some(f) && s.channels[c].pending
                    then Answer(-EPIPE) else Silent,
                    ReleaseStep(s, f))
  {
    var s' := ReleaseStep(s, f);
    forall u ensures Outstanding(s', c, u) <==> Outstanding(s, c, u) {
    }
    if BoundTo(s, f, c) && s.channels[c].owner == Some(f) && s.channels[c].pending {
      assert ChannelInv(s, c);
      assert Outstanding(s, c, s.channels[c].callerTask.value);
    } else if OwnsChannel(s, f) && s.files[f].procIndex == c {
      assert !s.channels[c].pending && s'.channels[c].handoff == s.channels[c].handoff;
    } else {
      assert s'.channels[c] == s.channels[c];
      QuietRefines(s, c, a, s');
    }
  }

  lemma StepRefines(s: State, e: Step, c: nat, a: CallState)
    requires Shape(s) && Enabled(s, e) && Linked(s.core, c, a) && OneCaller(s.core, e)
    ensures Shape(Exec(s, e).0) && Refines(s.core, c, a, Observe(s, e, c), Exec(s, e).0.core)
  {
    StepKeepsInv(s, e);
    match e
    case Open(f) => SetFileRefines(s.core, c, a, f, FRESH_FILE);
    case SetRoleCmd(f, code) => SetFileRefines(s.core, c, a, f, SetRole(s.core.files[f], code).0);
    case BindCmd(f, id, epoch) => SetFileRefines(s.core, c, a, f, Bind(s.core.files[f], s.mem.meta, id, epoch).0);
    case RegisterCmd(t, f) => RegisterRefines(s.core, c, a, t, f);
    case WaitCmd(t, f, now) =>
      assert TaskInv(s.core, t);
      WaitRefines(s.core, c, a, t, f, now);
    case CallCmd(t, f, now) => CallRefines(s.core, c, a, t, f, now);
    case CallWake(t, now) => CallWakeRefines(s.core, c, a, t, now);
    case ReturnCmd(t, f, result, now) => ReturnRefines(s.core, c, a, t, f, result, now);
    case ReleaseFile(f) => ReleaseRefines(s.core, c, a, f);
    case _ => OtherStepRefines(s, e, c, a);
  }

  lemma OtherStepRefines(s: State, e: Step, c: nat, a: CallState)
    requires Shape(s) && Enabled(s, e) && Linked(s.core, c, a)
    requires e.PublishCmd? || e.SealCmd? || e.WaitWake? || e.ReturnWake? || e.PutTask? || e.PutMm? || e.Signal?
          || e.SpuriousWake? || e.Repin? || e.Map? || e.Unmap? || e.Store?
    requires Shape(Exec(s, e).0)
    ensures Refines(s.core, c, a, Silent, Exec(s, e).0.core)
  {
    if e.WaitWake? {
      assert TaskInv(s.core, e.t);
      if s.core.tasks[e.t].signal {
        SetTaskRefines(s.core, c, a, e.t, Exec(s, e).0.core.tasks[e.t]);
      } else {
        WaitRefines(s.core, c, a, e.t, s.core.tasks[e.t].pc.f, e.now);
      }
    } else if e.PutTask? || e.PutMm? || e.Map? || e.Unmap? || e.Store? {
      QuietRefines(s.core, c, a, Exec(s, e).0.core);
    } else {
      OneTaskRefines(s, e, c, a);
    }
  }

  /** Steps that change at most one task, and not whether it is in a call. */
  lemma OneTaskMoves(s: State, e: Step)
    requires Shape(s) && Inv(s.core) && Enabled(s, e)
    requires e.PublishCmd? || e.SealCmd? || e.ReturnWake? || e.Signal? || e.SpuriousWake? || e.Repin?
    ensures var core' := Exec(s, e).0.core;
      core' == s.core ||
      (&& e.t in s.core.tasks && e.t in core'.tasks && core' == SetTask(s.core, e.t, core'.tasks[e.t])
       && var task, task' := s.core.tasks[e.t], core'.tasks[e.t];
          && (task'.pc.InCall? || task.pc.InCall? ==> task'.pc == task.pc)
          && (task'.run != Running ==> task.run != Running || !task'.pc.InCall?))
  {
    if e.Repin? { assert TaskInv(s.core, e.t); }
  }

  lemma OneTaskRefines(s: State, e: Step, c: nat, a: CallState)
    requires Shape(s) && Enabled(s, e) && Linked(s.core, c, a)
    requires e.PublishCmd? || e.SealCmd? || e.ReturnWake? || e.Signal? || e.SpuriousWake? || e.Repin?
    requires Shape(Exec(s, e).0)
    ensures Refines(s.core, c, a, Silent, Exec(s, e).0.core)
  {
    var core' := Exec(s, e).0.core;
    OneTaskMoves(s, e);
    if core' == s.core { QuietRefines(s.core, c, a, core'); } else { SetTaskRefines(s.core, c, a, e.t, core'.tasks[e.t]); }
  }

  // ---- whole runs ----

  /** What the whole run shows on channel `c`. */
  ghost function Trace(r: Run, c: nat): (obs: seq<Observation>)
    requires IsRun(r) && c < MAX_PROCS
    ensures |obs| == |r.steps|
  {
    seq(|r.steps|, i requires 0 <= i < |r.steps| && StepOk(r.states[i], r.steps[i], r.states[i + 1]) =>
      Observe(r.states[i], r.steps[i], c))
  }

  /** The reference protocol after a trace, or None if it refuses it. */
  function SpecAfter(obs: seq<Observation>): (a: Option<CallState>) {
    if obs == [] then Some(NoCall)
    else
      var a := SpecAfter(obs[..|obs| - 1]);
      if a.None? then None else SpecStep(a.value, obs[|obs| - 1])
  }

  /** An observation takes the linked protocol state along. */
  ghost predicate Carries(s: Core, c: nat, o: Observation, s': Core) {
    forall a: CallState :: Linked(s, c, a) ==> SpecStep(a, o).Some? && Linked(s', c, SpecStep(a, o).value)
  }

  lemma StepCarries(r: Run, c: nat, k: nat)
    requires SerialRun(r) && k < |r.steps| && c < MAX_PROCS
    ensures Carries(r.states[k].core, c, Trace(r, c)[k], r.states[k + 1].core)
  {
    RunKeepsInv(r, k + 1);
    assert StepOk(r.states[k], r.steps[k], r.states[k + 1]);
    assert OneCaller(r.states[k].core, r.steps[k]);
    forall a: CallState | Linked(r.states[k].core, c, a)
      ensures SpecStep(a, Trace(r, c)[k]).Some? && Linked(r.states[k + 1].core, c, SpecStep(a, Trace(r, c)[k]).value)
    {
      StepRefines(r.states[k], r.steps[k], c, a);
    }
  }

  lemma {:induction false} CarriesThroughout(states: seq<State>, obs: seq<Observation>, c: nat, n: nat)
    requires n <= |obs| < |states| && Linked(states[0].core, c, NoCall)
    requires forall k :: 0 <= k < n ==> Carries(states[k].core, c, obs[k], states[k + 1].core)
    ensures SpecAfter(obs[..n]).Some? && Linked(states[n].core, c, SpecAfter(obs[..n]).value)
  {
    if n > 0 {
      CarriesThroughout(states, obs, c, n - 1);
      assert obs[..n][..n - 1] == obs[..n - 1];
      assert Carries(states[n - 1].core, c, obs[n - 1], states[n].core);
    }
  }

  /** Every run with one outstanding caller per channel refines the reference protocol. */
  lemma RunRefinesProtocol(r: Run, c: nat, n: nat)
    requires SerialRun(r) && n <= |r.steps| && c < MAX_PROCS
    ensures SpecAfter(Trace(r, c)[..n]).Some?
    ensures Linked(r.states[n].core, c, SpecAfter(Trace(r, c)[..n]).value)
  {
    RunKeepsInv(r, 0);
    forall k | 0 <= k < n ensures Carries(r.states[k].core, c, Trace(r, c)[k], r.states[k + 1].core) { StepCarries(r, c, k); }
    CarriesThroughout(r.states, Trace(r, c), c, n);
  }

  ghost predicate SilentFrom(obs: seq<Observation>, lo: nat) {
    forall i :: lo <= i < |obs| ==> obs[i] == Silent
  }

  /** The last thing seen is `t` starting a call, at `i`. */
  ghost predicate StartedAt(obs: seq<Observation>, t: TaskId, i: nat) {
    i < |obs| && obs[i] == Started(t) && SilentFrom(obs, i + 1)
  }

  /** The last things seen are `t` starting a call at `i` and its one answer at `j`. */
  ghost predicate AnsweredAt(obs: seq<Observation>, t: TaskId, result: int, i: nat, j: nat) {
    j < |obs| && StartedAt(obs[..j], t, i) && obs[j] == Answer(result) && SilentFrom(obs, j + 1)
  }

  /** Reading the protocol state back as positions in the trace. */
  lemma {:induction false} ProtocolHistory(obs: seq<Observation>)
    requires SpecAfter(obs).Some?
    ensures var a := SpecAfter(obs).value;
      && (a.Waiting? ==> exists i: nat :: StartedAt(obs, a.t, i))
      && (a.Answered? ==> exists i: nat, j: nat :: AnsweredAt(obs, a.t, a.result, i, j))
  {
    if obs != [] {
      var n := |obs| - 1;
      var front := obs[..n];
      ProtocolHistory(front);
      var b := SpecAfter(front).value;
      match obs[n]
      case Silent =>
        if b.Waiting? {
          var i: nat :| StartedAt(front, b.t, i);
          assert StartedAt(obs, b.t, i);
        } else if b.Answered? {
          var i: nat, j: nat :| AnsweredAt(front, b.t, b.result, i, j);
          assert front[..j] == obs[..j];
          assert AnsweredAt(obs, b.t, b.result, i, j);
        }
      case Started(t) => assert StartedAt(obs, t, n);
      case Answer(result) =>
        var i: nat :| StartedAt(front, b.t, i);
        assert AnsweredAt(obs, b.t, result, i, n);
      case Finished(_, _) =>
    }
  }

  /** The step that answered: RETURN with the result, or release of the shadow's file. */
  ghost predicate Answers(e: Step, result: int) {
    if e.ReturnCmd? then e.result == result else e.ReleaseFile? && result == -EPIPE
  }

  /** Which steps an observation can stand for. */
  lemma ObservedStep(r: Run, c: nat, i: nat)
    requires IsRun(r) && c < MAX_PROCS && i < |r.steps|
    ensures Trace(r, c)[i].Started? ==> r.steps[i].CallCmd? && r.steps[i].t == Trace(r, c)[i].t
    ensures Trace(r, c)[i].Answer? ==> Answers(r.steps[i], Trace(r, c)[i].result)
    ensures Trace(r, c)[i].Finished? ==> r.steps[i].CallWake? && r.steps[i].t == Trace(r, c)[i].t
  {
    assert StepOk(r.states[i], r.steps[i], r.states[i + 1]);
  }
}
