/**
  What every step of the driver keeps, for every number of tasks, files and callers: the channel
  invariant, no lost wake-up towards a shadow, and conservation of task and mm references.
*/
module LrpcSafety {
  import opened Common
  import opened LrpcAbi
  import opened LrpcFile
  import opened LrpcChannel
  import opened LrpcSystem

  // ---- the protocol invariant ----

  ghost predicate ChannelInv(s: Core, c: nat)
    requires CoreShape(s) && c < MAX_PROCS
  {
    var ch := s.channels[c];
    && ChannelOk(ch)
    && (ch.owner.Some? ==>
          && BoundTo(s, ch.owner.value, c)
          && s.files[ch.owner.value].role == Shadow
          && ch.shadowTask.value in s.tasks)
    && (ch.callerTask.Some? ==> ch.callerTask.value in s.tasks)
    && (ch.pending ==> CallerWaits(s, c, ch.callerTask.value))
  }

  /** The caller of a pending call is parked in CALL, in another mm and pinned to the shadow's cpu. */
  ghost predicate CallerWaits(s: Core, c: nat, t: TaskId)
    requires CoreShape(s) && c < MAX_PROCS
  {
    && t in s.tasks
    && s.tasks[t].pc.InCall?
    && BoundTo(s, s.tasks[t].pc.f, c)
    && s.tasks[t].mm != s.channels[c].shadowMm
    && s.tasks[t].cpusAllowed == 1
    && s.tasks[t].cpu == s.channels[c].shadowCpu == s.channels[c].handoff.callerCpu
  }

  /** In particular a shadow that is not runnable has no pending call: no lost wake-up. */
  ghost predicate TaskInv(s: Core, t: TaskId)
    requires CoreShape(s) && t in s.tasks
  {
    var task := s.tasks[t];
    match task.pc
    case User => task.run == Running
    case Sealing(f) => task.run == Running && f in s.files
    case InCall(f) => IsBound(s, f) && s.files[f].role == Caller && task.run != Interruptible
    case InWait(f) => ShadowParked(s, t, f)
    case InReturn(f) => ShadowParked(s, t, f)
  }

  ghost predicate ShadowParked(s: Core, t: TaskId, f: FileId)
    requires CoreShape(s) && t in s.tasks
  {
    && OwnsChannel(s, f) && s.files[f].role == Shadow
    && s.channels[s.files[f].procIndex].shadowTask == Some(t)
    && s.tasks[t].run != Uninterruptible
    && (s.tasks[t].run != Running ==> !s.channels[s.files[f].procIndex].pending)
  }

  ghost predicate Inv(s: Core) {
    && CoreShape(s)
    && (forall c :: 0 <= c < MAX_PROCS ==> ChannelInv(s, c))
    && (forall t :: t in s.tasks ==> TaskInv(s, t))
  }

  // ---- preservation ----

  lemma SetFileKeepsInv(s: Core, f: FileId, file: File)
    requires Inv(s) && FileOk(file)
    requires f in s.files ==>
      (s.files[f].bound ==> file == s.files[f]) && (s.files[f].role != RoleNone ==> file.role == s.files[f].role)
    ensures Inv(SetFile(s, f, file))
  {
    var s' := SetFile(s, f, file);
    forall c | 0 <= c < MAX_PROCS ensures ChannelInv(s', c) {
      assert ChannelInv(s, c);
    }
    forall t | t in s'.tasks ensures TaskInv(s', t) {
      assert TaskInv(s, t);
    }
  }

  /** Replacing a task by one that may leave a non-CALL ioctl or become runnable. */
  lemma SetTaskKeepsInv(s: Core, t: TaskId, task: Task)
    requires Inv(s) && t in s.tasks
    requires s.tasks[t].pc.InCall? ==>
      (task.mm, task.cpu, task.cpusAllowed, task.pc)
      == (s.tasks[t].mm, s.tasks[t].cpu, s.tasks[t].cpusAllowed, s.tasks[t].pc)
    requires CoreShape(SetTask(s, t, task)) && TaskInv(SetTask(s, t, task), t)
    ensures Inv(SetTask(s, t, task))
  {
    var s' := SetTask(s, t, task);
    forall c | 0 <= c < MAX_PROCS ensures ChannelInv(s', c) {
      assert ChannelInv(s, c);
    }
    forall u | u in s'.tasks ensures TaskInv(s', u) {
      assert TaskInv(s, u);
    }
  }

  lemma RegisterKeepsInv(s: Core, t: TaskId, f: FileId)
    requires Inv(s) && InUser(s, t) && f in s.files
    ensures Inv(RegisterStep(s, t, f))
  {
    if RegisterRc(s, t, f) == 0 {
      var s' := RegisterStep(s, t, f);
      forall d | 0 <= d < MAX_PROCS ensures ChannelInv(s', d) {
        assert ChannelInv(s, d);
      }
      forall u | u in s'.tasks ensures TaskInv(s', u) {
        assert TaskInv(s, u);
      }
    }
  }

  /** The conditions under which WAIT_CALL's region runs, at entry or after a wake-up. */
  ghost predicate WaitReady(s: Core, t: TaskId, f: FileId)
    requires CoreShape(s)
  {
    && t in s.tasks
    && (s.tasks[t].pc == User || s.tasks[t].pc == InWait(f))
    && s.tasks[t].run == Running
    && ShadowIssues(s, t, f)
  }

  /** WAIT_CALL either only moves its caller, or stamps a pending call and hands it over. */
  lemma WaitKeepsInv(s: Core, t: TaskId, f: FileId, now: nat)
    requires Inv(s) && WaitReady(s, t, f)
    ensures Inv(WaitStep(s, t, f, now).0)
  {
    var s' := WaitStep(s, t, f, now).0;
    assert TaskInv(s, t);
    if s'.channels == s.channels {
      if s' != s { SetTaskKeepsInv(s, t, s'.tasks[t]); }
    } else {
      forall d | 0 <= d < MAX_PROCS ensures ChannelInv(s', d) {
        assert ChannelInv(s, d);
      }
      forall u | u in s'.tasks ensures TaskInv(s', u) {
        assert TaskInv(s, u);
      }
    }
  }

  lemma CallKeepsInv(s: Core, t: TaskId, f: FileId, now: nat)
    requires Inv(s) && InUser(s, t) && f in s.files
    ensures Inv(CallStep(s, t, f, now))
  {
    if CallReply(s, t, f).Asleep? {
      var s' := CallStep(s, t, f, now);
      assert ChannelInv(s, s.files[f].procIndex);
      forall d | 0 <= d < MAX_PROCS ensures ChannelInv(s', d) {
        assert ChannelInv(s, d);
      }
      forall u | u in s'.tasks ensures TaskInv(s', u) {
        assert TaskInv(s, u);
      }
    }
  }

  lemma CallWakeKeepsInv(s: Core, t: TaskId, now: nat)
    requires Inv(s) && CallWakeReady(s, t)
    ensures Inv(CallWakeStep(s, t, now).0)
  {
    var s' := CallWakeStep(s, t, now).0;
    forall d | 0 <= d < MAX_PROCS ensures ChannelInv(s', d) {
      assert ChannelInv(s, d);
    }
    forall u | u in s'.tasks ensures TaskInv(s', u) {
      assert TaskInv(s, u);
    }
  }

  lemma ReturnKeepsInv(s: Core, t: TaskId, f: FileId, result: int, now: nat)
    requires Inv(s) && InUser(s, t) && ShadowIssues(s, t, f)
    ensures Inv(ReturnStep(s, t, f, result, now))
  {
    if ReturnReply(s, f).Asleep? {
      var s' := ReturnStep(s, t, f, result, now);
      assert ChannelInv(s, s.files[f].procIndex);
      forall d | 0 <= d < MAX_PROCS ensures ChannelInv(s', d) {
        assert ChannelInv(s, d);
      }
      forall u | u in s'.tasks ensures TaskInv(s', u) {
        assert TaskInv(s, u);
      }
    }
  }

  lemma ReleaseKeepsInv(s: Core, f: FileId)
    requires Inv(s) && f in s.files
    requires forall t :: t in s.tasks ==> HeldFile(s.tasks[t].pc) != Some(f)
    ensures Inv(ReleaseStep(s, f))
  {
    var s' := ReleaseStep(s, f);
    forall d | 0 <= d < MAX_PROCS ensures ChannelInv(s', d) {
      assert ChannelInv(s, d);
    }
    forall u | u in s'.tasks ensures TaskInv(s', u) {
      assert TaskInv(s, u);
    }
  }

  lemma StepKeepsInv(s: State, e: Step)
    requires Shape(s) && Inv(s.core) && Enabled(s, e)
    ensures Shape(Exec(s, e).0) && Inv(Exec(s, e).0.core)
  {
    match e
    case Open(f) => SetFileKeepsInv(s.core, f, FRESH_FILE);
    case SetRoleCmd(f, code) => SetFileKeepsInv(s.core, f, SetRole(s.core.files[f], code).0);
    case BindCmd(f, id, epoch) => SetFileKeepsInv(s.core, f, Bind(s.core.files[f], s.mem.meta, id, epoch).0);
    case RegisterCmd(t, f) => RegisterKeepsInv(s.core, t, f);
    case WaitCmd(t, f, now) =>
      assert TaskInv(s.core, t);
      WaitKeepsInv(s.core, t, f, now);
    case CallCmd(t, f, now) => CallKeepsInv(s.core, t, f, now);
    case CallWake(t, now) => CallWakeKeepsInv(s.core, t, now);
    case ReturnCmd(t, f, result, now) => ReturnKeepsInv(s.core, t, f, result, now);
    case ReleaseFile(f) => ReleaseKeepsInv(s.core, f);
    case _ => OtherStepKeepsInv(s, e);
  }

  lemma OtherStepKeepsInv(s: State, e: Step)
    requires Shape(s) && Inv(s.core) && Enabled(s, e)
    requires e.PublishCmd? || e.SealCmd? || e.WaitWake? || e.ReturnWake? || e.PutTask? || e.PutMm? || e.Signal?
          || e.SpuriousWake? || e.Repin? || e.Map? || e.Unmap? || e.Store?
    ensures Shape(Exec(s, e).0) && Inv(Exec(s, e).0.core)
  {
    var core' := Exec(s, e).0.core;
    match e
    case WaitWake(t, now) =>
      assert TaskInv(s.core, t);
      if s.core.tasks[t].signal {
        SetTaskKeepsInv(s.core, t, core'.tasks[t]);
      } else {
        WaitKeepsInv(s.core, t, s.core.tasks[t].pc.f, now);
      }
    case PublishCmd(t, f, pub) =>
      assert TaskInv(s.core, t);
      if core' != s.core { SetTaskKeepsInv(s.core, t, core'.tasks[t]); }
    case SealCmd(t) =>
      assert TaskInv(s.core, t);
      SetTaskKeepsInv(s.core, t, core'.tasks[t]);
    case ReturnWake(t) =>
      assert TaskInv(s.core, t);
      SetTaskKeepsInv(s.core, t, core'.tasks[t]);
    case Signal(t) =>
      assert TaskInv(s.core, t);
      SetTaskKeepsInv(s.core, t, core'.tasks[t]);
    case SpuriousWake(t) =>
      assert TaskInv(s.core, t);
      SetTaskKeepsInv(s.core, t, core'.tasks[t]);
    case Repin(t, mm, cpu, cpusAllowed) =>
      assert TaskInv(s.core, t);
      SetTaskKeepsInv(s.core, t, core'.tasks[t]);
    case _ =>
  }

  /** The invariant holds in every state of every run. */
  lemma {:induction false} RunKeepsInv(r: Run, n: nat)
    requires IsRun(r) && n < |r.states|
    ensures Shape(r.states[n]) && Inv(r.states[n].core)
  {
    if n > 0 {
      RunKeepsInv(r, n - 1);
      assert StepOk(r.states[n - 1], r.steps[n - 1], r.states[n]);
      StepKeepsInv(r.states[n - 1], r.steps[n - 1]);
    }
  }

  /**
    No lost wake-up towards the shadow: in every state of every run, a task parked in WAIT_CALL
    or RETURN that the scheduler will not run has no call pending on its channel.
  */
  lemma SleepingShadowHasNoPendingCall(r: Run, n: nat, t: TaskId)
    requires IsRun(r) && n < |r.states| && t in r.states[n].core.tasks
    requires var pc := r.states[n].core.tasks[t].pc; pc.InWait? || pc.InReturn?
    requires r.states[n].core.tasks[t].run != Running
    ensures var s := r.states[n].core;
      && IsBound(s, s.tasks[t].pc.f)
      && s.files[s.tasks[t].pc.f].procIndex < |s.channels|
      && s.channels[s.files[s.tasks[t].pc.f].procIndex].shadowTask == Some(t)
      && !s.channels[s.files[s.tasks[t].pc.f].procIndex].pending
  {
    RunKeepsInv(r, n);
    assert TaskInv(r.states[n].core, t);
  }
}
