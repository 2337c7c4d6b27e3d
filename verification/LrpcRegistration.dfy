/**
  Which shadow serves a channel, exactly when a CALL on it, a PUBLISH or a wake-up succeeds, and what becomes of
  signals, in every run of the driver.
*/
module LrpcRegistration {
  import opened Common
  import opened LrpcAbi
  import opened LrpcFile
  import opened LrpcChannel
  import opened LrpcSystem
  import opened LrpcSafety
  import opened LrpcDelivery
  import opened LrpcCalls

  /** Owner, task, address space and cpu of the shadow. */
  ghost predicate SameShadow(ch: Channel, ch': Channel) {
    ch'.owner == ch.owner && ch'.shadowTask == ch.shadowTask && ch'.shadowMm == ch.shadowMm && ch'.shadowCpu == ch.shadowCpu
  }

  /** The step registers the shadow that channel `c` names in `ch`. */
  ghost predicate Registers(s: State, e: Step, c: nat, ch: Channel) {
    && e.RegisterCmd? && e.t in s.core.tasks && BoundTo(s.core, e.f, c) && s.core.files[e.f].role == Shadow
    && var task := s.core.tasks[e.t];
       && ch.owner == Some(e.f) && ch.shadowTask == Some(e.t)
       && task.mm.Some? && ch.shadowMm == task.mm && ch.shadowCpu == task.cpu && task.cpusAllowed == 1
  }

  lemma RegisterStepRegisters(s: State, e: Step, c: nat)
    requires Shape(s) && Enabled(s, e) && c < MAX_PROCS && e.RegisterCmd?
    ensures var ch, ch' := s.core.channels[c], Exec(s, e).0.core.channels[c];
      ch' == ch || (ch.owner.None? && Registers(s, e, c, ch'))
  {
  }

  lemma HandoffKeepsShadow(s: State, e: Step, c: nat)
    requires Shape(s) && Enabled(s, e) && c < MAX_PROCS && (e.CallCmd? || e.CallWake? || e.WaitCmd? || e.WaitWake? || e.ReturnCmd?)
    ensures SameShadow(s.core.channels[c], Exec(s, e).0.core.channels[c])
  {
  }

  lemma ReleaseEndsShadow(s: State, e: Step, c: nat)
    requires Shape(s) && Enabled(s, e) && c < MAX_PROCS && e.ReleaseFile?
    ensures var ch, ch' := s.core.channels[c], Exec(s, e).0.core.channels[c]; ch' == ch || ch'.owner.None?
  {
  }

  lemma OthersKeepShadow(s: State, e: Step, c: nat)
    requires Shape(s) && Enabled(s, e) && c < MAX_PROCS && !e.RegisterCmd? && !e.ReleaseFile?
    requires !e.CallCmd? && !e.CallWake? && !e.WaitCmd? && !e.WaitWake? && !e.ReturnCmd?
    ensures Exec(s, e).0.core.channels[c] == s.core.channels[c]
  {
  }

  /** A channel that names a shadow has just got it, or had it before. */
  lemma StepKeepsShadow(s: State, e: Step, c: nat)
    requires Shape(s) && Enabled(s, e) && c < MAX_PROCS && Exec(s, e).0.core.channels[c].owner.Some?
    ensures var ch, ch' := s.core.channels[c], Exec(s, e).0.core.channels[c];
      SameShadow(ch, ch') || Registers(s, e, c, ch')
  {
    if e.RegisterCmd? { RegisterStepRegisters(s, e, c); }
    else if e.ReleaseFile? { ReleaseEndsShadow(s, e, c); }
    else if e.CallCmd? || e.CallWake? || e.WaitCmd? || e.WaitWake? || e.ReturnCmd? { HandoffKeepsShadow(s, e, c); }
    else { OthersKeepShadow(s, e, c); }
  }

  /** Whatever shadow a channel names was registered by a pinned task, through a shadow's file bound to the channel. */
  lemma {:induction false} RegisteredBy(r: Run, c: nat, n: nat) returns (k: nat)
    requires IsRun(r) && c < MAX_PROCS && n < |r.states| && |r.states[n].core.channels| == MAX_PROCS
    requires r.states[n].core.channels[c].owner.Some?
    ensures k < n && Registers(r.states[k], r.steps[k], c, r.states[n].core.channels[c])
    decreases n
  {
    assert n > 0;
    var s, e := r.states[n - 1], r.steps[n - 1];
    assert StepOk(s, e, r.states[n]);
    StepKeepsShadow(s, e, c);
    if Registers(s, e, c, r.states[n].core.channels[c]) {
      k := n - 1;
    } else {
      k := RegisteredBy(r, c, n - 1);
    }
  }

  // ---- CALL ----

  /** A shadow is registered on the channel, for a task on another address space that is pinned to the shadow's cpu. */
  ghost predicate Fits(s: Core, c: nat, t: TaskId)
    requires CoreShape(s) && c < MAX_PROCS && t in s.tasks
  {
    var ch, task := s.channels[c], s.tasks[t];
    ch.owner.Some? && task.mm != ch.shadowMm && task.cpusAllowed == 1 && task.cpu == ch.shadowCpu
  }

  /** What a CALL is answered at once, by a file that is bound to channel `c` and by one that may not call. */
  lemma CallAcceptedIff(r: Run, c: nat, n: nat)
    requires IsRun(r) && c < MAX_PROCS && n < |r.steps| && r.steps[n].CallCmd?
    requires Shape(r.states[n]) && Enabled(r.states[n], r.steps[n]) && BoundTo(r.states[n].core, r.steps[n].f, c)
    ensures var s, e, reply := r.states[n].core, r.steps[n], Exec(r.states[n], r.steps[n]).1;
      && (reply == Asleep <==> s.files[e.f].role == Caller && Fits(s, c, e.t) && !TrackOf(Trace(r, c)[..n]).last.Started?)
      && (s.files[e.f].role != Caller ==> reply == Done(-EPERM))
      && (s.files[e.f].role == Caller && s.channels[c].owner.None? ==> reply == Done(-ENOTCONN))
      && (s.files[e.f].role == Caller && s.channels[c].owner.Some? && !Fits(s, c, e.t) ==> reply == Done(-EXDEV))
      && (s.files[e.f].role == Caller && Fits(s, c, e.t) && TrackOf(Trace(r, c)[..n]).last.Started? ==> reply == Done(-EBUSY))
  {
    RunShows(r, c, n);
  }

  // ---- the shadow's side ----

  /** RETURN answers exactly while the latest turn on the file's own channel is a start, and is refused otherwise. */
  lemma ReturnAcceptedIff(r: Run, c: nat, n: nat)
    requires IsRun(r) && c < MAX_PROCS && n < |r.steps| && r.steps[n].ReturnCmd?
    requires Shape(r.states[n]) && Enabled(r.states[n], r.steps[n]) && BoundTo(r.states[n].core, r.steps[n].f, c)
    ensures var s, e, reply := r.states[n].core, r.steps[n], Exec(r.states[n], r.steps[n]).1;
      && (reply == Asleep <==> s.channels[c].owner == Some(e.f) && TrackOf(Trace(r, c)[..n]).last.Started?)
      && (reply != Asleep ==> reply == Done(-EPERM) && Exec(r.states[n], r.steps[n]).0 == r.states[n])
  {
    RunShows(r, c, n);
  }

  /** WAIT_CALL hands out a request, sleeps, or says why it can do neither. */
  lemma WaitAnswers(s: State, t: TaskId, f: FileId, now: nat, c: nat)
    requires Shape(s) && Enabled(s, WaitCmd(t, f, now)) && c < MAX_PROCS && BoundTo(s.core, f, c)
    ensures var ch, reply := s.core.channels[c], Exec(s, WaitCmd(t, f, now)).1;
      && (reply.Copied? <==> s.core.files[f].role == Shadow && ch.owner == Some(f) && ch.pending)
      && (reply == Asleep <==> s.core.files[f].role == Shadow && ch.owner == Some(f) && !ch.pending)
      && (s.core.files[f].role == Shadow && ch.owner != Some(f) ==> reply == Done(-EPIPE))
      && (s.core.files[f].role != Shadow ==> reply == Done(-EPERM))
  {
  }

  /** REGISTER takes a free channel for a pinned task with an address space, through a bound shadow's file. */
  lemma RegisterAcceptedIff(s: State, t: TaskId, f: FileId)
    requires Shape(s) && Enabled(s, RegisterCmd(t, f))
    ensures var file, task, reply := s.core.files[f], s.core.tasks[t], Exec(s, RegisterCmd(t, f)).1;
      if file.role == Shadow && file.bound && task.mm.Some? && task.cpusAllowed == 1
      then reply == Done(if s.core.channels[file.procIndex].owner.Some? then -EBUSY else 0)
      else reply == Done(-EPERM)
  {
  }

  // ---- PUBLISH ----

  /** What a publisher may publish: code and frames of every procedure inside the image and the slot. */
  ghost predicate Sound(pub: Publication) {
    && |pub.proc| == MAX_PROCS && pub.codeEpoch > 0 && 1 <= pub.numProcs <= MAX_PROCS && pub.imageSize <= CODE_SIZE
    && forall i :: 0 <= i < pub.numProcs ==>
         && pub.proc[i].flags == PROC_PUBLISHED_CODE
         && 0 < pub.proc[i].codeSize && pub.proc[i].codeOffset + pub.proc[i].codeSize <= pub.imageSize
         && 0 < pub.proc[i].astackSize <= ASTACK_SLOT_SIZE
  }

  /** PUBLISH replaces the metadata exactly if a publisher asks for something sound, and else only says why not. */
  lemma PublishAcceptedIff(s: State, t: TaskId, f: FileId, pub: Publication)
    requires Shape(s) && Enabled(s, PublishCmd(t, f, pub))
    ensures var (s', reply) := Exec(s, PublishCmd(t, f, pub));
      && (reply == Asleep <==> s.core.files[f].role == Publisher && Sound(pub))
      && (reply == Asleep ==> s'.mem.meta.numProcs == pub.numProcs && s'.mem.meta.codeEpoch == pub.codeEpoch)
      && (reply == Asleep ==> !s'.mem.meta.ready && forall i :: 0 <= i < pub.numProcs ==> s'.mem.meta.proc[i] == pub.proc[i])
      && (reply != Asleep ==> s' == s && reply == Done(if s.core.files[f].role != Publisher then -EPERM else -EINVAL))
  {
  }

  // ---- signals ----

  /** The step takes notice of a signal to task `t`. */
  ghost predicate Notices(s: State, e: Step, t: TaskId) {
    && ((e.WaitWake? && e.t == t) || (e.ReturnWake? && e.t == t))
    && t in s.core.tasks && s.core.tasks[t].signal
  }

  /** A shadow that wakes up is sent back with -ERESTARTSYS exactly if a signal is pending, and then it is no longer. */
  lemma InterruptedIff(s: State, e: Step)
    requires Shape(s) && Enabled(s, e) && (e.WaitWake? || e.ReturnWake?)
    ensures Exec(s, e).1 == Done(-ERESTARTSYS) <==> s.core.tasks[e.t].signal
    ensures Notices(s, e, e.t) ==> !Exec(s, e).0.core.tasks[e.t].signal && Exec(s, e).0.core.tasks[e.t].pc == User
  {
  }

  /** The tasks' signals, with at most those of one task changed. */
  ghost predicate SameSignals(s: Core, s': Core) {
    forall t :: t in s'.tasks ==> t in s.tasks && (s'.tasks[t].signal ==> s.tasks[t].signal)
  }

  lemma HandoffKeepsSignals(s: State, e: Step)
    requires Shape(s) && Enabled(s, e) && (e.CallCmd? || e.CallWake? || e.ReturnCmd?)
    ensures SameSignals(s.core, Exec(s, e).0.core)
  {
  }

  lemma WaitStepKeepsSignals(s: Core, t: TaskId, f: FileId, now: nat)
    requires CoreShape(s) && t in s.tasks && IsBound(s, f)
    ensures SameSignals(s, WaitStep(s, t, f, now).0)
  {
  }

  lemma ReleaseKeepsSignals(s: Core, f: FileId)
    requires CoreShape(s) && f in s.files
    ensures SameSignals(s, ReleaseStep(s, f))
  {
  }

  lemma WaitKeepsSignals(s: State, e: Step)
    requires Shape(s) && Enabled(s, e) && (e.WaitCmd? || e.WaitWake? || e.ReleaseFile?)
    ensures SameSignals(s.core, Exec(s, e).0.core)
  {
    if e.WaitCmd? {
      WaitStepKeepsSignals(s.core, e.t, e.f, e.now);
    } else if e.ReleaseFile? {
      ReleaseKeepsSignals(s.core, e.f);
    } else if !s.core.tasks[e.t].signal {
      WaitStepKeepsSignals(s.core, e.t, s.core.tasks[e.t].pc.f, e.now);
    }
  }

  lemma OthersKeepSignals(s: State, e: Step)
    requires Shape(s) && Enabled(s, e) && !e.CallCmd? && !e.CallWake? && !e.WaitCmd? && !e.WaitWake? && !e.ReturnCmd?
    requires !e.ReleaseFile? && !e.Signal?
    ensures SameSignals(s.core, Exec(s, e).0.core)
  {
  }

  lemma SignalStep(s: State, e: Step, t: TaskId)
    requires Shape(s) && Enabled(s, e) && t in Exec(s, e).0.core.tasks && Exec(s, e).0.core.tasks[t].signal
    ensures t in s.core.tasks && (e == Signal(t) || (s.core.tasks[t].signal && !Notices(s, e, t)))
  {
    if e.WaitWake? || e.ReturnWake? { InterruptedIff(s, e); }
    if e.CallCmd? || e.CallWake? || e.ReturnCmd? {
      HandoffKeepsSignals(s, e);
    } else if e.WaitCmd? || e.WaitWake? || e.ReleaseFile? {
      WaitKeepsSignals(s, e);
    } else if !e.Signal? {
      OthersKeepSignals(s, e);
    }
  }

  /** A pending signal was sent to the task, or was there from the start, and nobody has taken notice of it since. */
  lemma {:induction false} SignalWasSent(r: Run, n: nat, t: TaskId) returns (k: nat)
    requires IsRun(r) && n < |r.states| && t in r.states[n].core.tasks && r.states[n].core.tasks[t].signal
    ensures k <= n && (k == 0 || r.steps[k - 1] == Signal(t))
    ensures forall m :: k <= m < n ==> !Notices(r.states[m], r.steps[m], t)
    decreases n
  {
    k := n;
    if n > 0 {
      assert StepOk(r.states[n - 1], r.steps[n - 1], r.states[n]);
      SignalStep(r.states[n - 1], r.steps[n - 1], t);
      if r.steps[n - 1] != Signal(t) { k := SignalWasSent(r, n - 1, t); }
    }
  }
}
