/**
  One hand-off channel: what each region protected by `handoff_lock` computes, first as a
  value and then as the in-place update the driver performs.
*/
module LrpcChannel {
  import opened Common
  import opened LrpcAbi

  type TaskId = nat
  type FileId = nat
  type MmId = nat

  datatype Channel = Channel(owner: Option<FileId>, shadowTask: Option<TaskId>,
                             callerTask: Option<TaskId>, shadowMm: Option<MmId>,
                             shadowCpu: int, pending: bool, handoff: Handoff)

  const NO_HANDOFF: Handoff := Handoff(0, 0, 0, 0, 0, 0, 0, 0)
  const FRESH_CHANNEL: Channel := Channel(None, None, None, None, -1, false, NO_HANDOFF)

  /** The calling task as the driver sees it through `current`. */
  datatype Current = Current(task: TaskId, mm: Option<MmId>, cpu: nat, cpusAllowed: nat)

  /** Owner, shadow task, shadow mm and cpu are set together; a pending call has both ends. */
  ghost predicate ChannelOk(ch: Channel) {
    && (ch.owner.Some? <==> ch.shadowTask.Some?)
    && (ch.owner.Some? <==> ch.shadowMm.Some?)
    && (ch.owner.Some? <==> ch.shadowCpu >= 0)
    && (ch.owner.None? ==> ch.shadowCpu == -1 && ch.callerTask.None? && !ch.pending)
    && (ch.pending ==> ch.callerTask.Some?)
  }

  // ---- the locked regions as values ----

  datatype Outcome = Rejected(rc: int) | Accepted

  function RegisterOutcome(ch: Channel): (o: Outcome) {
    if ch.owner.Some? then Rejected(-EBUSY) else Accepted
  }

  function Register(ch: Channel, f: FileId, cur: Current): (r: Channel)
    requires cur.mm.Some?
  {
    if ch.owner.Some? then ch
    else ch.(owner := Some(f), shadowTask := Some(cur.task), shadowMm := cur.mm, shadowCpu := cur.cpu)
  }

  function CallOutcome(ch: Channel, cur: Current): (o: Outcome) {
    if ch.owner.None? then Rejected(-ENOTCONN)
    else if cur.mm == ch.shadowMm then Rejected(-EXDEV)
    else if cur.cpusAllowed != 1 then Rejected(-EXDEV)
    else if cur.cpu != ch.shadowCpu then Rejected(-EXDEV)
    else if ch.pending then Rejected(-EBUSY)
    else Accepted
  }

  function Call(ch: Channel, cur: Current, procedureId: nat, now: nat): (r: Channel) {
    if CallOutcome(ch, cur).Rejected? then ch
    else ch.(callerTask := Some(cur.task), pending := true,
             handoff := Handoff(procedureId, 0, cur.task, cur.cpu, now, 0, 0, 0))
  }

  /** The caller's check after waking: once nothing is pending it stamps and copies the handoff. */
  function Resume(ch: Channel, now: nat): (r: Channel) {
    if ch.pending then ch else ch.(handoff := ch.handoff.(callerResumeNs := now))
  }

  function WaitOutcome(ch: Channel, f: FileId): (o: Option<Outcome>) {
    if ch.owner != Some(f) then Some(Rejected(-EPIPE))
    else if ch.pending then Some(Accepted)
    else None
  }

  function Take(ch: Channel, f: FileId, now: nat): (r: Channel) {
    if ch.owner == Some(f) && ch.pending
    then ch.(handoff := ch.handoff.(shadowDispatchNs := now))
    else ch
  }

  function ReturnOutcome(ch: Channel, f: FileId): (o: Outcome) {
    if ch.owner != Some(f) || !ch.pending then Rejected(-EPERM) else Accepted
  }

  function Return(ch: Channel, f: FileId, result: int, now: nat): (r: Channel) {
    if ReturnOutcome(ch, f).Rejected? then ch
    else ch.(pending := false, handoff := ch.handoff.(result := result, shadowReturnNs := now))
  }

  function Release(ch: Channel, f: FileId): (r: Channel) {
    if ch.owner != Some(f) then ch
    else ch.(owner := None, shadowTask := None, shadowMm := None, shadowCpu := -1,
             callerTask := None, pending := false,
             handoff := if ch.pending then ch.handoff.(result := -EPIPE) else ch.handoff)
  }

  /** Every locked region keeps the channel invariant. */
  lemma RegionsKeepChannelOk(ch: Channel, f: FileId, cur: Current, procedureId: nat, result: int, now: nat)
    requires ChannelOk(ch)
    ensures cur.mm.Some? ==> ChannelOk(Register(ch, f, cur))
    ensures ChannelOk(Call(ch, cur, procedureId, now))
    ensures ChannelOk(Resume(ch, now))
    ensures ChannelOk(Take(ch, f, now))
    ensures ChannelOk(Return(ch, f, result, now))
    ensures ChannelOk(Release(ch, f))
  {
  }

  // ---- the locked regions as the driver runs them ----

  class HandoffChannel {
    var shadowOwner: Option<FileId>
    var shadowTask: Option<TaskId>
    var callerTask: Option<TaskId>
    var shadowMm: Option<MmId>
    var shadowCpu: int
    var callPending: bool
    var handoff: Handoff

    function View(): (v: Channel)
      reads this
    {
      Channel(shadowOwner, shadowTask, callerTask, shadowMm, shadowCpu, callPending, handoff)
    }

    constructor ()
      ensures View() == FRESH_CHANNEL && ChannelOk(View())
    {
      shadowOwner, shadowTask, callerTask, shadowMm := None, None, None, None;
      shadowCpu, callPending, handoff := -1, false, NO_HANDOFF;
    }

    method RegisterShadow(f: FileId, cur: Current) returns (rc: int)
      requires ChannelOk(View()) && cur.mm.Some?
      modifies this
      ensures ChannelOk(View())
      ensures View() == Register(old(View()), f, cur)
      ensures rc == (if old(RegisterOutcome(View())) == Accepted then 0 else -EBUSY)
    {
      if shadowOwner.Some? {
        return -EBUSY;
      }
      shadowOwner := Some(f);
      shadowTask := Some(cur.task);
      shadowMm := cur.mm;
      shadowCpu := cur.cpu;
      return 0;
    }

    /** The first region of CALL: on success the caller sleeps, `wake` runs, `oldCaller` is put. */
    method EnterCall(cur: Current, procedureId: nat, now: nat)
      returns (o: Outcome, oldCaller: Option<TaskId>, wake: Option<TaskId>)
      requires ChannelOk(View())
      modifies this
      ensures ChannelOk(View())
      ensures o == CallOutcome(old(View()), cur)
      ensures View() == Call(old(View()), cur, procedureId, now)
      ensures o.Accepted? ==> oldCaller == old(callerTask) && wake.Some? && wake == shadowTask
      ensures o.Rejected? ==> oldCaller == None && wake == None
    {
      oldCaller, wake := None, None;
      if shadowOwner.None? {
        return Rejected(-ENOTCONN), None, None;
      }
      if cur.mm == shadowMm || cur.cpusAllowed != 1 || cur.cpu != shadowCpu {
        return Rejected(-EXDEV), None, None;
      }
      if callPending {
        return Rejected(-EBUSY), None, None;
      }
      oldCaller := callerTask;
      callerTask := Some(cur.task);
      handoff := Handoff(procedureId, 0, cur.task, cur.cpu, now, 0, 0, 0);
      callPending := true;
      wake := shadowTask;
      o := Accepted;
    }

    method ResumeCall(now: nat) returns (reply: Option<Handoff>)
      modifies this
      ensures View() == Resume(old(View()), now)
      ensures reply == (if old(callPending) then None else Some(handoff))
    {
      if callPending {
        return None;
      }
      handoff := handoff.(callerResumeNs := now);
      return Some(handoff);
    }

    method WaitCall(f: FileId, now: nat) returns (o: Option<Outcome>, reply: Handoff)
      modifies this
      ensures o == WaitOutcome(old(View()), f)
      ensures View() == Take(old(View()), f, now)
      ensures o == Some(Accepted) ==> reply == handoff
    {
      reply := NO_HANDOFF;
      if shadowOwner != Some(f) {
        return Some(Rejected(-EPIPE)), reply;
      }
      if !callPending {
        return None, reply;
      }
      handoff := handoff.(shadowDispatchNs := now);
      return Some(Accepted), handoff;
    }

    method ReturnCall(f: FileId, result: int, now: nat) returns (o: Outcome, wake: Option<TaskId>)
      requires ChannelOk(View())
      modifies this
      ensures ChannelOk(View())
      ensures o == ReturnOutcome(old(View()), f)
      ensures View() == Return(old(View()), f, result, now)
      ensures o.Accepted? ==> wake.Some? && wake == callerTask
      ensures o.Rejected? ==> wake == None
    {
      if shadowOwner != Some(f) || !callPending {
        return Rejected(-EPERM), None;
      }
      handoff := handoff.(result := result, shadowReturnNs := now);
      callPending := false;
      return Accepted, callerTask;
    }

    /** The region of release: the references handed back are dropped after unlocking. */
    method ReleaseFile(f: FileId)
      returns (mm: Option<MmId>, task: Option<TaskId>, caller: Option<TaskId>, wake: Option<TaskId>)
      requires ChannelOk(View())
      modifies this
      ensures ChannelOk(View())
      ensures View() == Release(old(View()), f)
      ensures if old(shadowOwner) == Some(f)
              then mm == old(shadowMm) && task == old(shadowTask) && caller == old(callerTask) &&
                   wake == (if old(callPending) then old(callerTask) else None)
              else mm.None? && task.None? && caller.None? && wake.None?
    {
      mm, task, caller, wake := None, None, None, None;
      if shadowOwner == Some(f) {
        task := shadowTask;
        mm := shadowMm;
        shadowOwner := None;
        shadowTask := None;
        shadowMm := None;
        shadowCpu := -1;
        caller := callerTask;
        callerTask := None;
        if callPending {
          handoff := handoff.(result := -EPIPE);
          callPending := false;
          wake := caller;
        }
      }
    }
  }
}
