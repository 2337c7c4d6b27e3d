/** Conservation of the references to tasks and mms that the driver takes, over whole runs. */
module LrpcRefs {
  import opened Common
  import opened LrpcAbi
  import opened LrpcChannel
  import opened LrpcSystem
  import opened LrpcSafety

  ghost function Names(o: Option<nat>, v: nat): (n: nat) {
    if o == Some(v) then 1 else 0
  }

  ghost function TaskNames(ch: Channel, t: TaskId): (n: nat) {
    Names(ch.shadowTask, t) + Names(ch.callerTask, t)
  }

  /** How many channel fields name a task. */
  ghost function TaskCount(chs: seq<Channel>, t: TaskId): (n: nat) {
    if chs == [] then 0 else TaskCount(chs[..|chs| - 1], t) + TaskNames(chs[|chs| - 1], t)
  }

  /** How many channel fields name the mm. */
  ghost function MmCount(chs: seq<Channel>, m: MmId): (n: nat) {
    if chs == [] then 0 else MmCount(chs[..|chs| - 1], m) + Names(chs[|chs| - 1].shadowMm, m)
  }

  lemma {:induction false} CountAfterUpdate(chs: seq<Channel>, c: nat, ch: Channel, v: nat)
    requires c < |chs|
    ensures TaskCount(chs[c := ch], v) + TaskNames(chs[c], v) == TaskCount(chs, v) + TaskNames(ch, v)
    ensures MmCount(chs[c := ch], v) + Names(chs[c].shadowMm, v) == MmCount(chs, v) + Names(ch.shadowMm, v)
  {
    var n := |chs| - 1;
    if c == n {
      assert chs[c := ch][..n] == chs[..n];
    } else {
      assert chs[c := ch][..n] == chs[..n][c := ch];
      CountAfterUpdate(chs[..n], c, ch, v);
    }
  }

  lemma {:induction false} UnnamedCountsZero(chs: seq<Channel>, v: nat)
    requires forall c :: 0 <= c < |chs| ==>
      chs[c].shadowTask.None? && chs[c].callerTask.None? && chs[c].shadowMm.None?
    ensures TaskCount(chs, v) == 0 && MmCount(chs, v) == 0
  {
    if chs != [] {
      UnnamedCountsZero(chs[..|chs| - 1], v);
    }
  }

  lemma {:induction false} NamedCountsPositive(chs: seq<Channel>, c: nat, v: nat)
    requires c < |chs|
    ensures TaskCount(chs, v) >= TaskNames(chs[c], v)
    ensures MmCount(chs, v) >= Names(chs[c].shadowMm, v)
  {
    if c < |chs| - 1 {
      NamedCountsPositive(chs[..|chs| - 1], c, v);
    }
  }

  /** References held on `v` equal the channel fields naming it plus the drops not yet made. */
  ghost predicate Conserved(chs: seq<Channel>, refs: Refs, v: nat) {
    && refs.tasks[v] == TaskCount(chs, v) + refs.taskPuts[v]
    && refs.mms[v] == MmCount(chs, v) + refs.mmPuts[v]
  }

  ghost predicate RefsConserved(s: State) {
    forall v: nat :: Conserved(s.core.channels, s.refs, v)
  }

  lemma RegisterConserves(s: Core, refs: Refs, t: TaskId, f: FileId, v: nat)
    requires CoreShape(s) && InUser(s, t) && f in s.files
    requires s.files[f].bound ==> ChannelOk(s.channels[s.files[f].procIndex])
    requires Conserved(s.channels, refs, v)
    ensures Conserved(RegisterStep(s, t, f).channels, RegisterRefs(s, refs, t, f), v)
  {
    if RegisterRc(s, t, f) == 0 {
      var c := s.files[f].procIndex;
      CountAfterUpdate(s.channels, c, RegisterStep(s, t, f).channels[c], v);
    }
  }

  lemma CallConserves(s: Core, refs: Refs, t: TaskId, f: FileId, now: nat, v: nat)
    requires CoreShape(s) && InUser(s, t) && f in s.files
    requires Conserved(s.channels, refs, v)
    ensures Conserved(CallStep(s, t, f, now).channels, CallRefs(s, refs, t, f), v)
  {
    if CallReply(s, t, f).Asleep? {
      var c := s.files[f].procIndex;
      CountAfterUpdate(s.channels, c, CallStep(s, t, f, now).channels[c], v);
    }
  }

  lemma BagCounts(bag: multiset<nat>, o: Option<nat>, p: Option<nat>, v: nat)
    ensures (bag + AsBag(o))[v] == bag[v] + Names(o, v)
    ensures (bag + AsBag(o) + AsBag(p))[v] == bag[v] + Names(o, v) + Names(p, v)
  {
  }

  lemma ReleaseConserves(s: Core, refs: Refs, f: FileId, v: nat)
    requires CoreShape(s) && f in s.files
    requires Conserved(s.channels, refs, v)
    ensures Conserved(ReleaseStep(s, f).channels, ReleaseRefs(s, refs, f), v)
  {
    if OwnsChannel(s, f) {
      var c := s.files[f].procIndex;
      var ch := s.channels[c];
      CountAfterUpdate(s.channels, c, Release(ch, f), v);
      BagCounts(refs.taskPuts, ch.shadowTask, ch.callerTask, v);
      BagCounts(refs.mmPuts, ch.shadowMm, None, v);
      assert ReleaseStep(s, f).channels == s.channels[c := Release(ch, f)];
    }
  }

  /** WAIT_CALL, RETURN and the caller's wake-up leave every task and mm field alone. */
  lemma StampConserves(chs: seq<Channel>, c: nat, ch: Channel, refs: Refs, v: nat)
    requires c < |chs| && Conserved(chs, refs, v)
    requires ch.shadowTask == chs[c].shadowTask && ch.callerTask == chs[c].callerTask
    requires ch.shadowMm == chs[c].shadowMm
    ensures Conserved(chs[c := ch], refs, v)
  {
    CountAfterUpdate(chs, c, ch, v);
  }

  lemma HandoffConserves(s: State, e: Step, v: nat)
    requires Shape(s) && Enabled(s, e) && Conserved(s.core.channels, s.refs, v)
    requires e.WaitCmd? || e.WaitWake? || e.CallWake? || e.ReturnCmd?
    ensures Conserved(Exec(s, e).0.core.channels, Exec(s, e).0.refs, v)
  {
    var chs' := Exec(s, e).0.core.channels;
    if chs' != s.core.channels {
      var f := if e.WaitCmd? || e.ReturnCmd? then e.f else s.core.tasks[e.t].pc.f;
      var c := s.core.files[f].procIndex;
      StampConserves(s.core.channels, c, chs'[c], s.refs, v);
      assert chs' == s.core.channels[c := chs'[c]];
    }
  }

  /** Every step conserves references, and a put never underflows. */
  lemma StepConserves(s: State, e: Step, v: nat)
    requires Shape(s) && Inv(s.core) && Enabled(s, e)
    requires Conserved(s.core.channels, s.refs, v)
    ensures Conserved(Exec(s, e).0.core.channels, Exec(s, e).0.refs, v)
    ensures e == PutTask(v) ==> v in s.refs.tasks
    ensures e == PutMm(v) ==> v in s.refs.mms
  {
    match e
    case RegisterCmd(t, f) =>
      assert s.core.files[f].bound ==> ChannelInv(s.core, s.core.files[f].procIndex);
      RegisterConserves(s.core, s.refs, t, f, v);
    case CallCmd(t, f, now) => CallConserves(s.core, s.refs, t, f, now, v);
    case ReleaseFile(f) => ReleaseConserves(s.core, s.refs, f, v);
    case WaitCmd(_, _, _) => HandoffConserves(s, e, v);
    case WaitWake(_, _) => HandoffConserves(s, e, v);
    case CallWake(_, _) => HandoffConserves(s, e, v);
    case ReturnCmd(_, _, _, _) => HandoffConserves(s, e, v);
    case PutTask(_) => PutConserves(s, e, v);
    case PutMm(_) => PutConserves(s, e, v);
    case _ => OthersConserve(s, e);
  }

  lemma PutConserves(s: State, e: Step, v: nat)
    requires Shape(s) && Enabled(s, e) && Conserved(s.core.channels, s.refs, v) && (e.PutTask? || e.PutMm?)
    ensures Conserved(Exec(s, e).0.core.channels, Exec(s, e).0.refs, v)
    ensures e == PutTask(v) ==> v in s.refs.tasks
    ensures e == PutMm(v) ==> v in s.refs.mms
  {
  }

  lemma OthersConserve(s: State, e: Step)
    requires Shape(s) && Enabled(s, e) && !e.RegisterCmd? && !e.CallCmd? && !e.ReleaseFile? && !e.WaitCmd? && !e.WaitWake?
    requires !e.CallWake? && !e.ReturnCmd? && !e.PutTask? && !e.PutMm?
    ensures Exec(s, e).0.core.channels == s.core.channels && Exec(s, e).0.refs == s.refs
  {
  }

  /** In every state of every run references are conserved. */
  lemma {:induction false} RunConservesRefs(r: Run, n: nat)
    requires IsRun(r) && n < |r.states|
    ensures RefsConserved(r.states[n])
  {
    forall v: nat ensures Conserved(r.states[n].core.channels, r.states[n].refs, v) {
      if n == 0 {
        UnnamedCountsZero(r.states[0].core.channels, v);
      } else {
        RunConservesRefs(r, n - 1);
        RunKeepsInv(r, n - 1);
        assert StepOk(r.states[n - 1], r.steps[n - 1], r.states[n]);
        StepConserves(r.states[n - 1], r.steps[n - 1], v);
      }
    }
  }

  /** A task or mm named by any channel is pinned by a reference: every wake-up targets live memory. */
  lemma NamedTasksArePinned(r: Run, n: nat, c: nat, v: nat)
    requires IsRun(r) && n < |r.states| && c < |r.states[n].core.channels|
    ensures var ch := r.states[n].core.channels[c];
      && (ch.shadowTask == Some(v) || ch.callerTask == Some(v) ==> v in r.states[n].refs.tasks)
      && (ch.shadowMm == Some(v) ==> v in r.states[n].refs.mms)
  {
    RunConservesRefs(r, n);
    NamedCountsPositive(r.states[n].core.channels, c, v);
    assert Conserved(r.states[n].core.channels, r.states[n].refs, v);
  }

  /** Once every file is closed and every drop made, the driver holds no reference at all. */
  lemma NothingLeaksAfterLastClose(r: Run, n: nat)
    requires IsRun(r) && n < |r.states|
    requires r.states[n].core.files == map[]
    requires r.states[n].refs.taskPuts == multiset{} && r.states[n].refs.mmPuts == multiset{}
    ensures r.states[n].refs.tasks == multiset{} && r.states[n].refs.mms == multiset{}
  {
    var s := r.states[n];
    RunKeepsInv(r, n);
    RunConservesRefs(r, n);
    forall c | 0 <= c < MAX_PROCS
      ensures var ch := s.core.channels[c]; ch.shadowTask.None? && ch.callerTask.None? && ch.shadowMm.None?
    {
      assert ChannelInv(s.core, c);
    }
    forall v: nat ensures s.refs.tasks[v] == 0 && s.refs.mms[v] == 0 {
      UnnamedCountsZero(s.core.channels, v);
      assert Conserved(s.core.channels, s.refs, v);
    }
  }
}
