/**
  Runs in which a second caller takes an answer away: two threads of one process call on the same channel, the
  second after the shadow has answered the first and before the first has looked.
*/
module LrpcSecondCaller {
  import opened Common
  import opened LrpcAbi
  import opened LrpcFile
  import opened LrpcChannel
  import opened LrpcSystem
  import opened LrpcSafety
  import opened LrpcDelivery

  ghost function Last(r: Run): (s: State)
    requires |r.states| > 0
  {
    r.states[|r.states| - 1]
  }

  lemma RunOn(r: Run, e: Step) returns (r': Run)
    requires IsRun(r) && Shape(Last(r)) && Enabled(Last(r), e)
    ensures IsRun(r') && Shape(Last(r')) && r'.steps == r.steps + [e] && r'.states == r.states + [Last(r')]
    ensures Last(r') == Exec(Last(r), e).0
  {
    var s' := Exec(Last(r), e).0;
    r' := Run(r.states + [s'], r.steps + [e]);
    forall k | 0 <= k < |r'.steps| ensures StepOk(r'.states[k], r'.steps[k], r'.states[k + 1]) {
      if k < |r.steps| { assert StepOk(r.states[k], r.steps[k], r.states[k + 1]); }
    }
    RunKeepsInv(r', |r'.states| - 1);
  }

  // ---- the cast ----

  const PUBLISHER: TaskId := 0
  const SHADOW: TaskId := 1
  const FIRST: TaskId := 2
  const SECOND: TaskId := 3

  /** The files of the publisher, of the shadow, and of the process both callers belong to. */
  const PUBLISHER_FILE: FileId := 0
  const SHADOW_FILE: FileId := 1
  const CALLER_FILE: FileId := 2

  const PROC: ProcDesc := NO_PROC.(procedureId := 1, flags := PROC_PUBLISHED_CODE, codeSize := 1, astackSize := 1)

  ghost function Image(): (pub: Publication)
    ensures |pub.proc| == MAX_PROCS && Publishable(pub)
  {
    Publication(1, 1, 1, seq(MAX_PROCS, _ => PROC))
  }

  function Thread(mm: MmId, run: RunState, pc: Pc): (t: Task) { Task(Some(mm), 0, 1, run, false, pc) }

  ghost function Idle(): (s: State)
    ensures Init(s)
    ensures s.core.tasks == map[PUBLISHER := Thread(10, Running, User), SHADOW := Thread(11, Running, User),
                                FIRST := Thread(12, Running, User), SECOND := Thread(12, Running, User)]
  {
    State(Core(map[], seq(MAX_PROCS, _ => FRESH_CHANNEL),
               map[PUBLISHER := Thread(10, Running, User), SHADOW := Thread(11, Running, User),
                   FIRST := Thread(12, Running, User), SECOND := Thread(12, Running, User)]),
          Refs(multiset{}, multiset{}, multiset{}, multiset{}),
          Memory(Metadata(0, 0, 0, 0, 0, 0, false, seq(MAX_PROCS, _ => NO_PROC)), 0,
                 seq(MAX_PROCS, c => seq(ASTACK_NPAGES, k => c * ASTACK_NPAGES + k)), map[], map[]))
  }

  // ---- setting up ----

  /** Nothing but the files differs. */
  ghost predicate OnlyFiles(s: State, s': State, files: map<FileId, File>) {
    s' == s.(core := s.core.(files := files))
  }

  lemma OpenAs(r: Run, f: FileId, code: nat, role: Role) returns (r': Run)
    requires IsRun(r) && Shape(Last(r)) && f !in Last(r).core.files && RoleOfCode(code) == Some(role)
    ensures IsRun(r') && Shape(Last(r'))
    ensures OnlyFiles(Last(r), Last(r'), Last(r).core.files[f := FRESH_FILE.(role := role)])
  {
    r' := RunOn(r, Open(f));
    r' := RunOn(r', SetRoleCmd(f, code));
  }

  lemma PublishImage(r: Run) returns (r': Run)
    requires IsRun(r) && Shape(Last(r)) && InUser(Last(r).core, PUBLISHER)
    requires PUBLISHER_FILE in Last(r).core.files && Last(r).core.files[PUBLISHER_FILE].role == Publisher
    ensures IsRun(r') && Shape(Last(r')) && Last(r').core == Last(r).core
    ensures Last(r').mem.meta == PublishedMeta(Image()).(ready := true)
  {
    r' := RunOn(r, PublishCmd(PUBLISHER, PUBLISHER_FILE, Image()));
    r' := RunOn(r', SealCmd(PUBLISHER));
    assert Last(r').core.tasks == Last(r).core.tasks;
  }

  function Bound(role: Role): (file: File) { File(role, true, 1, 0, PROC, Some(0)) }

  lemma BindFile(r: Run, f: FileId) returns (r': Run)
    requires IsRun(r) && Shape(Last(r)) && f in Last(r).core.files
    requires Last(r).mem.meta == PublishedMeta(Image()).(ready := true)
    requires var file := Last(r).core.files[f]; (file.role == Caller || file.role == Shadow) && file == FRESH_FILE.(role := file.role)
    ensures IsRun(r') && Shape(Last(r'))
    ensures OnlyFiles(Last(r), Last(r'), Last(r).core.files[f := Bound(Last(r).core.files[f].role)])
  {
    r' := RunOn(r, BindCmd(f, 1, 0));
    var file := Last(r).core.files[f];
    BindFindsPublished(file, Image(), 1, 0);
    assert Image().proc[0].procedureId == 1;
    assert Bind(file, Last(r).mem.meta, 1, 0).0 == Bound(file.role);
  }

  lemma RolesTaken() returns (r: Run)
    ensures IsRun(r) && Shape(Last(r)) && Last(r).core.tasks == Idle().core.tasks && Last(r).core.channels == Idle().core.channels
    ensures Last(r).core.files == map[PUBLISHER_FILE := FRESH_FILE.(role := Publisher),
                                      SHADOW_FILE := FRESH_FILE.(role := Shadow), CALLER_FILE := FRESH_FILE.(role := Caller)]
  {
    r := Run([Idle()], []);
    r := OpenAs(r, PUBLISHER_FILE, 1, Publisher);
    r := OpenAs(r, SHADOW_FILE, 3, Shadow);
    r := OpenAs(r, CALLER_FILE, 2, Caller);
  }

  lemma AllBound() returns (r: Run)
    ensures IsRun(r) && Shape(Last(r)) && Last(r).core.tasks == Idle().core.tasks && Last(r).core.channels == Idle().core.channels
    ensures Last(r).core.files == map[PUBLISHER_FILE := FRESH_FILE.(role := Publisher),
                                      SHADOW_FILE := Bound(Shadow), CALLER_FILE := Bound(Caller)]
  {
    r := RolesTaken();
    r := PublishImage(r);
    r := BindFile(r, SHADOW_FILE);
    r := BindFile(r, CALLER_FILE);
  }

  // ---- the scene: one shadow, two callers, one channel ----

  /** Where a thread is and whether the scheduler may run it. */
  datatype At = At(run: RunState, pc: Pc)

  const FREE: At := At(Running, User)

  ghost predicate Stands(s: Core, t: TaskId, mm: MmId, at: At) {
    t in s.tasks && s.tasks[t] == Thread(mm, at.run, at.pc)
  }

  ghost predicate Scene(s: Core, shadow: At, first: At, second: At, pending: bool, caller: Option<TaskId>, result: int) {
    && CoreShape(s) && BoundTo(s, SHADOW_FILE, 0) && BoundTo(s, CALLER_FILE, 0)
    && s.files[SHADOW_FILE].role == Shadow && s.files[CALLER_FILE].role == Caller
    && Stands(s, SHADOW, 11, shadow) && Stands(s, FIRST, 12, first) && Stands(s, SECOND, 12, second)
    && var ch := s.channels[0];
    && ch.owner == Some(SHADOW_FILE) && ch.shadowTask == Some(SHADOW) && ch.shadowMm == Some(11) && ch.shadowCpu == 0
    && ch.pending == pending && ch.callerTask == caller && ch.handoff.result == result
  }

  lemma ShadowRegistered() returns (r: Run)
    ensures IsRun(r) && Shape(Last(r)) && Scene(Last(r).core, FREE, FREE, FREE, false, None, 0)
  {
    r := AllBound();
    r := RunOn(r, RegisterCmd(SHADOW, SHADOW_FILE));
  }

  const IN_WAIT: At := At(Interruptible, InWait(SHADOW_FILE))
  const IN_RETURN: At := At(Interruptible, InReturn(SHADOW_FILE))
  const IN_CALL: At := At(Uninterruptible, InCall(CALLER_FILE))
  const WOKEN: At := At(Running, InCall(CALLER_FILE))

  // ---- the steps of the scene ----

  /** The step can be taken, shows this, and leads here. */
  ghost predicate Leads(s: State, e: Step, o: Observation, shadow: At, first: At, second: At, pending: bool,
                        caller: Option<TaskId>, result: int) {
    && Shape(s) && Enabled(s, e) && Observe(s, e, 0) == o
    && Scene(Exec(s, e).0.core, shadow, first, second, pending, caller, result)
  }

  lemma ShadowWaits(s: State)
    requires Shape(s) && Scene(s.core, FREE, FREE, FREE, false, None, 0)
    ensures Leads(s, WaitCmd(SHADOW, SHADOW_FILE, 0), Silent, IN_WAIT, FREE, FREE, false, None, 0)
  {
  }

  lemma FirstEnters(s: State)
    requires Shape(s) && Scene(s.core, IN_WAIT, FREE, FREE, false, None, 0)
    ensures Leads(s, CallCmd(FIRST, CALLER_FILE, 1), Started(FIRST),
                  At(Running, InWait(SHADOW_FILE)), IN_CALL, FREE, true, Some(FIRST), 0)
  {
  }

  lemma ShadowTakes(s: State)
    requires Shape(s) && Scene(s.core, At(Running, InWait(SHADOW_FILE)), IN_CALL, FREE, true, Some(FIRST), 0)
    ensures Leads(s, WaitWake(SHADOW, 2), Silent, FREE, IN_CALL, FREE, true, Some(FIRST), 0)
  {
  }

  lemma ShadowAnswersFirst(s: State)
    requires Shape(s) && Scene(s.core, FREE, IN_CALL, FREE, true, Some(FIRST), 0)
    ensures Leads(s, ReturnCmd(SHADOW, SHADOW_FILE, 7, 3), Answer(7), IN_RETURN, WOKEN, FREE, false, Some(FIRST), 7)
  {
  }

  lemma SecondEnters(s: State)
    requires Shape(s) && Scene(s.core, IN_RETURN, WOKEN, FREE, false, Some(FIRST), 7)
    ensures Leads(s, CallCmd(SECOND, CALLER_FILE, 4), Started(SECOND),
                  At(Running, InReturn(SHADOW_FILE)), WOKEN, IN_CALL, true, Some(SECOND), 0)
  {
  }

  lemma ShadowReturns(s: State, first: At)
    requires Shape(s) && Scene(s.core, At(Running, InReturn(SHADOW_FILE)), first, IN_CALL, true, Some(SECOND), 0)
    ensures Leads(s, ReturnWake(SHADOW), Silent, FREE, first, IN_CALL, true, Some(SECOND), 0)
  {
  }

  lemma ShadowAnswersSecond(s: State, first: At)
    requires Shape(s) && Scene(s.core, FREE, first, IN_CALL, true, Some(SECOND), 0)
    ensures Leads(s, ReturnCmd(SHADOW, SHADOW_FILE, 9, 6), Answer(9), IN_RETURN, first, WOKEN, false, Some(SECOND), 9)
  {
  }

  lemma FirstLeaves(s: State)
    requires Shape(s) && Scene(s.core, IN_RETURN, WOKEN, WOKEN, false, Some(SECOND), 9)
    ensures Leads(s, CallWake(FIRST, 7), Finished(FIRST, 9), IN_RETURN, FREE, WOKEN, false, Some(SECOND), 9)
  {
  }

  lemma FirstSleepsAgain(s: State)
    requires Shape(s) && Scene(s.core, At(Running, InReturn(SHADOW_FILE)), WOKEN, IN_CALL, true, Some(SECOND), 0)
    ensures Leads(s, CallWake(FIRST, 5), Silent, At(Running, InReturn(SHADOW_FILE)), IN_CALL, IN_CALL, true, Some(SECOND), 0)
  {
  }

  // ---- the runs ----

  ghost predicate SeenAt(s: State, e: Step, o: Observation) { Shape(s) && Enabled(s, e) && Observe(s, e, 0) == o }

  /** What has been seen on the channel from `at` on. */
  ghost predicate Seen(states: seq<State>, steps: seq<Step>, at: nat, obs: seq<Observation>) {
    at + |obs| == |steps| < |states| && forall k :: at <= k < |steps| ==> SeenAt(states[k], steps[k], obs[k - at])
  }

  lemma SeenMore(states: seq<State>, steps: seq<Step>, at: nat, obs: seq<Observation>, s: State, e: Step, o: Observation)
    requires |states| == |steps| + 1 && Seen(states, steps, at, obs) && SeenAt(states[|steps|], e, o)
    ensures Seen(states + [s], steps + [e], at, obs + [o])
  {
  }

  lemma Play(r: Run, at: nat, obs: seq<Observation>, e: Step, o: Observation) returns (r': Run)
    requires IsRun(r) && Shape(Last(r)) && Seen(r.states, r.steps, at, obs) && SeenAt(Last(r), e, o)
    ensures IsRun(r') && Shape(Last(r')) && Seen(r'.states, r'.steps, at, obs + [o]) && Last(r') == Exec(Last(r), e).0
  {
    r' := RunOn(r, e);
    SeenMore(r.states, r.steps, at, obs, Last(r'), e, o);
  }

  lemma SeenIsTrace(r: Run, at: nat, obs: seq<Observation>)
    requires IsRun(r) && Seen(r.states, r.steps, at, obs)
    ensures Trace(r, 0)[at..] == obs
  {
    forall k | at <= k < |r.steps| ensures Trace(r, 0)[k] == obs[k - at] {
      assert SeenAt(r.states[k], r.steps[k], obs[k - at]);
      assert StepOk(r.states[k], r.steps[k], r.states[k + 1]);
    }
  }

  /** The run has come to this scene, having shown this since `at`. */
  ghost predicate Plays(r: Run, at: nat, obs: seq<Observation>, shadow: At, first: At, second: At, pending: bool,
                        caller: Option<TaskId>, result: int) {
    && IsRun(r) && Shape(Last(r)) && Seen(r.states, r.steps, at, obs)
    && Scene(Last(r).core, shadow, first, second, pending, caller, result)
  }

  lemma PlayFirstEnters(r: Run, at: nat, obs: seq<Observation>) returns (r': Run)
    requires Plays(r, at, obs, IN_WAIT, FREE, FREE, false, None, 0)
    ensures Plays(r', at, obs + [Started(FIRST)], At(Running, InWait(SHADOW_FILE)), IN_CALL, FREE, true, Some(FIRST), 0)
  {
    FirstEnters(Last(r));
    r' := Play(r, at, obs, CallCmd(FIRST, CALLER_FILE, 1), Started(FIRST));
  }

  lemma PlayShadowTakes(r: Run, at: nat, obs: seq<Observation>) returns (r': Run)
    requires Plays(r, at, obs, At(Running, InWait(SHADOW_FILE)), IN_CALL, FREE, true, Some(FIRST), 0)
    ensures Plays(r', at, obs + [Silent], FREE, IN_CALL, FREE, true, Some(FIRST), 0)
  {
    ShadowTakes(Last(r));
    r' := Play(r, at, obs, WaitWake(SHADOW, 2), Silent);
  }

  lemma PlayShadowAnswersFirst(r: Run, at: nat, obs: seq<Observation>) returns (r': Run)
    requires Plays(r, at, obs, FREE, IN_CALL, FREE, true, Some(FIRST), 0)
    ensures Plays(r', at, obs + [Answer(7)], IN_RETURN, WOKEN, FREE, false, Some(FIRST), 7)
  {
    ShadowAnswersFirst(Last(r));
    r' := Play(r, at, obs, ReturnCmd(SHADOW, SHADOW_FILE, 7, 3), Answer(7));
  }

  lemma PlaySecondEnters(r: Run, at: nat, obs: seq<Observation>) returns (r': Run)
    requires Plays(r, at, obs, IN_RETURN, WOKEN, FREE, false, Some(FIRST), 7)
    ensures Plays(r', at, obs + [Started(SECOND)], At(Running, InReturn(SHADOW_FILE)), WOKEN, IN_CALL, true, Some(SECOND), 0)
  {
    SecondEnters(Last(r));
    r' := Play(r, at, obs, CallCmd(SECOND, CALLER_FILE, 4), Started(SECOND));
  }

  lemma PlayShadowReturns(r: Run, at: nat, obs: seq<Observation>, first: At) returns (r': Run)
    requires Plays(r, at, obs, At(Running, InReturn(SHADOW_FILE)), first, IN_CALL, true, Some(SECOND), 0)
    ensures Plays(r', at, obs + [Silent], FREE, first, IN_CALL, true, Some(SECOND), 0)
  {
    ShadowReturns(Last(r), first);
    r' := Play(r, at, obs, ReturnWake(SHADOW), Silent);
  }

  lemma PlayShadowAnswersSecond(r: Run, at: nat, obs: seq<Observation>, first: At) returns (r': Run)
    requires Plays(r, at, obs, FREE, first, IN_CALL, true, Some(SECOND), 0)
    ensures Plays(r', at, obs + [Answer(9)], IN_RETURN, first, WOKEN, false, Some(SECOND), 9)
  {
    ShadowAnswersSecond(Last(r), first);
    r' := Play(r, at, obs, ReturnCmd(SHADOW, SHADOW_FILE, 9, 6), Answer(9));
  }

  lemma PlayFirstLeaves(r: Run, at: nat, obs: seq<Observation>) returns (r': Run)
    requires Plays(r, at, obs, IN_RETURN, WOKEN, WOKEN, false, Some(SECOND), 9)
    ensures Plays(r', at, obs + [Finished(FIRST, 9)], IN_RETURN, FREE, WOKEN, false, Some(SECOND), 9)
  {
    FirstLeaves(Last(r));
    r' := Play(r, at, obs, CallWake(FIRST, 7), Finished(FIRST, 9));
  }

  lemma PlayFirstSleepsAgain(r: Run, at: nat, obs: seq<Observation>) returns (r': Run)
    requires Plays(r, at, obs, At(Running, InReturn(SHADOW_FILE)), WOKEN, IN_CALL, true, Some(SECOND), 0)
    ensures Plays(r', at, obs + [Silent], At(Running, InReturn(SHADOW_FILE)), IN_CALL, IN_CALL, true, Some(SECOND), 0)
  {
    FirstSleepsAgain(Last(r));
    r' := Play(r, at, obs, CallWake(FIRST, 5), Silent);
  }

  lemma ShadowIsWaiting() returns (r: Run)
    ensures Plays(r, |r.steps|, [], IN_WAIT, FREE, FREE, false, None, 0)
  {
    r := ShadowRegistered();
    ShadowWaits(Last(r));
    r := RunOn(r, WaitCmd(SHADOW, SHADOW_FILE, 0));
  }

  /** The shadow takes the first call and returns 7; before the first caller looks, the second one calls. */
  lemma SecondCalls() returns (r: Run, at: nat)
    ensures Plays(r, at, [Started(FIRST), Silent, Answer(7), Started(SECOND)],
                  At(Running, InReturn(SHADOW_FILE)), WOKEN, IN_CALL, true, Some(SECOND), 0)
  {
    r := ShadowIsWaiting();
    at := |r.steps|;
    r := PlayFirstEnters(r, at, []);
    r := PlayShadowTakes(r, at, [Started(FIRST)]);
    r := PlayShadowAnswersFirst(r, at, [Started(FIRST), Silent]);
    r := PlaySecondEnters(r, at, [Started(FIRST), Silent, Answer(7)]);
  }

  /** If the first caller looks only after the shadow has answered the second, it returns with the wrong answer. */
  lemma FirstGetsSecondsAnswer() returns (r: Run, at: nat)
    ensures IsRun(r) && at <= |r.steps|
    ensures Trace(r, 0)[at..] == [Started(FIRST), Silent, Answer(7), Started(SECOND), Silent, Answer(9), Finished(FIRST, 9)]
  {
    var obs := [Started(FIRST), Silent, Answer(7), Started(SECOND)];
    r, at := SecondCalls();
    r := PlayShadowReturns(r, at, obs, WOKEN);
    r := PlayShadowAnswersSecond(r, at, obs + [Silent], WOKEN);
    r := PlayFirstLeaves(r, at, obs + [Silent] + [Answer(9)]);
    SeenIsTrace(r, at, [Started(FIRST), Silent, Answer(7), Started(SECOND), Silent, Answer(9), Finished(FIRST, 9)]);
  }

  /**
    If it looks while the second call is pending, it goes back to sleep, and the answer to the second call wakes
    only the second caller: the first is left in an uninterruptible sleep with no call pending.
  */
  lemma FirstIsStranded() returns (r: Run, at: nat)
    ensures IsRun(r) && at <= |r.steps|
    ensures Trace(r, 0)[at..] == [Started(FIRST), Silent, Answer(7), Started(SECOND), Silent, Silent, Answer(9)]
    ensures Scene(Last(r).core, IN_RETURN, IN_CALL, WOKEN, false, Some(SECOND), 9)
  {
    var obs := [Started(FIRST), Silent, Answer(7), Started(SECOND)];
    r, at := SecondCalls();
    r := PlayFirstSleepsAgain(r, at, obs);
    r := PlayShadowReturns(r, at, obs + [Silent], IN_CALL);
    r := PlayShadowAnswersSecond(r, at, obs + [Silent] + [Silent], IN_CALL);
    SeenIsTrace(r, at, [Started(FIRST), Silent, Answer(7), Started(SECOND), Silent, Silent, Answer(9)]);
  }
}
