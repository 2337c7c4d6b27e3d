/**
  The driver as a concurrent system.  Each lock-protected region, each wake-up and each
  deferred reference drop is one atomic step; steps of different tasks interleave freely.

  `set_current_state` and `wake_up_process` are modelled by `Task.run`: a task whose `run` is not
  `Running` stays in `schedule()` until something makes it `Running` again.
*/
module LrpcSystem {
  import opened Common
  import opened LrpcAbi
  import opened LrpcFile
  import opened LrpcChannel

  type PageId = nat
  type MapId = nat
  type PageContents = seq<nat>

  datatype RunState = Running | Interruptible | Uninterruptible

  /** Where a task is: in user mode, or inside one of the blocking ioctls on a file. */
  datatype Pc = User | Sealing(f: FileId) | InCall(f: FileId) | InWait(f: FileId) | InReturn(f: FileId)

  datatype Task = Task(mm: Option<MmId>, cpu: nat, cpusAllowed: nat,
                       run: RunState, signal: bool, pc: Pc)

  /** Files, channels and tasks: what the hand-off protocol works on. */
  datatype Core = Core(files: map<FileId, File>, channels: seq<Channel>, tasks: map<TaskId, Task>)

  /** References the driver holds on task and mm structs, and the drops a task still has to make. */
  datatype Refs = Refs(tasks: multiset<TaskId>, taskPuts: multiset<TaskId>,
                       mms: multiset<MmId>, mmPuts: multiset<MmId>)

  datatype Grant = Grant(file: FileId, req: MapRequest, decision: MapDecision, pages: seq<PageId>)

  /** The metadata page, the A-stack pages of each channel, and the user mappings granted so far. */
  datatype Memory = Memory(meta: Metadata, barSize: nat, astack: seq<seq<PageId>>,
                           ram: map<PageId, PageContents>, grants: map<MapId, Grant>)

  datatype State = State(core: Core, refs: Refs, mem: Memory)

  datatype Step =
    | Open(f: FileId)
    | SetRoleCmd(f: FileId, code: nat)
    | PublishCmd(t: TaskId, f: FileId, pub: Publication)
    | SealCmd(t: TaskId)
    | BindCmd(f: FileId, id: nat, epoch: nat)
    | RegisterCmd(t: TaskId, f: FileId)
    | WaitCmd(t: TaskId, f: FileId, now: nat)
    | WaitWake(t: TaskId, now: nat)
    | CallCmd(t: TaskId, f: FileId, now: nat)
    | CallWake(t: TaskId, now: nat)
    | ReturnCmd(t: TaskId, f: FileId, result: int, now: nat)
    | ReturnWake(t: TaskId)
    | ReleaseFile(f: FileId)
    | PutTask(t: TaskId)
    | PutMm(m: MmId)
    | Signal(t: TaskId)
    | SpuriousWake(t: TaskId)
    | Repin(t: TaskId, mm: Option<MmId>, cpu: nat, cpusAllowed: nat)
    | Map(f: FileId, id: MapId, req: MapRequest)
    | Unmap(id: MapId)
    | Store(id: MapId, k: nat, contents: PageContents)

  datatype Reply = Done(rc: int) | Copied(handoff: Handoff) | Asleep

  // ---- well-shaped states ----

  ghost predicate CoreShape(s: Core) {
    && |s.channels| == MAX_PROCS
    && (forall f :: f in s.files ==> FileOk(s.files[f]))
  }

  ghost predicate MemShape(m: Memory) {
    && MetaOk(m.meta)
    && |m.astack| == MAX_PROCS
    && (forall c :: 0 <= c < MAX_PROCS ==> |m.astack[c]| == ASTACK_NPAGES)
  }

  ghost predicate Shape(s: State) {
    CoreShape(s.core) && MemShape(s.mem)
  }

  // ---- small helpers ----

  ghost predicate InUser(s: Core, t: TaskId) {
    t in s.tasks && s.tasks[t].pc == User
  }

  /** The file an in-progress ioctl holds a reference on. */
  function HeldFile(pc: Pc): (f: Option<FileId>) {
    match pc
    case User => None
    case Sealing(f) => Some(f)
    case InCall(f) => Some(f)
    case InWait(f) => Some(f)
    case InReturn(f) => Some(f)
  }

  ghost predicate BoundTo(s: Core, f: FileId, c: nat) {
    f in s.files && s.files[f].channel == Some(c)
  }

  ghost predicate IsBound(s: Core, f: FileId) {
    f in s.files && s.files[f].bound
  }

  function CurrentOf(t: TaskId, task: Task): (cur: Current) {
    Current(t, task.mm, task.cpu, task.cpusAllowed)
  }

  function WakeUp(tasks: map<TaskId, Task>, who: Option<TaskId>): (r: map<TaskId, Task>) {
    if who.Some? && who.value in tasks
    then tasks[who.value := tasks[who.value].(run := Running)]
    else tasks
  }

  function AsBag(o: Option<nat>): (b: multiset<nat>) {
    if o.Some? then multiset{o.value} else multiset{}
  }

  // ---- the steps on files, channels and tasks ----

  ghost function SetFile(s: Core, f: FileId, file: File): (r: Core) {
    s.(files := s.files[f := file])
  }

  ghost function SetTask(s: Core, t: TaskId, task: Task): (r: Core) {
    s.(tasks := s.tasks[t := task])
  }

  ghost function RegisterRc(s: Core, t: TaskId, f: FileId): (rc: int)
    requires CoreShape(s) && InUser(s, t) && f in s.files
  {
    var file, task := s.files[f], s.tasks[t];
    if file.role != Shadow || !file.bound || task.mm.None? || task.cpusAllowed != 1 then -EPERM
    else
      match RegisterOutcome(s.channels[file.procIndex])
      case Rejected(rc) => rc
      case Accepted => 0
  }

  ghost function RegisterStep(s: Core, t: TaskId, f: FileId): (r: Core)
    requires CoreShape(s) && InUser(s, t) && f in s.files
  {
    if RegisterRc(s, t, f) != 0 then s
    else
      var c := s.files[f].procIndex;
      s.(channels := s.channels[c := Register(s.channels[c], f, CurrentOf(t, s.tasks[t]))])
  }

  /** WAIT_CALL, first entered or re-entered after a wake-up. */
  ghost function WaitStep(s: Core, t: TaskId, f: FileId, now: nat): (r: (Core, Reply))
    requires CoreShape(s) && t in s.tasks && IsBound(s, f)
  {
    var task, c := s.tasks[t], s.files[f].procIndex;
    if s.files[f].role != Shadow then (s, Done(-EPERM))
    else
      match WaitOutcome(s.channels[c], f)
      case Some(Rejected(rc)) => (SetTask(s, t, task.(pc := User)), Done(rc))
      case Some(Accepted) =>
        var ch := Take(s.channels[c], f, now);
        (s.(channels := s.channels[c := ch], tasks := s.tasks[t := task.(pc := User)]), Copied(ch.handoff))
      case None => (SetTask(s, t, task.(run := Interruptible, pc := InWait(f))), Asleep)
  }

  ghost function CallReply(s: Core, t: TaskId, f: FileId): (r: Reply)
    requires CoreShape(s) && InUser(s, t) && f in s.files
  {
    var file := s.files[f];
    if file.role != Caller || !file.bound then Done(-EPERM)
    else
      match CallOutcome(s.channels[file.procIndex], CurrentOf(t, s.tasks[t]))
      case Rejected(rc) => Done(rc)
      case Accepted => Asleep
  }

  ghost function CallStep(s: Core, t: TaskId, f: FileId, now: nat): (r: Core)
    requires CoreShape(s) && InUser(s, t) && f in s.files
  {
    if CallReply(s, t, f).Done? then s
    else
      var file, task := s.files[f], s.tasks[t];
      var c := file.procIndex;
      var ch := s.channels[c];
      var parked := s.tasks[t := task.(run := Uninterruptible, pc := InCall(f))];
      s.(channels := s.channels[c := Call(ch, CurrentOf(t, task), file.proc.procedureId, now)],
         tasks := WakeUp(parked, ch.shadowTask))
  }

  ghost predicate CallWakeReady(s: Core, t: TaskId) {
    t in s.tasks && s.tasks[t].pc.InCall? && s.tasks[t].run == Running && IsBound(s, s.tasks[t].pc.f)
  }

  ghost function CallWakeStep(s: Core, t: TaskId, now: nat): (r: (Core, Reply))
    requires CoreShape(s) && CallWakeReady(s, t)
  {
    var task := s.tasks[t];
    var c := s.files[task.pc.f].procIndex;
    if s.channels[c].pending then (SetTask(s, t, task.(run := Uninterruptible)), Asleep)
    else
      var ch := Resume(s.channels[c], now);
      (s.(channels := s.channels[c := ch], tasks := s.tasks[t := task.(pc := User)]), Copied(ch.handoff))
  }

  ghost function ReturnReply(s: Core, f: FileId): (r: Reply)
    requires CoreShape(s) && IsBound(s, f)
  {
    match ReturnOutcome(s.channels[s.files[f].procIndex], f)
    case Rejected(rc) => Done(rc)
    case Accepted => Asleep
  }

  ghost function ReturnStep(s: Core, t: TaskId, f: FileId, result: int, now: nat): (r: Core)
    requires CoreShape(s) && t in s.tasks && IsBound(s, f)
  {
    if ReturnReply(s, f).Done? then s
    else
      var c := s.files[f].procIndex;
      var ch := s.channels[c];
      var parked := s.tasks[t := s.tasks[t].(run := Interruptible, pc := InReturn(f))];
      s.(channels := s.channels[c := Return(ch, f, result, now)], tasks := WakeUp(parked, ch.callerTask))
  }

  ghost predicate OwnsChannel(s: Core, f: FileId)
    requires CoreShape(s)
  {
    IsBound(s, f) && s.channels[s.files[f].procIndex].owner == Some(f)
  }

  ghost function ReleaseStep(s: Core, f: FileId): (r: Core)
    requires CoreShape(s) && f in s.files
  {
    var rest := s.(files := s.files - {f});
    if !OwnsChannel(s, f) then rest
    else
      var c := s.files[f].procIndex;
      var ch := s.channels[c];
      rest.(channels := s.channels[c := Release(ch, f)],
            tasks := WakeUp(s.tasks, if ch.pending then ch.callerTask else None))
  }

  // ---- the steps on references ----

  ghost function RegisterRefs(s: Core, refs: Refs, t: TaskId, f: FileId): (r: Refs)
    requires CoreShape(s) && InUser(s, t) && f in s.files
  {
    if RegisterRc(s, t, f) != 0 then refs
    else refs.(tasks := refs.tasks + multiset{t}, mms := refs.mms + AsBag(s.tasks[t].mm))
  }

  ghost function CallRefs(s: Core, refs: Refs, t: TaskId, f: FileId): (r: Refs)
    requires CoreShape(s) && InUser(s, t) && f in s.files
  {
    if CallReply(s, t, f).Done? then refs
    else refs.(tasks := refs.tasks + multiset{t},
               taskPuts := refs.taskPuts + AsBag(s.channels[s.files[f].procIndex].callerTask))
  }

  ghost function ReleaseRefs(s: Core, refs: Refs, f: FileId): (r: Refs)
    requires CoreShape(s) && f in s.files
  {
    if !OwnsChannel(s, f) then refs
    else
      var ch := s.channels[s.files[f].procIndex];
      refs.(taskPuts := refs.taskPuts + AsBag(ch.shadowTask) + AsBag(ch.callerTask),
            mmPuts := refs.mmPuts + AsBag(ch.shadowMm))
  }

  // ---- the steps on mappings ----

  ghost function MapStep(file: File, mem: Memory, f: FileId, id: MapId, req: MapRequest): (r: Memory)
    requires FileOk(file) && MemShape(mem)
  {
    var d := MapFile(file, mem.barSize, req);
    MapFileIsConfined(file, mem.barSize, req);
    match d
    case Refused(rc) => mem
    case AStackPages(n) => mem.(grants := mem.grants[id := Grant(f, req, d, mem.astack[file.procIndex][..n])])
    case BarRange(_, _) => mem.(grants := mem.grants[id := Grant(f, req, d, [])])
  }

  // ---- all steps ----

  /** WAIT_CALL and RETURN come from a bound file, and on an owned channel from its shadow task. */
  ghost predicate ShadowIssues(s: Core, t: TaskId, f: FileId)
    requires CoreShape(s)
  {
    && IsBound(s, f)
    && (OwnsChannel(s, f) ==> s.channels[s.files[f].procIndex].shadowTask == Some(t))
  }

  /** The file layer calls release only once no ioctl and no mapping uses the file any more. */
  ghost predicate Unreferenced(s: State, f: FileId) {
    && f in s.core.files
    && (forall t :: t in s.core.tasks ==> HeldFile(s.core.tasks[t].pc) != Some(f))
    && (forall id :: id in s.mem.grants ==> s.mem.grants[id].file != f)
  }

  ghost predicate Enabled(s: State, e: Step)
    requires Shape(s)
  {
    match e
    case Open(f) => f !in s.core.files
    case SetRoleCmd(f, code) => f in s.core.files
    case PublishCmd(t, f, pub) => InUser(s.core, t) && f in s.core.files && |pub.proc| == MAX_PROCS
    case SealCmd(t) => t in s.core.tasks && s.core.tasks[t].pc.Sealing?
    case BindCmd(f, id, epoch) => f in s.core.files
    case RegisterCmd(t, f) => InUser(s.core, t) && f in s.core.files
    case WaitCmd(t, f, now) => InUser(s.core, t) && ShadowIssues(s.core, t, f)
    case WaitWake(t, now) => t in s.core.tasks && s.core.tasks[t].pc.InWait? &&
                             s.core.tasks[t].run == Running && IsBound(s.core, s.core.tasks[t].pc.f)
    case CallCmd(t, f, now) => InUser(s.core, t) && f in s.core.files
    case CallWake(t, now) => CallWakeReady(s.core, t)
    case ReturnCmd(t, f, result, now) => InUser(s.core, t) && ShadowIssues(s.core, t, f)
    case ReturnWake(t) => t in s.core.tasks && s.core.tasks[t].pc.InReturn? && s.core.tasks[t].run == Running
    case ReleaseFile(f) => Unreferenced(s, f)
    case PutTask(t) => t in s.refs.taskPuts
    case PutMm(m) => m in s.refs.mmPuts
    case Signal(t) => t in s.core.tasks
    case SpuriousWake(t) => t in s.core.tasks
    case Repin(t, mm, cpu, cpusAllowed) => InUser(s.core, t)
    case Map(f, id, req) => f in s.core.files && id !in s.mem.grants
    case Unmap(id) => id in s.mem.grants
    case Store(id, k, contents) =>
      && id in s.mem.grants && s.mem.grants[id].decision.AStackPages? && s.mem.grants[id].req.write
      && k < |s.mem.grants[id].pages|
  }

  ghost function Exec(s: State, e: Step): (r: (State, Reply))
    requires Shape(s) && Enabled(s, e)
  {
    var core := s.core;
    match e
    case Open(f) => (s.(core := SetFile(core, f, FRESH_FILE)), Done(0))
    case SetRoleCmd(f, code) =>
      var (file, rc) := SetRole(core.files[f], code);
      (s.(core := SetFile(core, f, file)), Done(rc))
    case PublishCmd(t, f, pub) =>
      if core.files[f].role != Publisher then (s, Done(-EPERM))
      else if !Publishable(pub) then (s, Done(-EINVAL))
      else (s.(core := SetTask(core, t, core.tasks[t].(pc := Sealing(f))),
               mem := s.mem.(meta := PublishedMeta(pub))), Asleep)
    case SealCmd(t) =>
      (s.(core := SetTask(core, t, core.tasks[t].(pc := User)),
          mem := s.mem.(meta := s.mem.meta.(ready := true))), Done(0))
    case BindCmd(f, id, epoch) =>
      var (file, rc) := Bind(core.files[f], s.mem.meta, id, epoch);
      (s.(core := SetFile(core, f, file)), Done(rc))
    case RegisterCmd(t, f) =>
      (s.(core := RegisterStep(core, t, f), refs := RegisterRefs(core, s.refs, t, f)),
       Done(RegisterRc(core, t, f)))
    case WaitCmd(t, f, now) =>
      var (core', reply) := WaitStep(core, t, f, now);
      (s.(core := core'), reply)
    case WaitWake(t, now) =>
      if core.tasks[t].signal
      then (s.(core := SetTask(core, t, core.tasks[t].(pc := User, signal := false))), Done(-ERESTARTSYS))
      else
        var (core', reply) := WaitStep(core, t, core.tasks[t].pc.f, now);
        (s.(core := core'), reply)
    case CallCmd(t, f, now) =>
      (s.(core := CallStep(core, t, f, now), refs := CallRefs(core, s.refs, t, f)), CallReply(core, t, f))
    case CallWake(t, now) =>
      var (core', reply) := CallWakeStep(core, t, now);
      (s.(core := core'), reply)
    case ReturnCmd(t, f, result, now) =>
      (s.(core := ReturnStep(core, t, f, result, now)), ReturnReply(core, f))
    case ReturnWake(t) =>
      (s.(core := SetTask(core, t, core.tasks[t].(pc := User, signal := false))),
       Done(if core.tasks[t].signal then -ERESTARTSYS else 0))
    case ReleaseFile(f) =>
      (s.(core := ReleaseStep(core, f), refs := ReleaseRefs(core, s.refs, f)), Done(0))
    case PutTask(t) =>
      (s.(refs := s.refs.(taskPuts := s.refs.taskPuts - multiset{t}, tasks := s.refs.tasks - multiset{t})), Done(0))
    case PutMm(m) =>
      (s.(refs := s.refs.(mmPuts := s.refs.mmPuts - multiset{m}, mms := s.refs.mms - multiset{m})), Done(0))
    case Signal(t) =>
      var task := core.tasks[t];
      (s.(core := SetTask(core, t, task.(signal := true,
                                         run := if task.run == Interruptible then Running else task.run))), Done(0))
    case SpuriousWake(t) => (s.(core := SetTask(core, t, core.tasks[t].(run := Running))), Done(0))
    case Repin(t, mm, cpu, cpusAllowed) =>
      (s.(core := SetTask(core, t, core.tasks[t].(mm := mm, cpu := cpu, cpusAllowed := cpusAllowed))), Done(0))
    case Map(f, id, req) =>
      var d := MapFile(core.files[f], s.mem.barSize, req);
      (s.(mem := MapStep(core.files[f], s.mem, f, id, req)), Done(if d.Refused? then d.rc else 0))
    case Unmap(id) => (s.(mem := s.mem.(grants := s.mem.grants - {id})), Done(0))
    case Store(id, k, contents) =>
      (s.(mem := s.mem.(ram := s.mem.ram[s.mem.grants[id].pages[k] := contents])), Done(0))
  }

  // ---- runs ----

  /** No physical page backs two A-stack positions. */
  ghost predicate DistinctPages(astack: seq<seq<PageId>>) {
    forall c, k, d, l |
      0 <= c < |astack| && 0 <= k < |astack[c]| && 0 <= d < |astack| && 0 <= l < |astack[d]| ::
      c != d || k != l ==> astack[c][k] != astack[d][l]
  }

  /** The driver after probe: no file open, every channel fresh, no reference held. */
  ghost predicate Init(s: State) {
    && Shape(s)
    && s.core.files == map[]
    && (forall c :: 0 <= c < MAX_PROCS ==> s.core.channels[c] == FRESH_CHANNEL)
    && (forall t :: t in s.core.tasks ==> s.core.tasks[t].pc == User && s.core.tasks[t].run == Running)
    && s.refs == Refs(multiset{}, multiset{}, multiset{}, multiset{})
    && !s.mem.meta.ready
    && DistinctPages(s.mem.astack)
    && s.mem.grants == map[]
  }

  datatype Run = Run(states: seq<State>, steps: seq<Step>)

  ghost predicate IsRun(r: Run) {
    && |r.states| == |r.steps| + 1
    && Init(r.states[0])
    && (forall i :: 0 <= i < |r.steps| ==> StepOk(r.states[i], r.steps[i], r.states[i + 1]))
  }

  ghost predicate StepOk(s: State, e: Step, s': State) {
    Shape(s) && Enabled(s, e) && s' == Exec(s, e).0
  }
}
