/**
  The two-host publication protocol, step by step.  Clients on host A and the polling owner on
  host B share the region and interleave freely: contracts are copied word by word on both sides,
  tables are written page by page, and any client may give up at any point.

  A session is named by its nonce; the kernel of A hands out slots and fresh non-zero nonces.
*/
module PoolProtocol {
  import opened Common
  import opened PoolLayout
  import opened PageTables
  import opened PoolRegion

  /** How far a client has come. */
  datatype Phase =
    | Prepared                        // slot, contract and nonce obtained from the kernel
    | WritingExtra(k: nat)            // first k words of the extra contract copied
    | LoadedRequest(r: Word)          // guard: `request` loaded, `complete` not yet
    | WritingContract(k: nat)         // first k words of the contract copied
    | Waiting                         // `request` stored, spinning on `complete`
    | Answered                        // saw its nonce in `complete`
    | Opened                          // found error and reserved both zero
    | Committed                       // the kernel has checked the publication
    | Failed                          // gave up; the kernel session still exists
    | Closed(reusable: bool)

  datatype Session = Session(slot: nat, contract: Contract, extra: Extra, phase: Phase)

  /** Where the owner is in its poll loop; snapshots are private to B. */
  datatype OwnerPc =
    | Asleep
    | Scan(s: nat)
    | Loaded(s: nat, r: Word)
    | Copy(s: nat, r: Word, got: seq<Word>)
    | Check(s: nat, r: Word, w: Contract)
    | CopyExtra(s: nat, r: Word, w: Contract, got: seq<Word>)
    | CheckExtra(s: nat, r: Word, w: Contract, x: Extra)
    | Build(s: nat, r: Word, w: Contract, x: Extra, i: nat)
    | Bump(s: nat, r: Word)
    | Finish(s: nat, r: Word)

  datatype State = State(cfg: Config, mem: Region, sessions: map<Word, Session>,
                         used: set<nat>, quarantined: set<nat>, pc: OwnerPc)

  datatype Step =
    | Prepare(n: Word, s: nat, w: Contract, x: Extra)
    | WriteExtraWord(n: Word)
    | LoadRequest(n: Word)
    | LoadComplete(n: Word)
    | WriteContractWord(n: Word)
    | Post(n: Word)
    | Observe(n: Word)
    | Inspect(n: Word)
    | Commit(n: Word)
    | GiveUp(n: Word)
    | Close(n: Word)
    | ServiceWrite(n: Word, words: Table)
    | OwnerTurn

  // ---- small helpers ----

  function Rec(m: Region, s: nat): (r: Page)
    requires s < CLIENTS
  {
    m[SlotPage(s)]
  }

  function SetRec(m: Region, s: nat, r: Page): (m': Region)
    requires s < CLIENTS
  {
    m[SlotPage(s) := r]
  }

  ghost predicate Shape(st: State) {
    && WellFormed(st.mem)
    && (forall n :: n in st.sessions ==> st.sessions[n].slot < CLIENTS)
  }

  function SetPhase(st: State, n: Word, phase: Phase): (r: State)
    requires n in st.sessions
  {
    st.(sessions := st.sessions[n := st.sessions[n].(phase := phase)])
  }

  ghost predicate InPhase(st: State, n: Word, phase: Phase) {
    n in st.sessions && st.sessions[n].phase == phase
  }

  /** The i-th page the owner writes for an accepted slot: write page, 16 tables, 16 extra tables. */
  const BUILD_STEPS: nat := 33

  function BuildPage(s: nat, i: nat): (p: nat)
    requires s < CLIENTS && i < BUILD_STEPS
    ensures p < PAGES && OwnedBy(s, p) && p != SlotPage(s)
  {
    if i == 0 then WritePage(s)
    else if i <= 16 then TablePage(s, 0, 0) + (i - 1)
    else ExtraTablePage(s, 0, 0) + (i - 17)
  }

  // ---- client steps ----

  /** The phase in which the next step copies a word of the extra contract, or loads the request. */
  function ExtraProgress(phase: Phase): (k: nat) {
    match phase
    case WritingExtra(k) => k
    case _ => 0
  }

  ghost predicate Enabled(st: State, e: Step)
    requires Shape(st)
  {
    match e
    case Prepare(n, s, w, x) =>
      n !in st.sessions && n != 0 && Nonce(w) == n && s < CLIENTS && s !in st.used
    case WriteExtraWord(n) =>
      && n in st.sessions && UsesExtra(st.cfg)
      && (st.sessions[n].phase == Prepared ||
          (st.sessions[n].phase.WritingExtra? && st.sessions[n].phase.k < EXTRA_WORDS))
    case LoadRequest(n) => InPhase(st, n, if UsesExtra(st.cfg) then WritingExtra(EXTRA_WORDS) else Prepared)
    case LoadComplete(n) => n in st.sessions && st.sessions[n].phase.LoadedRequest?
    case WriteContractWord(n) =>
      n in st.sessions && st.sessions[n].phase.WritingContract? && st.sessions[n].phase.k < CONTRACT_WORDS
    case Post(n) => InPhase(st, n, WritingContract(CONTRACT_WORDS))
    case Observe(n) => InPhase(st, n, Waiting) && Rec(st.mem, st.sessions[n].slot).complete == n
    case Inspect(n) => InPhase(st, n, Answered)
    case Commit(n) => InPhase(st, n, Opened)
    case GiveUp(n) =>
      n in st.sessions && !st.sessions[n].phase.Closed? && !st.sessions[n].phase.Committed?
    case Close(n) => InPhase(st, n, Committed) || InPhase(st, n, Failed)
    case ServiceWrite(n, words) => InPhase(st, n, Committed) && GrantsWrite(st.cfg)
    case OwnerTurn => true
  }

  ghost function PrepareStep(st: State, n: Word, s: nat, w: Contract, x: Extra): (r: State) {
    st.(sessions := st.sessions[n := Session(s, w, x, Prepared)], used := st.used + {s})
  }

  ghost function WriteExtraStep(st: State, n: Word): (r: State)
    requires Shape(st) && Enabled(st, WriteExtraWord(n))
  {
    var sess := st.sessions[n];
    var k, rec := ExtraProgress(sess.phase), Rec(st.mem, sess.slot);
    SetPhase(st, n, WritingExtra(k + 1))
      .(mem := SetRec(st.mem, sess.slot, rec.(extra := rec.extra[k := sess.extra[k]])))
  }

  /** The guard: no request outstanding, and the slot does not already carry this nonce. */
  ghost function LoadCompleteStep(st: State, n: Word): (r: State)
    requires Shape(st) && Enabled(st, LoadComplete(n))
  {
    var sess := st.sessions[n];
    var r := sess.phase.r;
    if r != Rec(st.mem, sess.slot).complete || Rec(st.mem, sess.slot).request == n then SetPhase(st, n, Failed)
    else SetPhase(st, n, WritingContract(0))
  }

  ghost function WriteContractStep(st: State, n: Word): (r: State)
    requires Shape(st) && Enabled(st, WriteContractWord(n))
  {
    var sess := st.sessions[n];
    var k, rec := sess.phase.k, Rec(st.mem, sess.slot);
    SetPhase(st, n, WritingContract(k + 1))
      .(mem := SetRec(st.mem, sess.slot, rec.(contract := rec.contract[k := sess.contract[k]])))
  }

  ghost function PostStep(st: State, n: Word): (r: State)
    requires Shape(st) && Enabled(st, Post(n))
  {
    var sess := st.sessions[n];
    SetPhase(st, n, Waiting).(mem := SetRec(st.mem, sess.slot, Rec(st.mem, sess.slot).(request := n)))
  }

  ghost function InspectStep(st: State, n: Word): (r: State)
    requires Shape(st) && Enabled(st, Inspect(n))
  {
    var rec := Rec(st.mem, st.sessions[n].slot);
    SetPhase(st, n, if rec.error != 0 || rec.reserved != 0 then Failed else Opened)
  }

  /** What the kernel checks before it lets the connection run. */
  ghost predicate CommitChecks(st: State, n: Word)
    requires Shape(st) && n in st.sessions
  {
    var sess := st.sessions[n];
    var rec := Rec(st.mem, sess.slot);
    && rec.error == 0 && rec.reserved == 0
    && rec.contract == sess.contract && rec.request == n && rec.complete == rec.request
    && ContractValid(sess.contract)
    && (UsesExtra(st.cfg) ==> rec.extra == sess.extra && AllExtraAccepted(sess.contract, sess.extra))
    && TablesMatch(st.cfg, st.mem, sess.slot, sess.contract, sess.extra)
  }

  ghost function CommitStep(st: State, n: Word): (r: State)
    requires Shape(st) && Enabled(st, Commit(n))
  {
    SetPhase(st, n, if CommitChecks(st, n) then Committed else Failed)
  }

  /** A committed slot becomes free again; any other slot the client has seen is quarantined. */
  ghost function CloseStep(st: State, n: Word): (r: State)
    requires Shape(st) && Enabled(st, Close(n))
  {
    var sess := st.sessions[n];
    if sess.phase == Committed
    then SetPhase(st, n, Closed(true)).(used := st.used - {sess.slot})
    else SetPhase(st, n, Closed(false)).(quarantined := st.quarantined + {sess.slot})
  }

  function GrantedPage(cfg: Config, s: nat): (p: nat)
    requires s < CLIENTS
    ensures p < PAGES && (p == WritePage(s) || p == SHARED_PAGE)
  {
    if cfg.profile == PROFILE_SOCIAL_SHARED then SHARED_PAGE else WritePage(s)
  }

  ghost function ServiceWriteStep(st: State, n: Word, words: Table): (r: State)
    requires Shape(st) && Enabled(st, ServiceWrite(n, words))
  {
    st.(mem := st.mem[GrantedPage(st.cfg, st.sessions[n].slot) := Data(words)])
  }

  // ---- owner steps ----

  ghost predicate PcShape(pc: OwnerPc) {
    && (pc.Asleep? || pc.s < CLIENTS || (pc.Scan? && pc.s <= CLIENTS))
    && (pc.Copy? ==> |pc.got| < CONTRACT_WORDS)
    && (pc.CopyExtra? ==> |pc.got| < EXTRA_WORDS)
    && (pc.Build? ==> pc.i < BUILD_STEPS && ContractValid(pc.w))
  }

  /** The reads of `request` and `complete` at the head of the slot loop. */
  ghost function ScanStep(st: State): (r: State)
    requires Shape(st) && PcShape(st.pc) && (st.pc.Asleep? || st.pc.Scan? || st.pc.Loaded?)
  {
    match st.pc
    case Asleep => st.(pc := Scan(0))
    case Scan(s) => if s == CLIENTS then st.(pc := Asleep) else st.(pc := Loaded(s, Rec(st.mem, s).request))
    case Loaded(s, r) =>
      if r == 0 || r == Rec(st.mem, s).complete then st.(pc := Scan(s + 1)) else st.(pc := Copy(s, r, []))
  }

  /** One word of a snapshot. */
  ghost function CopyStep(st: State): (r: State)
    requires Shape(st) && PcShape(st.pc) && (st.pc.Copy? || st.pc.CopyExtra?)
  {
    match st.pc
    case Copy(s, r, got) =>
      var more := got + [Rec(st.mem, s).contract[|got|]];
      st.(pc := if |more| == CONTRACT_WORDS then Check(s, r, more) else Copy(s, r, more))
    case CopyExtra(s, r, w, got) =>
      var more := got + [Rec(st.mem, s).extra[|got|]];
      st.(pc := if |more| == EXTRA_WORDS then CheckExtra(s, r, w, more) else CopyExtra(s, r, w, more))
  }

  /** The verdict on the contract, and on the extra contract when there is one. */
  ghost function CheckStep(st: State): (r: State)
    requires Shape(st) && PcShape(st.pc) && (st.pc.Check? || st.pc.CheckExtra?)
  {
    var rec := Rec(st.mem, st.pc.s);
    match st.pc
    case Check(s, r, w) =>
      var ok := BaseAccepted(st.cfg, r, w, rec.reserved) && (st.cfg.profile == PROFILE_SOCIAL ==> ManifestAccepted(st.cfg));
      var mem' := SetRec(st.mem, s, rec.(error := if ok then 0 else EINVAL));
      st.(mem := mem',
          pc := if !ok then Finish(s, r)
                else if UsesExtra(st.cfg) then CopyExtra(s, r, w, [])
                else Build(s, r, w, rec.extra, 0))
    case CheckExtra(s, r, w, x) =>
      if AllExtraAccepted(w, x)
      then st.(pc := Build(s, r, w, x, 0))
      else st.(mem := SetRec(st.mem, s, rec.(error := EINVAL)), pc := Finish(s, r))
  }

  ghost function BuildStep(st: State): (r: State)
    requires Shape(st) && PcShape(st.pc) && st.pc.Build?
    requires UsesExtra(st.cfg) ==> AllExtraAccepted(st.pc.w, st.pc.x)
  {
    var Build(s, r, w, x, i) := st.pc;
    var p := BuildPage(s, i);
    st.(mem := st.mem[p := Published(st.cfg, s, w, x, p, st.mem[p])],
        pc := if i + 1 == BUILD_STEPS then Bump(s, r) else Build(s, r, w, x, i + 1))
  }

  ghost function AnswerStep(st: State): (r: State)
    requires Shape(st) && PcShape(st.pc) && (st.pc.Bump? || st.pc.Finish?)
  {
    var rec := Rec(st.mem, st.pc.s);
    match st.pc
    case Bump(s, r) =>
      st.(mem := SetRec(st.mem, s, rec.(bInitializations := rec.bInitializations + 1)), pc := Finish(s, r))
    case Finish(s, r) =>
      st.(mem := SetRec(st.mem, s, rec.(complete := r)), pc := Scan(s + 1))
  }

  /** The owner may only build from contracts it has accepted. */
  ghost predicate OwnerReady(st: State) {
    PcShape(st.pc) && (st.pc.Build? && UsesExtra(st.cfg) ==> AllExtraAccepted(st.pc.w, st.pc.x))
  }

  ghost function OwnerStep(st: State): (r: State)
    requires Shape(st) && OwnerReady(st)
  {
    if st.pc.Asleep? || st.pc.Scan? || st.pc.Loaded? then ScanStep(st)
    else if st.pc.Copy? || st.pc.CopyExtra? then CopyStep(st)
    else if st.pc.Check? || st.pc.CheckExtra? then CheckStep(st)
    else if st.pc.Build? then BuildStep(st)
    else AnswerStep(st)
  }

  // ---- all steps and runs ----

  ghost function Exec(st: State, e: Step): (r: State)
    requires Shape(st) && OwnerReady(st) && Enabled(st, e)
  {
    match e
    case Prepare(n, s, w, x) => PrepareStep(st, n, s, w, x)
    case WriteExtraWord(n) => WriteExtraStep(st, n)
    case LoadRequest(n) => SetPhase(st, n, LoadedRequest(Rec(st.mem, st.sessions[n].slot).request))
    case LoadComplete(n) => LoadCompleteStep(st, n)
    case WriteContractWord(n) => WriteContractStep(st, n)
    case Post(n) => PostStep(st, n)
    case Observe(n) => SetPhase(st, n, Answered)
    case Inspect(n) => InspectStep(st, n)
    case Commit(n) => CommitStep(st, n)
    case GiveUp(n) => SetPhase(st, n, Failed)
    case Close(n) => CloseStep(st, n)
    case ServiceWrite(n, words) => ServiceWriteStep(st, n, words)
    case OwnerTurn => OwnerStep(st)
  }

  /** A freshly initialized pool: every slot page is zero, nobody has a slot. */
  ghost predicate Init(st: State) {
    && Shape(st) && st.pc == Asleep && ConfigValid(st.cfg)
    && st.sessions == map[] && st.used == {} && st.quarantined == {}
    && (forall s :: 0 <= s < CLIENTS ==>
          var r := Rec(st.mem, s);
          r.request == 0 && r.complete == 0 && r.bInitializations == 0 && r.error == 0 && r.reserved == 0)
  }

  datatype Run = Run(states: seq<State>, steps: seq<Step>)

  ghost predicate StepOk(st: State, e: Step, st': State) {
    Shape(st) && OwnerReady(st) && Enabled(st, e) && st' == Exec(st, e)
  }

  ghost predicate IsRun(r: Run) {
    && |r.states| == |r.steps| + 1
    && Init(r.states[0])
    && (forall i :: 0 <= i < |r.steps| ==> StepOk(r.states[i], r.steps[i], r.states[i + 1]))
  }
}
