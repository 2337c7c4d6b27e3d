/** Every posted request is answered: how many turns of the owner it takes, whatever the clients do meanwhile. */
module PoolProgress {
  import opened PoolLayout
  import opened PageTables
  import opened PoolRegion
  import opened PoolProtocol
  import opened PoolSafety
  import opened PoolRuns

  /** Slot `s` carries request `r`, which has no answer yet. */
  ghost predicate Pending(st: State, s: nat, r: Word) {
    s < CLIENTS && Shape(st) && Rec(st.mem, s).request == r && Rec(st.mem, s).complete != r
  }

  /** Slot `s` carries request `r` and its answer. */
  ghost predicate Done(st: State, s: nat, r: Word) {
    s < CLIENTS && Shape(st) && Rec(st.mem, s).request == r && Rec(st.mem, s).complete == r
  }

  // ---- how far the owner is from answering ----

  /** Turns one visit to a slot takes at most, and of these the ones after the snapshot of the contract. */
  const AFTER_COPY: nat := EXTRA_WORDS + BUILD_STEPS + 4
  const VISIT: nat := CONTRACT_WORDS + AFTER_COPY + 2

  function Visits(k: int): (n: int)
  {
    assert VISIT == 99;
    99 * k
  }

  /** Turns the owner still spends at most on the slot it is at. */
  function Left(pc: OwnerPc): (n: int) {
    match pc
    case Asleep => 0
    case Scan(_) => VISIT
    case Loaded(_, _) => VISIT - 1
    case Copy(_, _, got) => CONTRACT_WORDS - |got| + AFTER_COPY
    case Check(_, _, _) => AFTER_COPY
    case CopyExtra(_, _, _, got) => EXTRA_WORDS - |got| + BUILD_STEPS + 3
    case CheckExtra(_, _, _, _) => BUILD_STEPS + 3
    case Build(_, _, _, _, i) => BUILD_STEPS - i + 2
    case Bump(_, _) => 2
    case Finish(_, _) => 1
  }

  /** The owner is at slot `s` and will answer request `r` before it leaves it. */
  ghost predicate AtWork(pc: OwnerPc, s: nat, r: Word) {
    pc == Scan(s) || (!pc.Asleep? && !pc.Scan? && pc.s == s && pc.r == r)
  }

  /** Turns the owner needs at most to answer request `r` of slot `s`: in this pass, or in the next. */
  ghost function Distance(pc: OwnerPc, s: nat, r: Word): (n: int) {
    var pass := 2 + Visits(s + 1);
    if pc.Asleep? then pass - 1
    else if AtWork(pc, s, r) || pc.s < s then Visits(s - pc.s) + Left(pc)
    else if pc.s == CLIENTS then pass
    else Visits(CLIENTS - 1 - pc.s) + Left(pc) + pass
  }

  const ANSWER_TURNS: nat := Visits(CLIENTS + 1) + 1

  lemma LeftIsBounded(pc: OwnerPc)
    requires PcShape(pc) && !pc.Asleep?
    ensures 0 < Left(pc) <= VISIT && (!pc.Scan? ==> Left(pc) < VISIT)
  {
  }

  lemma DistanceIsBounded(pc: OwnerPc, s: nat, r: Word)
    requires PcShape(pc) && s < CLIENTS
    ensures 0 < Distance(pc, s, r) <= ANSWER_TURNS
  {
    if !pc.Asleep? { LeftIsBounded(pc); }
  }

  // ---- what an owner's turn does ----

  /** The owner goes on with the slot it is at. */
  ghost predicate Stays(pc: OwnerPc, pc': OwnerPc) {
    && !pc.Asleep? && !pc'.Asleep? && !pc'.Scan? && pc'.s == pc.s && Left(pc') < Left(pc)
    && (!pc.Scan? ==> pc'.r == pc.r)
  }

  /** The owner has finished with the slot, or with the pass, or begins one. */
  ghost predicate Leaves(pc: OwnerPc, pc': OwnerPc) {
    || ((pc.Loaded? || pc.Finish?) && pc' == Scan(pc.s + 1))
    || (pc == Scan(CLIENTS) && pc' == Asleep)
    || (pc == Asleep && pc' == Scan(0))
  }

  lemma OwnerMoves(st: State)
    requires Shape(st) && OwnerReady(st)
    ensures Stays(st.pc, OwnerStep(st).pc) || Leaves(st.pc, OwnerStep(st).pc)
  {
  }

  /** A turn that neither answers the request nor passes by its slot brings the answer nearer. */
  lemma MoveNears(pc: OwnerPc, pc': OwnerPc, s: nat, r: Word)
    requires PcShape(pc) && PcShape(pc') && s < CLIENTS && (Stays(pc, pc') || Leaves(pc, pc'))
    requires pc == Scan(s) ==> pc' == Loaded(s, r)
    requires AtWork(pc, s, r) ==> Stays(pc, pc')
    ensures Distance(pc', s, r) < Distance(pc, s, r)
  {
    if !pc.Asleep? { LeftIsBounded(pc); }
  }

  // ---- one step ----

  /** The request stands; it has been answered, or an owner's turn has brought the answer nearer. */
  ghost predicate Nears(st: State, e: Step, st': State, s: nat, r: Word) {
    Pending(st, s, r) ==>
      Done(st', s, r) ||
      (Pending(st', s, r) && Distance(st'.pc, s, r) + (if e.OwnerTurn? then 1 else 0) <= Distance(st.pc, s, r))
  }

  lemma ClientsKeepPending(st: State, e: Step, s: nat, r: Word)
    requires Inv(st) && Enabled(st, e) && !e.OwnerTurn? && Shape(Exec(st, e)) && Pending(st, s, r)
    ensures Pending(Exec(st, e), s, r) && Exec(st, e).pc == st.pc
  {
    if e.Post? { assert SessionInv(st, e.n); }
  }

  /** The request stands, and only the last step of a visit answers it. */
  lemma OwnerKeepsRequest(st: State, s: nat, r: Word)
    requires Inv(st) && Shape(OwnerStep(st)) && Pending(st, s, r)
    ensures if st.pc == Finish(s, r) then Done(OwnerStep(st), s, r) else Pending(OwnerStep(st), s, r)
  {
  }

  lemma OwnerDoesNotPassBy(st: State, s: nat, r: Word)
    requires Inv(st) && Pending(st, s, r) && AtWork(st.pc, s, r) && st.pc != Finish(s, r)
    ensures Stays(st.pc, OwnerStep(st).pc) && (st.pc == Scan(s) ==> OwnerStep(st).pc == Loaded(s, r))
  {
    OwnerMoves(st);
    assert SlotInv(st, s);
  }

  lemma OwnerNears(st: State, s: nat, r: Word)
    requires Inv(st) && Shape(OwnerStep(st)) && PcShape(OwnerStep(st).pc) && Pending(st, s, r)
    ensures Nears(st, OwnerTurn, OwnerStep(st), s, r)
  {
    OwnerKeepsRequest(st, s, r);
    OwnerMoves(st);
    if st.pc != Finish(s, r) {
      if AtWork(st.pc, s, r) { OwnerDoesNotPassBy(st, s, r); }
      MoveNears(st.pc, OwnerStep(st).pc, s, r);
    }
  }

  lemma NearsInRun(run: Run, k: nat, s: nat, r: Word)
    requires IsRun(run) && k < |run.steps|
    ensures Nears(run.states[k], run.steps[k], run.states[k + 1], s, r)
  {
    if Pending(run.states[k], s, r) {
      RunKeepsInv(run, k);
      RunKeepsInv(run, k + 1);
      assert StepOk(run.states[k], run.steps[k], run.states[k + 1]);
      if run.steps[k].OwnerTurn? { OwnerNears(run.states[k], s, r); }
      else { ClientsKeepPending(run.states[k], run.steps[k], s, r); }
    }
  }

  // ---- whole runs ----

  function Turns(steps: seq<Step>, i: nat, j: nat): (n: nat)
    requires i <= j <= |steps|
  {
    if i == j then 0 else Turns(steps, i, j - 1) + if steps[j - 1].OwnerTurn? then 1 else 0
  }

  ghost predicate DoneBetween(states: seq<State>, i: nat, j: nat, s: nat, r: Word) {
    exists k :: i <= k <= j && k < |states| && Done(states[k], s, r)
  }

  lemma {:induction false} TurnsAddUp(run: Run, i: nat, j: nat, s: nat, r: Word)
    requires |run.states| == |run.steps| + 1 && i <= j < |run.states| && Pending(run.states[i], s, r)
    requires forall k :: i <= k < j ==> Nears(run.states[k], run.steps[k], run.states[k + 1], s, r)
    ensures DoneBetween(run.states, i, j, s, r) ||
      (Pending(run.states[j], s, r) &&
       Distance(run.states[j].pc, s, r) + Turns(run.steps, i, j) <= Distance(run.states[i].pc, s, r))
    decreases j - i
  {
    if i < j {
      TurnsAddUp(run, i, j - 1, s, r);
      assert Nears(run.states[j - 1], run.steps[j - 1], run.states[j], s, r);
      assert Done(run.states[j], s, r) ==> DoneBetween(run.states, i, j, s, r);
    }
  }

  /**
    Every request is answered.  However the clients interleave, give up or leave, a request that stands unanswered
    has its answer within `ANSWER_TURNS` turns of the owner, and stands until then.
  */
  lemma PendingIsAnswered(run: Run, i: nat, j: nat, s: nat, r: Word)
    requires IsRun(run) && i <= j < |run.states| && Pending(run.states[i], s, r)
    requires Turns(run.steps, i, j) >= ANSWER_TURNS
    ensures DoneBetween(run.states, i, j, s, r)
  {
    forall k | i <= k < j ensures Nears(run.states[k], run.steps[k], run.states[k + 1], s, r) { NearsInRun(run, k, s, r); }
    TurnsAddUp(run, i, j, s, r);
    RunKeepsInv(run, i);
    DistanceIsBounded(run.states[i].pc, s, r);
    if Pending(run.states[j], s, r) {
      RunKeepsInv(run, j);
      DistanceIsBounded(run.states[j].pc, s, r);
    }
  }

  // ---- the client's wait ----

  lemma OwnerKeepsAnswers(st: State, s: nat, r: Word)
    requires Inv(st) && Shape(OwnerStep(st)) && Done(st, s, r)
    ensures Rec(OwnerStep(st).mem, s).complete == r
  {
  }

  lemma ClientsKeepAnswers(st: State, e: Step, s: nat, r: Word)
    requires Inv(st) && Enabled(st, e) && !e.OwnerTurn? && Shape(Exec(st, e)) && Done(st, s, r)
    ensures Rec(Exec(st, e).mem, s).complete == r
  {
  }

  /** A session that waits keeps its slot, and an answer found there stays. */
  ghost predicate WaitsOn(st: State, st': State, s: nat, n: Word) {
    InPhase(st, n, Waiting) && InPhase(st', n, Waiting) && st.sessions[n].slot == s ==>
      st'.sessions[n].slot == s && (Done(st, s, n) ==> Done(st', s, n))
  }

  lemma WaitsInRun(run: Run, k: nat, s: nat, n: Word)
    requires IsRun(run) && k < |run.steps|
    ensures WaitsOn(run.states[k], run.states[k + 1], s, n)
  {
    var st, e, st' := run.states[k], run.steps[k], run.states[k + 1];
    assert StepOk(st, e, st');
    if InPhase(st, n, Waiting) && InPhase(st', n, Waiting) && st.sessions[n].slot == s {
      SlotStays(st, e, n);
      RunKeepsInv(run, k);
      RunKeepsInv(run, k + 1);
      assert SessionInv(st', n);
      if Done(st, s, n) {
        if e.OwnerTurn? { OwnerKeepsAnswers(st, s, n); } else { ClientsKeepAnswers(st, e, s, n); }
      }
    }
  }

  lemma SlotStays(st: State, e: Step, n: Word)
    requires Shape(st) && OwnerReady(st) && Enabled(st, e) && n in st.sessions && n in Exec(st, e).sessions
    ensures Exec(st, e).sessions[n].slot == st.sessions[n].slot
  {
  }

  lemma {:induction false} WaitsThroughout(states: seq<State>, i: nat, j: nat, s: nat, n: Word)
    requires i <= j < |states| && InPhase(states[i], n, Waiting) && states[i].sessions[n].slot == s
    requires forall k :: i <= k <= j ==> InPhase(states[k], n, Waiting)
    requires forall k :: i <= k < j ==> WaitsOn(states[k], states[k + 1], s, n)
    ensures InPhase(states[j], n, Waiting) && states[j].sessions[n].slot == s
    ensures Done(states[i], s, n) ==> Done(states[j], s, n)
    decreases j - i
  {
    if i < j {
      WaitsThroughout(states, i, j - 1, s, n);
      assert WaitsOn(states[j - 1], states[j], s, n);
    }
  }

  /**
    The wait ends: a client that has gone on waiting for `ANSWER_TURNS` turns of the owner finds its own nonce in
    `complete`, so its next look takes it out of the loop.
  */
  lemma WaitingClientIsAnswered(run: Run, i: nat, j: nat, n: Word)
    requires IsRun(run) && i <= j < |run.states| && Turns(run.steps, i, j) >= ANSWER_TURNS
    requires forall k :: i <= k <= j ==> InPhase(run.states[k], n, Waiting)
    ensures Shape(run.states[j]) && Enabled(run.states[j], Observe(n))
  {
    RunKeepsInv(run, i);
    RunKeepsInv(run, j);
    assert SessionInv(run.states[i], n);
    var s := run.states[i].sessions[n].slot;
    forall k | i <= k < j ensures WaitsOn(run.states[k], run.states[k + 1], s, n) { WaitsInRun(run, k, s, n); }
    if Pending(run.states[i], s, n) { PendingIsAnswered(run, i, j, s, n); }
    assert DoneBetween(run.states, i, j, s, n);
    var k :| i <= k <= j && k < |run.states| && Done(run.states[k], s, n);
    WaitsThroughout(run.states, i, k, s, n);
    WaitsThroughout(run.states, k, j, s, n);
  }

  // ---- one visit ----

  /** The owner is about to answer request `r` of slot `s`, or answers it with this very step. */
  ghost predicate Serves(st: State, st': State, s: nat, r: Word) {
    Pending(st, s, r) && AtWork(st.pc, s, r) ==>
      (Pending(st', s, r) && AtWork(st'.pc, s, r)) || (Done(st', s, r) && st'.pc == Scan(s + 1))
  }

  lemma ServesInRun(run: Run, k: nat, s: nat, r: Word)
    requires IsRun(run) && k < |run.steps|
    ensures Serves(run.states[k], run.states[k + 1], s, r)
  {
    var st, e, st' := run.states[k], run.steps[k], run.states[k + 1];
    assert StepOk(st, e, st');
    if Pending(st, s, r) && AtWork(st.pc, s, r) {
      RunKeepsInv(run, k);
      RunKeepsInv(run, k + 1);
      if !e.OwnerTurn? {
        ClientsKeepPending(st, e, s, r);
      } else {
        OwnerKeepsRequest(st, s, r);
        if st.pc != Finish(s, r) { OwnerDoesNotPassBy(st, s, r); }
      }
    }
  }

  lemma {:induction false} ServedThroughout(states: seq<State>, i: nat, j: nat, s: nat, r: Word)
    requires i <= j < |states| && Pending(states[i], s, r) && AtWork(states[i].pc, s, r)
    requires forall k :: i <= k < j ==> Serves(states[k], states[k + 1], s, r)
    requires forall k :: i < k < j ==> states[k].pc != Scan(s + 1)
    ensures (Pending(states[j], s, r) && AtWork(states[j].pc, s, r)) || (Done(states[j], s, r) && states[j].pc == Scan(s + 1))
    decreases j - i
  {
    if i < j {
      ServedThroughout(states, i, j - 1, s, r);
      assert Serves(states[j - 1], states[j], s, r);
    }
  }

  /**
    No visit skips a request: what stands unanswered in a slot when the owner's pass comes to it has its answer
    when the pass comes to the next slot, whatever clients do in between.
  */
  lemma VisitAnswers(run: Run, i: nat, j: nat, s: nat, r: Word)
    requires IsRun(run) && i < j < |run.states| && Pending(run.states[i], s, r) && run.states[i].pc == Scan(s)
    requires run.states[j].pc == Scan(s + 1) && forall k :: i < k < j ==> run.states[k].pc != Scan(s + 1)
    ensures Done(run.states[j], s, r)
  {
    forall k | i <= k < j ensures Serves(run.states[k], run.states[k + 1], s, r) { ServesInRun(run, k, s, r); }
    ServedThroughout(run.states, i, j, s, r);
  }
}
