/**
  The kernel's slot allocator under the publication protocol.  The protocol lets Prepare take any free slot and
  says what Close does to the slot; here slots come from and go back to the allocator, which serves other pools
  as well, and every such run is a run of the protocol.
*/
module PoolAllocation {
  import opened Common
  import opened PoolLayout
  import Slots = PoolSlots
  import opened PoolProtocol
  import opened PoolSafety
  import opened PoolRuns

  /** Slots in use, and in quarantine, in the bank of a heap. */
  function UsedIn(banks: seq<Slots.Bank>, heap: nat): (s: set<nat>) {
    var k := Slots.BankOf(banks, heap);
    if k < |banks| then banks[k].used else {}
  }

  function QuarantinedIn(banks: seq<Slots.Bank>, heap: nat): (s: set<nat>) {
    var k := Slots.BankOf(banks, heap);
    if k < |banks| then banks[k].quarantined else {}
  }

  /** The allocator as a whole and the pool of one heap. */
  datatype Joint = Joint(slots: Slots.State, pool: State)

  ghost predicate Agrees(banks: seq<Slots.Bank>, heap: nat, pool: State) {
    UsedIn(banks, heap) == pool.used && QuarantinedIn(banks, heap) == pool.quarantined
  }

  ghost predicate JointInv(j: Joint, heap: nat) {
    heap != 0 && Slots.Inv(j.slots) && Inv(j.pool) && Agrees(j.slots.banks, heap, j.pool)
  }

  // ---- the allocator seen from one heap ----

  lemma BankIsFirst(banks: seq<Slots.Bank>, heap: nat, k: nat)
    requires Slots.BanksOk(banks) && heap != 0 && k < |banks| && banks[k].heap == heap
    ensures Slots.BankOf(banks, heap) == k
  {
    var i := Slots.BankOf(banks, heap);
    assert i <= k && banks[i].heap == banks[k].heap;
  }

  lemma NoBank(banks: seq<Slots.Bank>, heap: nat)
    requires forall k :: 0 <= k < |banks| ==> banks[k].heap != heap
    ensures Slots.BankOf(banks, heap) == |banks|
  {
  }

  /** A bank changes; other heaps see nothing of it. */
  lemma OtherBank(banks: seq<Slots.Bank>, banks': seq<Slots.Bank>, heap: nat, k: nat, b: Slots.Bank)
    requires Slots.BanksOk(banks) && k < |banks| && banks' == banks[k := b] && Slots.BanksOk(banks')
    requires heap != 0 && banks[k].heap != heap && b.heap != heap
    ensures UsedIn(banks', heap) == UsedIn(banks, heap) && QuarantinedIn(banks', heap) == QuarantinedIn(banks, heap)
  {
    var i := Slots.BankOf(banks, heap);
    if i < |banks| { BankIsFirst(banks', heap, i); } else { NoBank(banks', heap); }
  }

  /** A bank of this heap is the bank of this heap. */
  lemma OwnBank(banks: seq<Slots.Bank>, heap: nat, k: nat)
    requires Slots.BanksOk(banks) && heap != 0 && k < |banks| && banks[k].heap == heap
    ensures UsedIn(banks, heap) == banks[k].used && QuarantinedIn(banks, heap) == banks[k].quarantined
  {
    BankIsFirst(banks, heap, k);
  }

  /** Granting a slot takes one that is free, below the number of clients, and puts it to use. */
  lemma GrantTakesFreeSlot(st: Slots.State, heap: nat, generation: nat)
    requires Slots.Inv(st) && heap != 0 && Slots.Target(st.banks, heap, generation).Granted?
    ensures var s, st' := Slots.Target(st.banks, heap, generation).slot, Slots.Exec(st, Slots.Acquire(heap, generation));
      && s < CLIENTS && s !in UsedIn(st.banks, heap) && Slots.Inv(st')
      && UsedIn(st'.banks, heap) == UsedIn(st.banks, heap) + {s}
      && QuarantinedIn(st'.banks, heap) == QuarantinedIn(st.banks, heap)
  {
    var a, st' := Slots.Target(st.banks, heap, generation), Slots.Exec(st, Slots.Acquire(heap, generation));
    Slots.AcquireKeepsInv(st, heap, generation);
    assert Slots.BankOk(st.banks[a.bank]);
    OwnBank(st'.banks, heap, a.bank);
  }

  /** Giving a slot back frees it, or leaves it in use and quarantined. */
  lemma ReleaseGivesBack(st: Slots.State, heap: nat, slot: nat, reusable: bool)
    requires Slots.Inv(st) && heap != 0 && slot in UsedIn(st.banks, heap) && slot !in QuarantinedIn(st.banks, heap)
    ensures var e := Slots.Release(Slots.BankOf(st.banks, heap), slot, true, reusable);
      && Slots.Enabled(st, e) && Slots.Inv(Slots.Exec(st, e))
      && UsedIn(Slots.Exec(st, e).banks, heap) == (if reusable then UsedIn(st.banks, heap) - {slot} else UsedIn(st.banks, heap))
      && QuarantinedIn(Slots.Exec(st, e).banks, heap)
         == (if reusable then QuarantinedIn(st.banks, heap) else QuarantinedIn(st.banks, heap) + {slot})
  {
    var k := Slots.BankOf(st.banks, heap);
    var e := Slots.Release(k, slot, true, reusable);
    assert (k, slot) in st.held;
    Slots.ReleaseKeepsInv(st, k, slot, true, reusable);
    var b, st' := st.banks[k], Slots.Exec(st, e);
    assert Slots.BankOk(b);
    if st'.banks[k].heap == heap {
      OwnBank(st'.banks, heap, k);
    } else {
      assert b.used - {slot} == {} && b.quarantined <= b.used - {slot};
      NoBank(st'.banks, heap);
    }
  }

  // ---- joint runs ----

  datatype Op =
    | Grant(n: Word, w: Contract, x: Extra)   // PREPARE of a session of this pool
    | Drop(n: Word)                           // the file of a session of this pool is released
    | Other(e: Step)                          // any other step of the protocol
    | Foreign(op: Slots.Step)                 // sessions of other pools

  ghost predicate JointEnabled(j: Joint, heap: nat, generation: nat, op: Op)
    requires Shape(j.pool)
  {
    match op
    case Grant(n, w, x) =>
      Slots.Target(j.slots.banks, heap, generation).Granted? && n !in j.pool.sessions && n != 0 && Nonce(w) == n
    case Drop(n) => Enabled(j.pool, Close(n))
    case Other(e) => !e.Prepare? && !e.Close? && Enabled(j.pool, e)
    case Foreign(e) =>
      && Slots.Enabled(j.slots, e)
      && (if e.Acquire? then e.heap != heap else j.slots.banks[e.bank].heap != heap)
  }

  /** The step of the protocol this amounts to, if any. */
  ghost function PoolStep(j: Joint, heap: nat, generation: nat, op: Op): (e: Option<Step>)
    requires Shape(j.pool) && JointEnabled(j, heap, generation, op)
  {
    match op
    case Grant(n, w, x) => Some(Prepare(n, Slots.Target(j.slots.banks, heap, generation).slot, w, x))
    case Drop(n) => Some(Close(n))
    case Other(e) => Some(e)
    case Foreign(_) => None
  }

  /** What the kernel asks of its allocator, if anything. */
  ghost function SlotStep(j: Joint, heap: nat, generation: nat, op: Op): (e: Option<Slots.Step>)
    requires Shape(j.pool) && JointEnabled(j, heap, generation, op)
  {
    match op
    case Grant(n, w, x) => Some(Slots.Acquire(heap, generation))
    case Drop(n) =>
      Some(Slots.Release(Slots.BankOf(j.slots.banks, heap), j.pool.sessions[n].slot, true, j.pool.sessions[n].phase == Committed))
    case Other(_) => None
    case Foreign(e) => Some(e)
  }

  ghost predicate JointStep(j: Joint, heap: nat, generation: nat, op: Op, j': Joint) {
    && Shape(j.pool) && OwnerReady(j.pool) && JointEnabled(j, heap, generation, op)
    && (match PoolStep(j, heap, generation, op)
        case None => j'.pool == j.pool
        case Some(e) => Enabled(j.pool, e) ==> j'.pool == Exec(j.pool, e))
    && (match SlotStep(j, heap, generation, op)
        case None => j'.slots == j.slots
        case Some(e) => Slots.Enabled(j.slots, e) ==> j'.slots == Slots.Exec(j.slots, e))
  }

  /** Both can take their step: the slot granted is free in the protocol, the slot dropped is held in the allocator. */
  ghost predicate BothCan(j: Joint, heap: nat, generation: nat, op: Op)
    requires Shape(j.pool) && JointEnabled(j, heap, generation, op)
  {
    && (PoolStep(j, heap, generation, op).Some? ==> Enabled(j.pool, PoolStep(j, heap, generation, op).value))
    && (SlotStep(j, heap, generation, op).Some? ==> Slots.Enabled(j.slots, SlotStep(j, heap, generation, op).value))
  }

  lemma GrantKeepsJoint(j: Joint, heap: nat, generation: nat, n: Word, w: Contract, x: Extra, j': Joint)
    requires JointInv(j, heap) && JointStep(j, heap, generation, Grant(n, w, x), j')
    ensures BothCan(j, heap, generation, Grant(n, w, x)) && JointInv(j', heap)
  {
    GrantTakesFreeSlot(j.slots, heap, generation);
    StepKeepsInv(j.pool, PoolStep(j, heap, generation, Grant(n, w, x)).value);
  }

  lemma DropKeepsJoint(j: Joint, heap: nat, generation: nat, n: Word, j': Joint)
    requires JointInv(j, heap) && JointStep(j, heap, generation, Drop(n), j')
    ensures BothCan(j, heap, generation, Drop(n)) && JointInv(j', heap)
  {
    var sess := j.pool.sessions[n];
    assert SessionInv(j.pool, n);
    ReleaseGivesBack(j.slots, heap, sess.slot, sess.phase == Committed);
    StepKeepsInv(j.pool, Close(n));
  }

  lemma OtherKeepsSlots(st: State, e: Step)
    requires Inv(st) && Enabled(st, e) && !e.Prepare? && !e.Close?
    ensures Exec(st, e).used == st.used && Exec(st, e).quarantined == st.quarantined
  {
  }

  lemma ForeignKeepsJoint(j: Joint, heap: nat, generation: nat, e: Slots.Step, j': Joint)
    requires JointInv(j, heap) && JointStep(j, heap, generation, Foreign(e), j')
    ensures JointInv(j', heap)
  {
    var banks, banks' := j.slots.banks, j'.slots.banks;
    match e
    case Acquire(h, g) =>
      Slots.AcquireKeepsInv(j.slots, h, g);
      var a := Slots.Target(banks, h, g);
      if a.Granted? { OtherBank(banks, banks', heap, a.bank, banks'[a.bank]); }
    case Release(k, slot, exposed, reusable) =>
      Slots.ReleaseKeepsInv(j.slots, k, slot, exposed, reusable);
      OtherBank(banks, banks', heap, k, banks'[k]);
  }

  lemma JointStepKeepsInv(j: Joint, heap: nat, generation: nat, op: Op, j': Joint)
    requires JointInv(j, heap) && JointStep(j, heap, generation, op, j')
    ensures BothCan(j, heap, generation, op) && JointInv(j', heap)
  {
    match op
    case Grant(n, w, x) => GrantKeepsJoint(j, heap, generation, n, w, x, j');
    case Drop(n) => DropKeepsJoint(j, heap, generation, n, j');
    case Other(e) =>
      OtherKeepsSlots(j.pool, e);
      StepKeepsInv(j.pool, e);
    case Foreign(e) => ForeignKeepsJoint(j, heap, generation, e, j');
  }

  datatype JointRun = JointRun(states: seq<Joint>, ops: seq<Op>)

  /** From a fresh pool whose heap the allocator has not seen yet. */
  ghost predicate IsJointRun(r: JointRun, heap: nat, generation: nat) {
    && heap != 0 && |r.states| == |r.ops| + 1
    && Init(r.states[0].pool) && Slots.Inv(r.states[0].slots) && UsedIn(r.states[0].slots.banks, heap) == {}
    && forall i :: 0 <= i < |r.ops| ==> JointStep(r.states[i], heap, generation, r.ops[i], r.states[i + 1])
  }

  lemma FreshJoint(j: Joint, heap: nat)
    requires heap != 0 && Init(j.pool) && Slots.Inv(j.slots) && UsedIn(j.slots.banks, heap) == {}
    ensures JointInv(j, heap)
  {
    RunKeepsInv(Run([j.pool], []), 0);
    var k := Slots.BankOf(j.slots.banks, heap);
    assert k < |j.slots.banks| ==> Slots.BankOk(j.slots.banks[k]);
  }

  lemma {:induction false} JointRunKeepsInv(r: JointRun, heap: nat, generation: nat, i: nat)
    requires IsJointRun(r, heap, generation) && i < |r.states|
    ensures JointInv(r.states[i], heap)
  {
    if i == 0 {
      FreshJoint(r.states[0], heap);
    } else {
      JointRunKeepsInv(r, heap, generation, i - 1);
      assert JointStep(r.states[i - 1], heap, generation, r.ops[i - 1], r.states[i]);
      JointStepKeepsInv(r.states[i - 1], heap, generation, r.ops[i - 1], r.states[i]);
    }
  }

  /**
    Every joint run is a run of the protocol with pauses: each operation of this pool is an enabled step of the
    protocol, each operation of another pool leaves it alone, and the kernel only gives back what it holds.
  */
  lemma AllocatorServesProtocol(r: JointRun, heap: nat, generation: nat, i: nat)
    requires IsJointRun(r, heap, generation) && i < |r.ops|
    ensures Shape(r.states[i].pool) && JointEnabled(r.states[i], heap, generation, r.ops[i])
    ensures BothCan(r.states[i], heap, generation, r.ops[i])
    ensures match PoolStep(r.states[i], heap, generation, r.ops[i])
            case None => r.states[i + 1].pool == r.states[i].pool
            case Some(e) => StepOk(r.states[i].pool, e, r.states[i + 1].pool)
  {
    JointRunKeepsInv(r, heap, generation, i);
    assert JointStep(r.states[i], heap, generation, r.ops[i], r.states[i + 1]);
    JointStepKeepsInv(r.states[i], heap, generation, r.ops[i], r.states[i + 1]);
  }
}
