/**
  The kernel's bounded slot allocator: one bank per pool heap, eight slots per bank, and quarantine
  for slots whose publication the owner may still answer.
*/
module PoolSlots {
  import opened Common

  const BANKS: nat := 16
  const SLOTS: nat := 8

  datatype Bank = Bank(heap: nat, generation: nat, used: set<nat>, quarantined: set<nat>)

  datatype Answer = Refused(errno: int) | Granted(bank: nat, slot: nat)

  const EMPTY: Bank := Bank(0, 0, {}, {})

  // ---- the specification ----

  /** The first bank of `heap`; `heap == 0` finds the first empty bank. */
  function BankOf(banks: seq<Bank>, heap: nat): (k: nat)
    ensures k <= |banks| && (k < |banks| ==> banks[k].heap == heap)
    ensures forall j :: 0 <= j < k ==> banks[j].heap != heap
  {
    if banks == [] || banks[0].heap == heap then 0 else BankOf(banks[1..], heap) + 1
  }

  /** The lowest slot from `from` on that is not in use, or 8. */
  function FreeSlot(used: set<nat>, from: nat): (s: nat)
    requires from <= SLOTS
    ensures from <= s <= SLOTS && (s < SLOTS ==> s !in used)
    ensures forall j :: from <= j < s ==> j in used
    decreases SLOTS - from
  {
    if from == SLOTS || from !in used then from else FreeSlot(used, from + 1)
  }

  /** Where a request for `heap` at `generation` goes. */
  function Target(banks: seq<Bank>, heap: nat, generation: nat): (a: Answer)
  {
    var k, empty := BankOf(banks, heap), BankOf(banks, 0);
    if heap == 0 || generation == 0 then Refused(EINVAL)
    else if k < |banks| && banks[k].generation != generation then Refused(ESTALE)
    else
      var i := if k < |banks| then k else empty;
      if i == |banks| then Refused(ENOSPC)
      else
        var s := FreeSlot(if k < |banks| then banks[i].used else {}, 0);
        if s == SLOTS then Refused(ENOSPC) else Granted(i, s)
  }

  function Acquired(banks: seq<Bank>, heap: nat, generation: nat): (r: seq<Bank>)
  {
    match Target(banks, heap, generation)
    case Refused(_) => banks
    case Granted(i, s) => if i < |banks| then banks[i := Bank(heap, generation, banks[i].used + {s}, banks[i].quarantined)] else banks
  }

  function ReleasedBank(b: Bank, slot: nat, exposed: bool, reusable: bool): (r: Bank) {
    var b' := if exposed && !reusable then b.(quarantined := b.quarantined + {slot}) else b.(used := b.used - {slot});
    if b'.used == {} then EMPTY else b'
  }

  predicate BankOk(b: Bank) {
    && (b.heap == 0 <==> b.used == {})
    && b.quarantined <= b.used
    && (forall s :: s in b.used ==> s < SLOTS)
    && (b.heap == 0 ==> b == EMPTY)
  }

  predicate BanksOk(banks: seq<Bank>) {
    && (forall i :: 0 <= i < |banks| ==> BankOk(banks[i]))
    && (forall i, j | 0 <= i < j < |banks| :: banks[i].heap == 0 || banks[i].heap != banks[j].heap)
  }

  // ---- runs: slots are released by those who hold them ----

  datatype State = State(banks: seq<Bank>, held: set<(nat, nat)>)

  datatype Step =
    | Acquire(heap: nat, generation: nat)
    | Release(bank: nat, slot: nat, exposed: bool, reusable: bool)

  predicate Enabled(st: State, e: Step) { e.Release? ==> (e.bank, e.slot) in st.held && e.bank < |st.banks| }

  function Exec(st: State, e: Step): (r: State)
    requires Enabled(st, e)
  {
    match e
    case Acquire(heap, generation) =>
      var a := Target(st.banks, heap, generation);
      State(Acquired(st.banks, heap, generation), if a.Granted? then st.held + {(a.bank, a.slot)} else st.held)
    case Release(bank, slot, exposed, reusable) =>
      State(st.banks[bank := ReleasedBank(st.banks[bank], slot, exposed, reusable)], st.held - {(bank, slot)})
  }

  /** Every slot in use is held by exactly one session or quarantined, never both. */
  ghost predicate Inv(st: State) {
    && BanksOk(st.banks)
    && (forall i, s :: (i, s) in st.held ==> i < |st.banks|)
    && (forall i, s | 0 <= i < |st.banks| ::
          ((i, s) in st.held <==> s in st.banks[i].used && s !in st.banks[i].quarantined))
  }

  lemma AcquireKeepsInv(st: State, heap: nat, generation: nat)
    requires Inv(st)
    ensures Inv(Exec(st, Acquire(heap, generation)))
    ensures var a := Target(st.banks, heap, generation);
      a.Granted? ==> a.bank < |st.banks| && (a.bank, a.slot) !in st.held && a.slot !in st.banks[a.bank].quarantined
                     && a.slot < SLOTS && forall s :: 0 <= s < a.slot ==> s in st.banks[a.bank].used
  {
    var a, st' := Target(st.banks, heap, generation), Exec(st, Acquire(heap, generation));
    if a.Granted? {
      var b := st'.banks[a.bank];
      assert a.slot in b.used;
      assert BankOk(st.banks[a.bank]);
    }
  }

  lemma ReleaseKeepsInv(st: State, bank: nat, slot: nat, exposed: bool, reusable: bool)
    requires Inv(st) && Enabled(st, Release(bank, slot, exposed, reusable))
    ensures Inv(Exec(st, Release(bank, slot, exposed, reusable)))
    ensures var b' := Exec(st, Release(bank, slot, exposed, reusable)).banks[bank];
      st.banks[bank].quarantined <= b'.quarantined
  {
    assert BankOk(st.banks[bank]);
    var b := st.banks[bank];
    assert b.quarantined <= b.used - {slot};
  }

  datatype Run = Run(states: seq<State>, steps: seq<Step>)

  ghost predicate StepOk(st: State, e: Step, st': State) { Enabled(st, e) && st' == Exec(st, e) }

  ghost predicate IsRun(r: Run) {
    && |r.states| == |r.steps| + 1
    && r.states[0] == State(seq(BANKS, _ => EMPTY), {})
    && forall i :: 0 <= i < |r.steps| ==> StepOk(r.states[i], r.steps[i], r.states[i + 1])
  }

  lemma {:induction false} RunKeepsInv(r: Run, i: nat)
    requires IsRun(r) && i < |r.states|
    ensures Inv(r.states[i])
  {
    if i > 0 {
      RunKeepsInv(r, i - 1);
      assert StepOk(r.states[i - 1], r.steps[i - 1], r.states[i]);
      match r.steps[i - 1]
      case Acquire(heap, generation) => AcquireKeepsInv(r.states[i - 1], heap, generation);
      case Release(bank, slot, exposed, reusable) => ReleaseKeepsInv(r.states[i - 1], bank, slot, exposed, reusable);
    }
  }

  /** A quarantined slot stays quarantined, and no later request is ever granted it. */
  lemma {:induction false} QuarantineIsForEver(r: Run, i: nat, j: nat, bank: nat, slot: nat)
    requires IsRun(r) && i <= j < |r.states|
    requires bank < |r.states[i].banks| && slot in r.states[i].banks[bank].quarantined
    ensures bank < |r.states[j].banks| && slot in r.states[j].banks[bank].quarantined
    ensures (bank, slot) !in r.states[j].held
    ensures forall heap: nat, generation: nat :: Target(r.states[j].banks, heap, generation) != Granted(bank, slot)
    decreases j - i
  {
    RunKeepsInv(r, j);
    if i < j {
      QuarantineIsForEver(r, i, j - 1, bank, slot);
      RunKeepsInv(r, j - 1);
      QuarantineStep(r.states[j - 1], r.steps[j - 1], bank, slot);
      assert StepOk(r.states[j - 1], r.steps[j - 1], r.states[j]);
    }
    forall heap: nat, generation: nat ensures Target(r.states[j].banks, heap, generation) != Granted(bank, slot) {
      AcquireKeepsInv(r.states[j], heap, generation);
    }
  }

  lemma QuarantineStep(st: State, e: Step, bank: nat, slot: nat)
    requires Inv(st) && Enabled(st, e) && bank < |st.banks| && slot in st.banks[bank].quarantined
    ensures var st' := Exec(st, e); bank < |st'.banks| && slot in st'.banks[bank].quarantined
  {
    if e.Release? { ReleaseKeepsInv(st, e.bank, e.slot, e.exposed, e.reusable); }
  }

  // ---- the allocator as the kernel keeps it ----

  lemma FirstBank(banks: seq<Bank>, heap: nat, k: nat)
    requires k <= |banks| && (k < |banks| ==> banks[k].heap == heap)
    requires forall j :: 0 <= j < k ==> banks[j].heap != heap
    ensures BankOf(banks, heap) == k
  {
  }

  lemma LowestFree(used: set<nat>, from: nat, s: nat)
    requires from <= s <= SLOTS && (s < SLOTS ==> s !in used) && forall j :: from <= j < s ==> j in used
    ensures FreeSlot(used, from) == s
    decreases SLOTS - from
  {
    if from < s { LowestFree(used, from + 1, s); }
  }

  ghost predicate InUse(banks: seq<Bank>, heap: nat) { exists i :: 0 <= i < |banks| && banks[i].heap == heap }

  /** A bank of this heap and generation has a slot to spare. */
  ghost predicate HasRoom(banks: seq<Bank>, heap: nat, generation: nat) {
    exists i :: 0 <= i < |banks| && banks[i].heap == heap && banks[i].generation == generation
                && exists s :: 0 <= s < SLOTS && s !in banks[i].used
  }

  /**
    A slot is granted exactly if the heap has a bank of the same generation with a slot to spare, or no bank yet while
    one is empty; another generation of the same heap is stale, and anything else is out of space.
  */
  lemma AcquireAnswers(banks: seq<Bank>, heap: nat, generation: nat)
    requires BanksOk(banks)
    ensures var a := Target(banks, heap, generation);
      && (a.Granted? <==> heap != 0 && generation != 0 &&
                          (HasRoom(banks, heap, generation) || (!InUse(banks, heap) && InUse(banks, 0))))
      && (a == Refused(EINVAL) <==> heap == 0 || generation == 0)
      && (a == Refused(ESTALE) <==> heap != 0 && generation != 0 &&
                                    exists i :: 0 <= i < |banks| && banks[i].heap == heap && banks[i].generation != generation)
      && (a.Refused? ==> a.errno == EINVAL || a.errno == ESTALE || a.errno == ENOSPC)
  {
    var k, empty := BankOf(banks, heap), BankOf(banks, 0);
    if heap != 0 && generation != 0 && k < |banks| {
      assert banks[k].heap == heap;
      var s := FreeSlot(banks[k].used, 0);
      assert s < SLOTS ==> s !in banks[k].used;
      assert forall i :: 0 <= i < |banks| && banks[i].heap == heap ==> i == k;
    } else if heap != 0 && generation != 0 {
      var s := FreeSlot({}, 0);
      assert s == 0;
      assert empty < |banks| ==> banks[empty].heap == 0;
    }
  }

  class Allocator {
    const banks: array<Bank>

    constructor ()
      ensures fresh(banks) && banks[..] == seq(BANKS, _ => EMPTY)
    {
      banks := new Bank[BANKS](_ => EMPTY);
    }

    /** One pass over the banks: the bank of `heap`, or the first empty one on the way. */
    method FindBank(heap: nat) returns (i: nat, empty: nat)
      requires heap != 0
      ensures i == BankOf(banks[..], heap)
      ensures i == banks.Length ==> empty == BankOf(banks[..], 0)
    {
      i, empty := 0, banks.Length;
      while i < banks.Length && banks[i].heap != heap
        invariant i <= banks.Length && forall j :: 0 <= j < i ==> banks[j].heap != heap
        invariant empty == banks.Length ==> forall j :: 0 <= j < i ==> banks[j].heap != 0
        invariant empty < banks.Length ==> empty < i && banks[empty].heap == 0
        invariant empty <= banks.Length && forall j :: 0 <= j < i && j < empty ==> banks[j].heap != 0
      {
        if banks[i].heap == 0 && empty == banks.Length { empty := i; }
        i := i + 1;
      }
      FirstBank(banks[..], heap, i);
      if i == banks.Length { FirstBank(banks[..], 0, empty); }
    }

    method AcquireSlot(heap: nat, generation: nat) returns (a: Answer)
      requires BanksOk(banks[..])
      modifies banks
      ensures a == old(Target(banks[..], heap, generation))
      ensures banks[..] == old(Acquired(banks[..], heap, generation))
    {
      if heap == 0 || generation == 0 { return Refused(EINVAL); }
      var i, empty := FindBank(heap);
      if i < banks.Length {
        if banks[i].generation != generation { return Refused(ESTALE); }
      } else {
        if empty == banks.Length { return Refused(ENOSPC); }
        i := empty;
        assert banks[..][i] == EMPTY;
      }
      var slot := 0;
      while slot < SLOTS && slot in banks[i].used
        invariant slot <= SLOTS && forall j :: 0 <= j < slot ==> j in banks[i].used
      {
        slot := slot + 1;
      }
      LowestFree(banks[i].used, 0, slot);
      if slot == SLOTS { return Refused(ENOSPC); }
      banks[i] := Bank(heap, generation, banks[i].used + {slot}, banks[i].quarantined);
      return Granted(i, slot);
    }

    method ReleaseSlot(bank: nat, slot: nat, exposed: bool, reusable: bool)
      requires bank < banks.Length
      modifies banks
      ensures banks[..] == old(banks[..][bank := ReleasedBank(banks[bank], slot, exposed, reusable)])
    {
      if exposed && !reusable {
        banks[bank] := banks[bank].(quarantined := banks[bank].quarantined + {slot});
      } else {
        banks[bank] := banks[bank].(used := banks[bank].used - {slot});
      }
      if banks[bank].used == {} { banks[bank] := EMPTY; }
    }
  }
}
