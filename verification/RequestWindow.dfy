/**
  The windowed request loop: a fixed set of request slots, filled while there is room, answered in any
  order, and reclaimed.  What the network does in each turn of the event loop is given from outside.
*/
module RequestWindow {
  import opened Bits
  import opened Common
  import opened HelloPayload

  datatype Slot = Slot(inUse: bool, done: bool, id: nat, request: seq<Byte>, response: Option<seq<Byte>>)

  const FREE: Slot := Slot(false, false, 0, [], None)

  // ---- sums over requests ----

  ghost function Part(s: Slot, g: nat -> nat): (n: nat) { if s.inUse then g(s.id) else 0 }

  /** Over the requests in flight. */
  ghost function SlotsSum(slots: seq<Slot>, g: nat -> nat): (n: nat) {
    if slots == [] then 0 else Part(slots[0], g) + SlotsSum(slots[1..], g)
  }

  /** Over the requests completed, in the order they completed. */
  ghost function LogSum(log: seq<nat>, g: nat -> nat): (n: nat) {
    if log == [] then 0 else LogSum(log[..|log| - 1], g) + g(log[|log| - 1])
  }

  /** Over the requests 0 to n-1. */
  ghost function SumBelow(g: nat -> nat, n: nat): (s: nat) { if n == 0 then 0 else SumBelow(g, n - 1) + g(n - 1) }

  /** Whatever is counted, completed and in-flight requests together are exactly those sent. */
  ghost predicate Balanced(log: seq<nat>, slots: seq<Slot>, sent: nat) {
    forall g: nat -> nat {:trigger SumBelow(g, sent)} :: LogSum(log, g) + SlotsSum(slots, g) == SumBelow(g, sent)
  }

  lemma {:induction false} SlotsSumUpdate(slots: seq<Slot>, i: nat, s: Slot, g: nat -> nat)
    requires i < |slots|
    ensures SlotsSum(slots[i := s], g) == SlotsSum(slots, g) - Part(slots[i], g) + Part(s, g)
  {
    if i == 0 {
      assert slots[i := s][1..] == slots[1..];
    } else {
      assert slots[i := s][1..] == slots[1..][i - 1 := s];
      SlotsSumUpdate(slots[1..], i - 1, s, g);
    }
  }

  lemma LogSumSnoc(log: seq<nat>, id: nat, g: nat -> nat)
    ensures LogSum(log + [id], g) == LogSum(log, g) + g(id)
  {
    assert (log + [id])[..|log|] == log;
  }

  lemma SendKeepsBalance(log: seq<nat>, slots: seq<Slot>, sent: nat, i: nat, s: Slot)
    requires Balanced(log, slots, sent) && i < |slots| && !slots[i].inUse && s.inUse && s.id == sent
    ensures Balanced(log, slots[i := s], sent + 1)
  {
    forall g: nat -> nat ensures LogSum(log, g) + SlotsSum(slots[i := s], g) == SumBelow(g, sent + 1) {
      SlotsSumUpdate(slots, i, s, g);
    }
  }

  lemma ReapKeepsBalance(log: seq<nat>, slots: seq<Slot>, sent: nat, i: nat)
    requires Balanced(log, slots, sent) && i < |slots| && slots[i].inUse
    ensures Balanced(log + [slots[i].id], slots[i := FREE], sent)
  {
    forall g: nat -> nat
      ensures LogSum(log + [slots[i].id], g) + SlotsSum(slots[i := FREE], g) == SumBelow(g, sent)
    {
      SlotsSumUpdate(slots, i, FREE, g);
      LogSumSnoc(log, slots[i].id, g);
    }
  }

  /** Marking a request done, with its response, moves nothing. */
  lemma DeliverKeepsBalance(log: seq<nat>, slots: seq<Slot>, sent: nat, i: nat, s: Slot)
    requires Balanced(log, slots, sent) && i < |slots| && s.inUse == slots[i].inUse && s.id == slots[i].id
    ensures Balanced(log, slots[i := s], sent)
  {
    forall g: nat -> nat ensures LogSum(log, g) + SlotsSum(slots[i := s], g) == SumBelow(g, sent) {
      SlotsSumUpdate(slots, i, s, g);
    }
  }

  // ---- what the sums say ----

  ghost function One(): (g: nat -> nat) { x => 1 }

  ghost function Is(id: nat): (g: nat -> nat) { x => if x == id then 1 else 0 }

  lemma SendCounts(log: seq<nat>, slots: seq<Slot>, sent: nat, i: nat, s: Slot)
    requires Balanced(log, slots, sent) && i < |slots| && !slots[i].inUse && s.inUse && s.id == sent
    ensures Balanced(log, slots[i := s], sent + 1)
    ensures SlotsSum(slots[i := s], One()) == SlotsSum(slots, One()) + 1
  {
    SendKeepsBalance(log, slots, sent, i, s);
    SlotsSumUpdate(slots, i, s, One());
  }

  lemma {:induction false} LogLength(log: seq<nat>)
    ensures LogSum(log, One()) == |log|
  {
    if log != [] { LogLength(log[..|log| - 1]); }
  }

  lemma {:induction false} BelowLength(n: nat)
    ensures SumBelow(One(), n) == n
  {
    if n > 0 { BelowLength(n - 1); }
  }

  lemma {:induction false} BelowOnce(id: nat, n: nat)
    ensures SumBelow(Is(id), n) == if id < n then 1 else 0
  {
    if n > 0 { BelowOnce(id, n - 1); }
  }

  lemma {:induction false} SlotsBound(slots: seq<Slot>)
    ensures SlotsSum(slots, One()) <= |slots|
    ensures SlotsSum(slots, One()) == |slots| ==> forall i :: 0 <= i < |slots| ==> slots[i].inUse
  {
    if slots != [] {
      SlotsBound(slots[1..]);
      assert forall i :: 1 <= i < |slots| ==> slots[i] == slots[1..][i - 1];
    }
  }

  /** A slot in use counts. */
  lemma {:induction false} SlotCounts(slots: seq<Slot>, i: nat, g: nat -> nat)
    requires i < |slots|
    ensures SlotsSum(slots, g) >= Part(slots[i], g)
  {
    if i > 0 { SlotCounts(slots[1..], i - 1, g); }
  }

  lemma {:induction false} NothingInFlight(slots: seq<Slot>, g: nat -> nat)
    requires forall i :: 0 <= i < |slots| ==> !slots[i].inUse
    ensures SlotsSum(slots, g) == 0
  {
    if slots != [] { NothingInFlight(slots[1..], g); }
  }

  /** The window: in flight is sent less completed, never more than there are slots. */
  lemma WindowHolds(log: seq<nat>, slots: seq<Slot>, sent: nat)
    requires Balanced(log, slots, sent)
    ensures SlotsSum(slots, One()) == sent - |log| <= |slots|
  {
    LogLength(log);
    BelowLength(sent);
    SlotsBound(slots);
    assert LogSum(log, One()) + SlotsSum(slots, One()) == SumBelow(One(), sent);
  }

  ghost function Occurrences(log: seq<nat>, id: nat): (n: nat) { LogSum(log, Is(id)) }

  /** Once as many have completed as were sent, each identifier has completed exactly once. */
  lemma EachExactlyOnce(log: seq<nat>, slots: seq<Slot>, sent: nat, id: nat)
    requires Balanced(log, slots, sent)
    ensures Occurrences(log, id) <= 1 && (Occurrences(log, id) == 1 ==> id < sent)
    ensures |log| == sent && id < sent ==> Occurrences(log, id) == 1
  {
    BelowOnce(id, sent);
    assert LogSum(log, Is(id)) + SlotsSum(slots, Is(id)) == SumBelow(Is(id), sent);
    if |log| == sent {
      WindowHolds(log, slots, sent);
      forall i | 0 <= i < |slots| ensures !slots[i].inUse { SlotCounts(slots, i, One()); }
      NothingInFlight(slots, Is(id));
    }
  }

  // ---- the result ----

  /** What the network will answer to a request of this number and payload, if anything. */
  type Answers = (nat, seq<Byte>) -> Option<seq<Byte>>

  /** The request of this number gets the right response. */
  ghost predicate Good(answers: Answers, size: nat, client: u64, id: nat) {
    && id < TWO64
    && var response := answers(id, RequestBytes(size, Identity(id, client)));
       response.Some? && |response.value| == size && IsResponse(response.value, Identity(id, client))
  }

  /** Every request reaches a server that makes its response as it should. */
  ghost predicate Served(answers: Answers) {
    forall id: nat, request: seq<Byte> :: |request| >= HEADER_SIZE ==> answers(id, request) == Some(Masked(request))
  }

  lemma ServedIsGood(answers: Answers, size: nat, client: u64, id: nat)
    requires Served(answers) && size >= HEADER_SIZE && id < TWO64
    ensures Good(answers, size, client, id)
  {
    FilledRequestIsAnswered(size, Identity(id, client));
  }

  ghost function Weight(answers: Answers, size: nat, client: u64): (g: nat -> nat) {
    x => if Good(answers, size, client, x) then x else 0
  }

  ghost function Bad(answers: Answers, size: nat, client: u64): (g: nat -> nat) {
    x => if Good(answers, size, client, x) then 0 else 1
  }

  /** The sum of 0 to n-1, doubled. */
  lemma {:induction false} GaussSum(answers: Answers, size: nat, client: u64, n: nat)
    requires forall id: nat :: id < n ==> Good(answers, size, client, id)
    ensures 2 * SumBelow(Weight(answers, size, client), n) == n * n - n
    ensures SumBelow(Bad(answers, size, client), n) == 0
  {
    if n > 0 { GaussSum(answers, size, client, n - 1); }
  }

  function ExpectedChecksum(requests: nat): (c: nat) {
    if requests == 0 then 0 else requests * (requests - 1) % TWO64 / 2
  }

  lemma {:induction false} SumsAgree(log: seq<nat>, slots: seq<Slot>, sent: nat, g: nat -> nat)
    requires Balanced(log, slots, sent) && |log| == sent
    ensures LogSum(log, g) == SumBelow(g, sent)
  {
    WindowHolds(log, slots, sent);
    forall i | 0 <= i < |slots| ensures !slots[i].inUse { SlotCounts(slots, i, One()); }
    NothingInFlight(slots, g);
  }

  /** Halving after the wrap loses the odd multiple of 2^64. */
  lemma HalfOfWrapped(s: nat)
    ensures s % TWO64 == 2 * s % TWO64 / 2 <==> 2 * s / TWO64 % 2 == 0
  {
    var q, r := 2 * s / TWO64, 2 * s % TWO64;
    assert 2 * s == q * TWO64 + r;
    var h, odd := q / 2, q % 2;
    assert s == h * TWO64 + (odd * 0x8000_0000_0000_0000 + r / 2);
    WrappedIs(s, h, odd * 0x8000_0000_0000_0000 + r / 2);
  }

  lemma WrappedIs(s: nat, h: nat, r: nat)
    requires s == h * TWO64 + r && r < TWO64
    ensures s % TWO64 == r
  {
  }

  /** The product in the expected checksum wraps an even number of times. */
  predicate HalvingIsExact(n: nat) {
    n == 0 || n * (n - 1) / TWO64 % 2 == 0
  }

  lemma SmallRunsAreExact(n: nat)
    requires n <= 0x1_0000_0000
    ensures HalvingIsExact(n)
  {
    if n > 0 {
      SmallProduct(n);
      NoWrap(n * (n - 1));
    }
  }

  lemma SmallProduct(n: nat)
    requires 0 < n <= 0x1_0000_0000
    ensures 0 <= n * (n - 1) < TWO64
  {
    ProductGrows(0, n, n - 1);
    ProductGrows(n, 0x1_0000_0000, n - 1);
  }

  lemma NoWrap(x: nat)
    requires x < TWO64
    ensures x / TWO64 == 0 && x % TWO64 == x
  {
  }

  /**
    When every response is the right one, a finished run reports no error, and the expected checksum exactly
    if the product it is computed from wraps an even number of times.
  */
  lemma HonestRunAddsUp(answers: Answers, size: nat, client: u64, log: seq<nat>, slots: seq<Slot>, n: nat)
    requires Balanced(log, slots, n) && |log| == n
    requires forall id: nat :: id < n ==> Good(answers, size, client, id)
    ensures LogSum(log, Bad(answers, size, client)) == 0
    ensures LogSum(log, Weight(answers, size, client)) % TWO64 == ExpectedChecksum(n) <==> HalvingIsExact(n)
  {
    var weight, bad := Weight(answers, size, client), Bad(answers, size, client);
    SumsAgree(log, slots, n, weight);
    SumsAgree(log, slots, n, bad);
    GaussSum(answers, size, client, n);
    ChecksumIff(SumBelow(weight, n), n);
  }

  lemma ChecksumIff(s: nat, n: nat)
    requires 2 * s == n * n - n
    ensures s % TWO64 == ExpectedChecksum(n) <==> HalvingIsExact(n)
  {
    if n > 0 {
      assert n * (n - 1) == 2 * s;
      HalfOfWrapped(s);
    }
  }

  lemma SmallExpected(n: nat)
    requires n <= 0x1_0000_0000
    ensures ExpectedChecksum(n) == n * (n - 1) / 2
  {
    if n > 0 {
      SmallProduct(n);
      NoWrap(n * (n - 1));
    }
  }

  /** One request more than 2^32, and the two no longer agree. */
  lemma LargeRunDisagrees()
    ensures !HalvingIsExact(0x1_0000_0001)
  {
  }

  // ---- the loop ----

  /** Every slot is answered in this turn. */
  ghost predicate Covers(events: set<nat>, n: nat) { forall j :: 0 <= j < n ==> j in events }

  ghost predicate Prompt(rounds: seq<set<nat>>, n: nat) { forall k :: 0 <= k < |rounds| ==> Covers(rounds[k], n) }

  class Client {
    const slots: array<Slot>
    const size: nat
    const clientId: u64
    const answers: Answers
    var sent: nat
    var completed: nat
    var inflight: nat
    var errors: nat
    var checksum: nat
    ghost var log: seq<nat>

    /** The counters say what has happened, and every completed request has been judged. */
    ghost predicate Valid()
      reads this, slots
    {
      && Balanced(log, slots[..], sent) && completed == |log| && inflight == SlotsSum(slots[..], One())
      && errors == LogSum(log, Bad(answers, size, clientId))
      && checksum == LogSum(log, Weight(answers, size, clientId)) % TWO64
      && (forall i :: 0 <= i < slots.Length ==> SlotOk(slots[i]))
    }

    /** A request in flight carries its own payload; once done, it has its answer. */
    ghost predicate SlotOk(s: Slot) {
      && (s.inUse ==> s.id < TWO64 && s.request == RequestBytes(size, Identity(s.id, clientId)))
      && (s.done ==> s.response == answers(s.id, s.request))
    }

    constructor (slotCount: nat, size: nat, clientId: u64, answers: Answers)
      ensures Valid() && sent == completed == 0 && slots.Length == slotCount && fresh(slots)
      ensures this.size == size && this.clientId == clientId && this.answers == answers
    {
      this.slots := new Slot[slotCount](_ => FREE);
      this.size, this.clientId, this.answers := size, clientId, answers;
      sent, completed, inflight, errors, checksum, log := 0, 0, 0, 0, 0, [];
      new;
      forall g: nat -> nat ensures SlotsSum(slots[..], g) == 0 { NothingInFlight(slots[..], g); }
    }

    /** The first free slot, or none. */
    method FindFree() returns (i: nat)
      ensures i <= slots.Length && (i < slots.Length ==> !slots[i].inUse)
      ensures forall j :: 0 <= j < i ==> slots[j].inUse
    {
      i := 0;
      while i < slots.Length && slots[i].inUse
        invariant i <= slots.Length && forall j :: 0 <= j < i ==> slots[j].inUse
      {
        i := i + 1;
      }
    }

    ghost function Requested(id: u64): (s: Slot) { Slot(true, false, id, RequestBytes(size, Identity(id, clientId)), None) }

    /** The bytes of one request. */
    method Filled(id: u64) returns (request: seq<Byte>)
      ensures request == RequestBytes(size, Identity(id, clientId))
    {
      var payload := new Byte[size];
      FillRequest(payload, Identity(id, clientId));
      request := payload[..];
    }

    /** A request in flight takes a free slot. */
    method Occupy(i: nat, s: Slot)
      requires Valid() && i < slots.Length && !slots[i].inUse && SlotOk(s) && s.inUse && s.id == sent
      modifies this`sent, this`inflight, slots
      ensures Valid() && sent == old(sent) + 1 && slots[..] == old(slots[..])[i := s]
    {
      ghost var before := slots[..];
      slots[i] := s;
      assert slots[..] == before[i := s];
      SendCounts(log, before, sent, i, s);
      sent, inflight := sent + 1, inflight + 1;
    }

    /** Fills the next request and puts it into a free slot. */
    method Send(i: nat)
      requires Valid() && i < slots.Length && !slots[i].inUse && sent < TWO64
      modifies this, slots
      ensures Valid() && sent == old(sent) + 1 && log == old(log)
      ensures slots[..] == old(slots[..])[i := Requested(old(sent))]
    {
      var request := Filled(sent);
      Occupy(i, Slot(true, false, sent, request, None));
    }

    /** Fills the window. */
    method SendAll(total: nat)
      requires Valid() && sent <= total <= TWO64
      modifies this, slots
      ensures Valid() && log == old(log) && old(sent) <= sent <= total
      ensures sent == total || inflight == slots.Length
    {
      while sent < total && inflight < slots.Length
        invariant Valid() && sent <= total && log == old(log) && old(sent) <= sent
        decreases total - sent
      {
        var i := FindFree();
        if i == slots.Length {
          FullWindow(slots[..]);
          return;
        }
        Send(i);
      }
      SlotsBound(slots[..]);
    }

    /** The continuation marks a request done and leaves its response in the slot. */
    function Delivered(s: Slot, event: bool): (r: Slot) {
      if event && s.inUse then s.(done := true, response := answers(s.id, s.request)) else s
    }

    /** One turn of the event loop: the requests in these slots are answered. */
    method EventLoop(events: set<nat>)
      requires Valid()
      modifies slots
      ensures Valid()
      ensures forall j :: 0 <= j < slots.Length ==> slots[j] == Delivered(old(slots[j]), j in events)
    {
      for i := 0 to slots.Length
        invariant Valid()
        invariant forall j :: 0 <= j < slots.Length ==> slots[j] == Delivered(old(slots[j]), j < i && j in events)
      {
        if i in events && slots[i].inUse {
          ghost var before := slots[..];
          slots[i] := slots[i].(done := true, response := answers(slots[i].id, slots[i].request));
          assert slots[..] == before[i := slots[i]];
          DeliverKeepsBalance(log, before, sent, i, slots[i]);
          SlotsSumUpdate(before, i, slots[i], One());
        }
      }
    }

    /** Whether an answered request got the right response. */
    method Judge(s: Slot) returns (good: bool)
      requires SlotOk(s) && s.inUse && s.done
      ensures good <==> Good(answers, size, clientId, s.id)
    {
      if s.response.None? || |s.response.value| != size { return false; }
      good := ValidateResponse(s.response.value, Identity(s.id, clientId));
    }

    /** Takes a verdict into the result. */
    method Record(id: nat, good: bool)
      requires id < TWO64 && (good <==> Good(answers, size, clientId, id))
      requires errors == LogSum(log, Bad(answers, size, clientId))
      requires checksum == LogSum(log, Weight(answers, size, clientId)) % TWO64
      modifies `errors, `checksum, `log
      ensures log == old(log) + [id]
      ensures errors == LogSum(log, Bad(answers, size, clientId))
      ensures checksum == LogSum(log, Weight(answers, size, clientId)) % TWO64
    {
      LogSumSnoc(log, id, Bad(answers, size, clientId));
      LogSumSnoc(log, id, Weight(answers, size, clientId));
      AddWraps(LogSum(log, Weight(answers, size, clientId)), id);
      if good {
        checksum := (checksum + id) % TWO64;
      } else {
        errors := errors + 1;
      }
      log := log + [id];
    }

    /** Judges one answer, takes it into the result and frees its slot. */
    method Reap(i: nat)
      requires Valid() && i < slots.Length && slots[i].inUse && slots[i].done && slots[i].id < TWO64
      modifies this, slots
      ensures Valid() && sent == old(sent) && completed == old(completed) + 1
      ensures log == old(log) + [old(slots[i].id)] && slots[..] == old(slots[..])[i := FREE]
    {
      var s := slots[i];
      var good := Judge(s);
      ghost var before := slots[..];
      ReapKeepsBalance(log, before, sent, i);
      SlotsSumUpdate(before, i, FREE, One());
      SlotCounts(before, i, One());
      Record(s.id, good);
      slots[i] := FREE;
      assert slots[..] == before[i := FREE];
      completed, inflight := completed + 1, inflight - 1;
    }

    /** Reclaims every answered slot. */
    method ReapAll()
      requires Valid() && sent <= TWO64
      modifies this, slots
      ensures Valid() && sent == old(sent) && completed >= old(completed)
      ensures forall j :: 0 <= j < slots.Length ==>
        slots[j] == if old(slots[j].inUse && slots[j].done) then FREE else old(slots[j])
    {
      for i := 0 to slots.Length
        invariant Valid() && sent == old(sent) && completed >= old(completed)
        invariant forall j :: 0 <= j < slots.Length ==>
          slots[j] == if j < i && old(slots[j].inUse && slots[j].done) then FREE else old(slots[j])
      {
        if slots[i].inUse && slots[i].done {
          InFlightWasSent(log, slots[..], sent, i);
          Reap(i);
        }
      }
    }

    /** One turn of the outer loop; a turn that answers every slot completes everything sent. */
    method Turn(total: nat, events: set<nat>)
      requires Valid() && completed < total && sent <= total <= TWO64
      modifies this, slots
      ensures Valid() && completed <= sent <= total && completed >= old(completed)
      ensures Covers(events, slots.Length) && slots.Length > 0 ==> completed > old(completed)
    {
      WindowHolds(log, slots[..], sent);
      SendAll(total);
      WindowHolds(log, slots[..], sent);
      EventLoop(events);
      ReapAll();
      WindowHolds(log, slots[..], sent);
      if Covers(events, slots.Length) {
        forall j | 0 <= j < slots.Length ensures !slots[j].inUse { assert j in events; }
        NothingInFlight(slots[..], One());
      }
    }

    /** End to end: filled, answered, judged and counted, a finished run adds up. */
    lemma ServedRunAddsUp(total: nat)
      requires Valid() && completed == sent == total <= TWO64 && Served(answers) && size >= HEADER_SIZE
      ensures errors == 0 && (total <= 0x1_0000_0000 ==> checksum == total * (total - 1) / 2)
    {
      forall id: nat | id < total ensures Good(answers, size, clientId, id) { ServedIsGood(answers, size, clientId, id); }
      HonestRunAddsUp(answers, size, clientId, log, slots[..], total);
      if total <= 0x1_0000_0000 {
        SmallRunsAreExact(total);
        SmallExpected(total);
      }
    }

    /**
      Runs until everything has completed or the given turns of the event loop are used up.  At every end
      the window holds and each identifier has completed at most once; a finished run has completed each
      exactly once and judged each by its response.  If every turn answers every slot, it finishes.
    */
    method Run(total: nat, rounds: seq<set<nat>>)
      requires Valid() && sent == completed == 0 && total <= TWO64
      modifies this, slots
      ensures Valid() && inflight == sent - completed <= slots.Length && completed <= sent <= total
      ensures forall id: nat :: Occurrences(log, id) <= 1
      ensures completed == total ==> forall id: nat :: id < total ==> Occurrences(log, id) == 1
      ensures Prompt(rounds, slots.Length) && slots.Length > 0 && |rounds| >= total ==> completed == total
      ensures completed == total && (forall id: nat :: id < total ==> Good(answers, size, clientId, id)) ==>
                errors == 0 && (checksum == ExpectedChecksum(total) <==> HalvingIsExact(total))
      ensures completed == total && Served(answers) && size >= HEADER_SIZE ==>
                errors == 0 && (total <= 0x1_0000_0000 ==> checksum == total * (total - 1) / 2)
    {
      var round := 0;
      WindowHolds(log, slots[..], sent);
      while completed < total && round < |rounds|
        invariant Valid() && completed <= sent <= total && round <= |rounds|
        invariant Prompt(rounds, slots.Length) && slots.Length > 0 ==> completed >= round || completed == total
        decreases |rounds| - round
      {
        Turn(total, rounds[round]);
        round := round + 1;
      }
      WindowHolds(log, slots[..], sent);
      forall id: nat ensures Occurrences(log, id) <= 1 && (completed == total && id < total ==> Occurrences(log, id) == 1) {
        EachExactlyOnce(log, slots[..], sent, id);
      }
      if completed == total && forall id: nat :: id < total ==> Good(answers, size, clientId, id) {
        HonestRunAddsUp(answers, size, clientId, log, slots[..], total);
      }
      if completed == total && Served(answers) && size >= HEADER_SIZE { ServedRunAddsUp(total); }
    }
  }

  lemma AddWraps(a: nat, b: nat)
    ensures (a % TWO64 + b) % TWO64 == (a + b) % TWO64
  {
  }

  /** A request in flight has been sent. */
  lemma InFlightWasSent(log: seq<nat>, slots: seq<Slot>, sent: nat, i: nat)
    requires Balanced(log, slots, sent) && i < |slots| && slots[i].inUse
    ensures slots[i].id < sent
  {
    var g := Is(slots[i].id);
    SlotCounts(slots, i, g);
    BelowOnce(slots[i].id, sent);
    assert LogSum(log, g) + SlotsSum(slots, g) == SumBelow(g, sent);
  }

  /** A window with no free slot is full. */
  lemma {:induction false} FullWindow(slots: seq<Slot>)
    requires forall i :: 0 <= i < |slots| ==> slots[i].inUse
    ensures SlotsSum(slots, One()) == |slots|
  {
    if slots != [] { FullWindow(slots[1..]); }
  }
}
