/** What clients and the owner can rely on, in every state of every interleaved run. */
module PoolTheorems {
  import opened PoolLayout
  import opened PageTables
  import opened PoolRegion
  import opened PoolProtocol
  import opened PoolSafety
  import opened PoolRuns

  ghost predicate Live(st: State, n: Word) {
    n in st.sessions && (st.sessions[n].phase.Opened? || st.sessions[n].phase.Committed?)
  }

  /** Session `n` has got its answer, and while its request stands so does the answer. */
  ghost predicate Settled(st: State, n: Word)
    requires Shape(st) && n in st.sessions
  {
    var phase, rec := st.sessions[n].phase, Rec(st.mem, st.sessions[n].slot);
    && (phase.Opened? || phase.Committed? || phase.Failed? || phase.Closed?)
    && (rec.request == n ==> rec.complete == n && rec.error == 0)
  }

  /** What names a session's slot and what it asked for. */
  ghost predicate SameSession(st: State, st': State, n: Word) {
    && n in st.sessions && n in st'.sessions && st'.cfg == st.cfg
    && st'.sessions[n] == st.sessions[n].(phase := st'.sessions[n].phase)
  }

  lemma OwnerKeepsSettled(st: State, n: Word)
    requires Inv(st) && Shape(OwnerStep(st)) && n in st.sessions && Settled(st, n)
    ensures SameSession(st, OwnerStep(st), n) && Settled(OwnerStep(st), n)
  {
    var s, st' := st.sessions[n].slot, OwnerStep(st);
    if Rec(st'.mem, s) != Rec(st.mem, s) {
      OwnerWritesItsSlot(st, SlotPage(s));
      LayoutIsDisjoint(st.pc.s, s, SlotPage(s));
    }
  }

  lemma OwnStepKeepsSettled(st: State, e: Step, n: Word)
    requires Inv(st) && Enabled(st, e) && Shape(Exec(st, e)) && !e.OwnerTurn? && e.n == n && n in st.sessions && Settled(st, n)
    ensures SameSession(st, Exec(st, e), n) && Settled(Exec(st, e), n)
  {
  }

  /** No step of another client stores into `complete` or `error`, or makes the slot's request this session's. */
  lemma OthersKeepAnswer(st: State, e: Step, n: Word, s: nat)
    requires Inv(st) && Enabled(st, e) && Shape(Exec(st, e)) && !e.OwnerTurn? && e.n != n && s < CLIENTS
    ensures var rec, rec' := Rec(st.mem, s), Rec(Exec(st, e).mem, s);
      rec'.complete == rec.complete && rec'.error == rec.error && (rec'.request == n ==> rec.request == n)
  {
  }

  lemma OthersKeepSession(st: State, e: Step, n: Word)
    requires Shape(st) && OwnerReady(st) && Enabled(st, e) && !e.OwnerTurn? && e.n != n && n in st.sessions
    ensures SameSession(st, Exec(st, e), n) && Exec(st, e).sessions[n] == st.sessions[n]
  {
  }

  lemma OthersKeepSettled(st: State, e: Step, n: Word)
    requires Inv(st) && Enabled(st, e) && Shape(Exec(st, e)) && !e.OwnerTurn? && e.n != n && n in st.sessions && Settled(st, n)
    ensures SameSession(st, Exec(st, e), n) && Settled(Exec(st, e), n)
  {
    OthersKeepSession(st, e, n);
    OthersKeepAnswer(st, e, n, st.sessions[n].slot);
  }

  lemma ClientKeepsSettled(st: State, e: Step, n: Word)
    requires Inv(st) && Enabled(st, e) && Shape(Exec(st, e)) && !e.OwnerTurn? && n in st.sessions && Settled(st, n)
    ensures SameSession(st, Exec(st, e), n) && Settled(Exec(st, e), n)
  {
    if e.n == n { OwnStepKeepsSettled(st, e, n); } else { OthersKeepSettled(st, e, n); }
  }

  lemma SettledInRun(r: Run, k: nat, n: Word)
    requires IsRun(r) && k < |r.steps| && n in r.states[k].sessions && Shape(r.states[k]) && Settled(r.states[k], n)
    ensures SameSession(r.states[k], r.states[k + 1], n) && Shape(r.states[k + 1]) && Settled(r.states[k + 1], n)
  {
    RunKeepsInv(r, k);
    RunKeepsInv(r, k + 1);
    assert StepOk(r.states[k], r.steps[k], r.states[k + 1]);
    if r.steps[k].OwnerTurn? { OwnerKeepsSettled(r.states[k], n); } else { ClientKeepsSettled(r.states[k], r.steps[k], n); }
  }

  ghost predicate SettledStep(st: State, st': State, n: Word) {
    n in st.sessions && Shape(st) && Settled(st, n) ==> SameSession(st, st', n) && Shape(st') && Settled(st', n)
  }

  lemma {:induction false} StaysSettled(states: seq<State>, i: nat, j: nat, n: Word)
    requires i <= j < |states| && n in states[i].sessions && Shape(states[i]) && Settled(states[i], n)
    requires forall k :: i <= k < j ==> SettledStep(states[k], states[k + 1], n)
    ensures SameSession(states[i], states[j], n) && Shape(states[j]) && Settled(states[j], n)
    decreases j - i
  {
    if i < j {
      StaysSettled(states, i, j - 1, n);
      assert SettledStep(states[j - 1], states[j], n);
    }
  }

  /** The slot still carries the request of session `n`. */
  ghost predicate Stands(st: State, n: Word, s: nat) { s < CLIENTS && st.mem[SlotPage(s)].Slot? && Rec(st.mem, s).request == n }

  /**
    Publication safety.  Once a client has found its nonce and no error, its contract was one the owner accepts and
    every table of its slot is the one built from it, for as long as the slot carries its request: until the next
    client of the slot posts its own, also after this one has closed.
  */
  lemma PublicationIsSafe(r: Run, i: nat, j: nat, n: Word)
    requires IsRun(r) && i <= j < |r.states| && Live(r.states[i], n)
    requires Stands(r.states[j], n, r.states[i].sessions[n].slot)
    ensures var sess := r.states[i].sessions[n];
      sess.slot < CLIENTS && Built(r.states[j].cfg, r.states[j].mem, sess.slot, n, sess.contract, sess.extra)
  {
    RunKeepsInv(r, i);
    assert SessionInv(r.states[i], n);
    forall k | i <= k < j ensures SettledStep(r.states[k], r.states[k + 1], n) {
      if n in r.states[k].sessions && Shape(r.states[k]) && Settled(r.states[k], n) { SettledInRun(r, k, n); }
    }
    StaysSettled(r.states, i, j, n);
    RunKeepsInv(r, j);
    assert SessionInv(r.states[j], n);
    assert SlotInv(r.states[j], r.states[i].sessions[n].slot);
  }

  /** And until it closes the slot does carry its request. */
  lemma LiveRequestStands(r: Run, i: nat, n: Word)
    requires IsRun(r) && i < |r.states| && Live(r.states[i], n)
    ensures Stands(r.states[i], n, r.states[i].sessions[n].slot)
  {
    RunKeepsInv(r, i);
    assert SessionInv(r.states[i], n);
  }

  /** Physical memory holds the table pages of slot `s` where contract `w` says they are. */
  ghost predicate Backs(phys: map<nat, Table>, m: Region, s: nat, w: Contract, d: nat)
    requires s < CLIENTS && d < DOMAINS
  {
    forall l :: 0 <= l < LEVELS ==> TablePa(w, d, l) in phys && m[TablePage(s, d, l)] == Data(phys[TablePa(w, d, l)])
  }

  /** What the MMU of A resolves through those tables is what the contract intends, page by page. */
  lemma ConnectionSeesItsContract(r: Run, i: nat, j: nat, n: Word, phys: map<nat, Table>, d: nat, v: nat)
    requires IsRun(r) && i <= j < |r.states| && Live(r.states[i], n) && d < DOMAINS && v < 0x10_0000_0000
    requires var sess := r.states[i].sessions[n];
      Stands(r.states[j], n, sess.slot) && Backs(phys, r.states[j].mem, sess.slot, sess.contract, d)
    ensures var w := r.states[i].sessions[n].contract;
      Walk(phys, TablePa(w, d, 0), 0, v) == Intended(w, d, v)
  {
    PublicationIsSafe(r, i, j, n);
    var st, sess := r.states[j], r.states[i].sessions[n];
    forall l | 0 <= l < LEVELS ensures phys[TablePa(sess.contract, d, l)] == BuildTable(sess.contract, d, l) {
      assert st.mem[TablePage(sess.slot, d, l)] == Data(BuildTable(sess.contract, d, l));
    }
    WalkIsIntended(phys, sess.contract, d, v);
  }

  /** Physical memory holds the tables of extra domain `e` where the extra contract says they are. */
  ghost predicate ExtraBacks(phys: map<nat, Table>, m: Region, s: nat, x: Extra, e: nat)
    requires s < CLIENTS && e < EXTRA_DOMAINS
  {
    forall l :: 0 <= l < LEVELS ==>
      ExtraTable(x, e, l) in phys && m[ExtraTablePage(s, e, l)] == Data(phys[ExtraTable(x, e, l)])
  }

  /**
    The same for the extra domains of a pool that has them: the walk from the extra domain's root reaches its own
    code, run and not written, its own stack, written and not run, the heap, read, the arguments of the middle or
    leaf domain, written, and faults everywhere else.
  */
  lemma ExtraDomainSeesItsContract(r: Run, i: nat, j: nat, n: Word, phys: map<nat, Table>, e: nat, v: nat)
    requires IsRun(r) && i <= j < |r.states| && Live(r.states[i], n) && e < EXTRA_DOMAINS && v < 0x10_0000_0000
    requires UsesExtra(r.states[j].cfg)
    requires var sess := r.states[i].sessions[n];
      Stands(r.states[j], n, sess.slot) && ExtraBacks(phys, r.states[j].mem, sess.slot, sess.extra, e)
    ensures var sess := r.states[i].sessions[n];
      Walk(phys, ExtraTable(sess.extra, e, 0), 0, v) == ExtraIntended(sess.contract, sess.extra, e, v)
  {
    PublicationIsSafe(r, i, j, n);
    ExtraTablesTranslate(r.states[j].cfg, r.states[j].mem, r.states[i].sessions[n], n, phys, e, v);
  }

  lemma ExtraTablesTranslate(cfg: Config, m: Region, sess: Session, n: Word, phys: map<nat, Table>, e: nat, v: nat)
    requires sess.slot < CLIENTS && e < EXTRA_DOMAINS && v < 0x10_0000_0000 && UsesExtra(cfg)
    requires Built(cfg, m, sess.slot, n, sess.contract, sess.extra) && ExtraBacks(phys, m, sess.slot, sess.extra, e)
    ensures Walk(phys, ExtraTable(sess.extra, e, 0), 0, v) == ExtraIntended(sess.contract, sess.extra, e, v)
  {
    var w, x := sess.contract, sess.extra;
    assert ExtraAccepted(w, x, e);
    forall l | 0 <= l < LEVELS ensures phys[ExtraTable(x, e, l)] == BuildTable(Adapted(w, x, e), ExtraEntry(e), l) {
      assert m[ExtraTablePage(sess.slot, e, l)] == Data(BuildTable(Adapted(w, x, e), ExtraEntry(e), l));
    }
    ExtraWalkIsIntended(phys, w, x, e, v);
  }

  /**
    What a live connection has been accepted for: contract and extra contract carry its own nonce, it can write a
    page of B exactly if the pool grants writing, and a social pool's manifest and heap agree on the instances.
  */
  lemma LiveConnectionIsAccepted(r: Run, i: nat, n: Word, phys: map<nat, Table>)
    requires IsRun(r) && i < |r.states| && Live(r.states[i], n) && r.states[i].sessions[n].slot < CLIENTS
    requires Backs(phys, r.states[i].mem, r.states[i].sessions[n].slot, r.states[i].sessions[n].contract, MIDDLE)
    ensures var st, sess := r.states[i], r.states[i].sessions[n];
      && Nonce(sess.contract) == n && (UsesExtra(st.cfg) ==> ExtraNonce(sess.extra) == n)
      && (st.cfg.profile == PROFILE_SOCIAL_WRITE || st.cfg.profile == PROFILE_SOCIAL_SHARED <==>
            Walk(phys, TablePa(sess.contract, MIDDLE, 0), 0, FIRST_PAGE + 8).Page?)
      && (st.cfg.profile == PROFILE_SOCIAL ==>
            var m := st.cfg.manifest;
            && m.magic == REMOTE_MAGIC && m.abi == REMOTE_ABI && m.mode == CODE_REMOTE_SOCIAL
            && m.tag in {1, 2, 0x301, 0x302} && st.cfg.heapCount == if m.tag >= 0x301 then 3 else 1)
  {
    var st, sess := r.states[i], r.states[i].sessions[n];
    LiveRequestStands(r, i, n);
    PublicationIsSafe(r, i, i, n);
    ConnectionSeesItsContract(r, i, i, n, phys, MIDDLE, FIRST_PAGE + 8);
    AcceptedMeans(st.cfg, n, sess.contract, 0, sess.extra);
  }

  lemma AcceptedMeans(cfg: Config, n: Word, w: Contract, reserved: nat, x: Extra)
    requires Accepted(cfg, n, w, reserved, x)
    ensures reserved == 0 && Nonce(w) == n && (UsesExtra(cfg) ==> ExtraNonce(x) == n) && (WritePa(w) != 0 <==> GrantsWrite(cfg))
    ensures cfg.profile == PROFILE_SOCIAL ==>
      var m := cfg.manifest;
      && m.magic == REMOTE_MAGIC && m.abi == REMOTE_ABI && m.mode == CODE_REMOTE_SOCIAL
      && m.tag in {1, 2, 0x301, 0x302} && cfg.heapCount == if m.tag >= 0x301 then 3 else 1
  {
    SocialCounts(cfg.manifest.tag);
    if UsesExtra(cfg) { assert ExtraAccepted(w, x, 0); }
  }

  /**
    No torn snapshot.  While the owner copies a contract, no client is writing that slot, and what it
    has copied so far is a prefix of the contract of the very session that posted the request.
  */
  lemma SnapshotIsNeverTorn(r: Run, i: nat, n: Word)
    requires IsRun(r) && i < |r.states|
    requires var pc := r.states[i].pc; pc.Copy? || pc.CopyExtra?
    ensures var st := r.states[i];
      && (n in st.sessions && st.sessions[n].slot == st.pc.s ==> !Writer(st.sessions[n].phase))
      && st.pc.r in st.sessions && st.sessions[st.pc.r].slot == st.pc.s
      && (st.pc.Copy? ==> st.pc.got <= st.sessions[st.pc.r].contract)
      && (st.pc.CopyExtra? ==>
            st.pc.w == st.sessions[st.pc.r].contract && st.pc.got <= st.sessions[st.pc.r].extra)
  {
    var st := r.states[i];
    RunKeepsInv(r, i);
    assert SlotInv(st, st.pc.s);
    assert st.pc.r in st.sessions;
    assert n in st.sessions ==> SessionInv(st, n);
  }

  lemma QuarantineStep(r: Run, k: nat, s: nat)
    requires IsRun(r) && k < |r.steps|
    ensures QuarantineKept(r.states[k], r.states[k + 1], s)
  {
    assert StepOk(r.states[k], r.steps[k], r.states[k + 1]);
  }

  lemma NobodyOnQuarantinedSlot(st: State, s: nat)
    requires Inv(st) && s in st.quarantined
    ensures s in st.used && forall n :: n in st.sessions && st.sessions[n].slot == s ==> !Active(st.sessions[n])
  {
    forall n | n in st.sessions && st.sessions[n].slot == s ensures !Active(st.sessions[n]) {
      assert SessionInv(st, n);
    }
  }

  ghost predicate QuarantineKept(st: State, st': State, s: nat) { s in st.quarantined ==> s in st'.quarantined }

  lemma {:induction false} StillQuarantined(states: seq<State>, i: nat, j: nat, s: nat)
    requires i <= j < |states| && s in states[i].quarantined
    requires forall k :: i <= k < j ==> QuarantineKept(states[k], states[k + 1], s)
    ensures s in states[j].quarantined
    decreases j - i
  {
    if i < j {
      StillQuarantined(states, i, j - 1, s);
      assert QuarantineKept(states[j - 1], states[j], s);
    }
  }

  /** A quarantined slot is never handed out again: it stays in use, with no live session on it, for ever. */
  lemma QuarantineIsForEver(r: Run, i: nat, j: nat, s: nat)
    requires IsRun(r) && i <= j < |r.states| && s in r.states[i].quarantined
    ensures s in r.states[j].quarantined && s in r.states[j].used
    ensures forall n :: n in r.states[j].sessions && r.states[j].sessions[n].slot == s ==>
              !Active(r.states[j].sessions[n])
  {
    forall k | i <= k < j ensures QuarantineKept(r.states[k], r.states[k + 1], s) { QuarantineStep(r, k, s); }
    StillQuarantined(r.states, i, j, s);
    RunKeepsInv(r, j);
    NobodyOnQuarantinedSlot(r.states[j], s);
  }

  // ---- isolation between connections ----

  /** The slot a step works on: the session's, or the one the owner is at. */
  ghost predicate WorksOn(st: State, e: Step, s: nat) {
    match e
    case Prepare(n, u, w, x) => s == u
    case OwnerTurn => !st.pc.Asleep? && st.pc.s == s
    case _ => e.n in st.sessions && st.sessions[e.n].slot == s
  }

  /** Pages no connection ever changes: header, heap, images, contexts. */
  ghost predicate Fixed(p: nat) {
    p != SHARED_PAGE && forall c :: 0 <= c < CLIENTS ==> !OwnedBy(c, p)
  }

  lemma OwnerWritesItsSlot(st: State, p: nat)
    requires Inv(st) && p < PAGES && OwnerStep(st).mem[p] != st.mem[p]
    ensures !st.pc.Asleep? && st.pc.s < CLIENTS && OwnedBy(st.pc.s, p)
    ensures Rec(st.mem, st.pc.s).request != Rec(st.mem, st.pc.s).complete
  {
  }

  /** A client's step changes only pages of its own slot, and the shared page by a service's write. */
  lemma ClientWritesItsSlot(st: State, e: Step, p: nat)
    requires Inv(st) && Enabled(st, e) && !e.OwnerTurn? && p < PAGES && Exec(st, e).mem[p] != st.mem[p]
    ensures !e.Prepare? && e.n in st.sessions
    ensures OwnedBy(st.sessions[e.n].slot, p) || (p == SHARED_PAGE && e.ServiceWrite?)
  {
  }

  /** A step changes only pages of the slot it works on, and the shared page only by a service's write. */
  lemma StepStaysInItsSlot(st: State, e: Step, p: nat, s: nat)
    requires Inv(st) && Enabled(st, e) && p < PAGES && Exec(st, e).mem[p] != st.mem[p] && s < CLIENTS
    ensures !Fixed(p)
    ensures OwnedBy(s, p) ==> WorksOn(st, e, s)
    ensures p == SHARED_PAGE ==> e.ServiceWrite?
  {
    if e.OwnerTurn? {
      OwnerWritesItsSlot(st, p);
      LayoutIsDisjoint(st.pc.s, s, p);
    } else {
      ClientWritesItsSlot(st, e, p);
      if OwnedBy(st.sessions[e.n].slot, p) { LayoutIsDisjoint(st.sessions[e.n].slot, s, p); }
    }
  }

  /** Header, heap, images and contexts keep the bytes the owner put there before announcing the pool. */
  lemma {:induction false} FixedPagesNeverChange(r: Run, i: nat, p: nat)
    requires IsRun(r) && i < |r.states| && p < PAGES && Fixed(p)
    ensures r.states[i].mem[p] == r.states[0].mem[p]
  {
    if i > 0 {
      FixedPagesNeverChange(r, i - 1, p);
      RunKeepsInv(r, i - 1);
      assert StepOk(r.states[i - 1], r.steps[i - 1], r.states[i]);
      if r.states[i].mem[p] != r.states[i - 1].mem[p] {
        StepStaysInItsSlot(r.states[i - 1], r.steps[i - 1], p, 0);
      }
    }
  }

  /** A check that looks at those pages only. */
  ghost predicate ReadsFixed(check: Region -> bool) {
    forall m: Region, m': Region :: (forall p :: 0 <= p < PAGES && Fixed(p) ==> m'[p] == m[p]) ==> check(m') == check(m)
  }

  /**
    The verdict of a commit.  What the kernel compares in the slot always agrees, and what it checks besides, about
    header, manifest, images, contexts and heap, comes out as it would have when the owner announced the pool.
  */
  lemma CommitVerdict(r: Run, i: nat, n: Word, check: Region -> bool)
    requires IsRun(r) && i < |r.states| && InPhase(r.states[i], n, Opened) && ReadsFixed(check)
    ensures Shape(r.states[i]) && CommitChecks(r.states[i], n) && (check(r.states[i].mem) <==> check(r.states[0].mem))
  {
    RunKeepsInv(r, i);
    CommitSucceeds(r.states[i], n);
    forall p | 0 <= p < PAGES && Fixed(p) ensures r.states[i].mem[p] == r.states[0].mem[p] {
      FixedPagesNeverChange(r, i, p);
    }
  }

  /** The owner does not touch a slot whose client is committed, and neither does anybody else. */
  lemma CommittedSlotIsQuiet(st: State, e: Step, n: Word, p: nat)
    requires Inv(st) && Enabled(st, e) && InPhase(st, n, Committed) && p < PAGES && OwnedBy(st.sessions[n].slot, p)
    requires !(e.ServiceWrite? && e.n == n)
    ensures Exec(st, e).mem[p] == st.mem[p]
  {
    var s := st.sessions[n].slot;
    assert SessionInv(st, n);
    if Exec(st, e).mem[p] != st.mem[p] {
      StepStaysInItsSlot(st, e, p, s);
      if e.OwnerTurn? {
        OwnerWritesItsSlot(st, p);
        assert false;
      } else {
        assert e.n != n;
        OthersAreClosed(st, n);
        assert false;
      }
    }
  }

  /** Page `p`, if it belongs to the slot of session `n`, is as it was, and still belongs to it. */
  ghost predicate Kept(st: State, st': State, n: Word, p: nat)
    requires p < PAGES
  {
    && n in st.sessions && n in st'.sessions
    && (OwnedBy(st.sessions[n].slot, p) ==> st'.sessions[n].slot == st.sessions[n].slot && st'.mem[p] == st.mem[p])
  }

  lemma CommittedSlotInRun(r: Run, k: nat, n: Word, p: nat)
    requires IsRun(r) && k < |r.steps| && InPhase(r.states[k], n, Committed) && InPhase(r.states[k + 1], n, Committed)
    requires p < PAGES && !(r.steps[k].ServiceWrite? && r.steps[k].n == n)
    ensures Kept(r.states[k], r.states[k + 1], n, p)
  {
    RunKeepsInv(r, k);
    assert StepOk(r.states[k], r.steps[k], r.states[k + 1]);
    if OwnedBy(r.states[k].sessions[n].slot, p) { CommittedSlotIsQuiet(r.states[k], r.steps[k], n, p); }
  }

  lemma {:induction false} KeptThroughout(states: seq<State>, i: nat, j: nat, n: Word, p: nat)
    requires i <= j < |states| && p < PAGES && n in states[i].sessions && OwnedBy(states[i].sessions[n].slot, p)
    requires forall k :: i <= k < j ==> Kept(states[k], states[k + 1], n, p)
    ensures n in states[j].sessions && states[j].sessions[n].slot == states[i].sessions[n].slot
    ensures states[j].mem[p] == states[i].mem[p]
    decreases j - i
  {
    if i < j {
      KeptThroughout(states, i, j - 1, n, p);
      assert Kept(states[j - 1], states[j], n, p);
    }
  }

  /** `n` is committed throughout, and does not itself write between `i` and `j`. */
  ghost predicate Undisturbed(r: Run, i: nat, j: nat, n: Word)
    requires IsRun(r) && i <= j < |r.states|
  {
    && (forall k :: i <= k <= j ==> InPhase(r.states[k], n, Committed))
    && (forall k :: i <= k < j ==> !(r.steps[k].ServiceWrite? && r.steps[k].n == n))
  }

  /**
    Connections are isolated: whatever other clients join, fail, leave or write meanwhile, every page
    of a committed connection's slot, its write page included, keeps its content until it writes itself.
  */
  lemma ConnectionsAreIsolated(r: Run, i: nat, j: nat, n: Word, p: nat)
    requires IsRun(r) && i <= j < |r.states| && Undisturbed(r, i, j, n)
    requires p < PAGES && OwnedBy(r.states[i].sessions[n].slot, p)
    ensures r.states[j].sessions[n].slot == r.states[i].sessions[n].slot
    ensures r.states[j].mem[p] == r.states[i].mem[p]
  {
    forall k | i <= k < j ensures Kept(r.states[k], r.states[k + 1], n, p) {
      CommittedSlotInRun(r, k, n, p);
    }
    KeptThroughout(r.states, i, j, n, p);
  }

  lemma SharedPageStep(st: State, e: Step)
    requires Inv(st) && Enabled(st, e) && !e.ServiceWrite?
    ensures Exec(st, e).mem[SHARED_PAGE] == st.mem[SHARED_PAGE]
  {
  }

  lemma SharedPageInRun(r: Run, k: nat)
    requires IsRun(r) && k < |r.steps| && !r.steps[k].ServiceWrite?
    ensures r.states[k + 1].mem[SHARED_PAGE] == r.states[k].mem[SHARED_PAGE]
  {
    RunKeepsInv(r, k);
    assert StepOk(r.states[k], r.steps[k], r.states[k + 1]);
    SharedPageStep(r.states[k], r.steps[k]);
  }

  ghost predicate SharedKept(st: State, st': State) { st'.mem[SHARED_PAGE] == st.mem[SHARED_PAGE] }

  lemma {:induction false} SharedStays(states: seq<State>, i: nat, j: nat)
    requires i <= j < |states| && forall k :: i <= k < j ==> SharedKept(states[k], states[k + 1])
    ensures SharedKept(states[i], states[j])
    decreases j - i
  {
    if i < j {
      SharedStays(states, i, j - 1);
      assert SharedKept(states[j - 1], states[j]);
    }
  }

  /** What services put on the shared page survives every later join. */
  lemma SharedPageSurvivesJoins(r: Run, i: nat, j: nat)
    requires IsRun(r) && i <= j < |r.states| && forall k :: i <= k < j ==> !r.steps[k].ServiceWrite?
    ensures r.states[j].mem[SHARED_PAGE] == r.states[i].mem[SHARED_PAGE]
  {
    forall k | i <= k < j ensures SharedKept(r.states[k], r.states[k + 1]) { SharedPageInRun(r, k); }
    SharedStays(r.states, i, j);
  }

  // ---- the initialization count ----

  /** This step completes a request of slot `s` without error. */
  ghost predicate CompletesWell(st: State, st': State, s: nat)
    requires Shape(st) && Shape(st') && s < CLIENTS
  {
    Rec(st'.mem, s).complete != Rec(st.mem, s).complete && Rec(st'.mem, s).error == 0
  }

  ghost predicate Shapes(states: seq<State>, i: nat) { i < |states| && forall k :: 0 <= k <= i ==> Shape(states[k]) }

  ghost function Completions(states: seq<State>, i: nat, s: nat): (k: nat)
    requires Shapes(states, i) && s < CLIENTS
  {
    if i == 0 then 0
    else Completions(states, i - 1, s) + if CompletesWell(states[i - 1], states[i], s) then 1 else 0
  }

  /** The owner has counted the publication it is about to complete. */
  ghost predicate AboutToComplete(st: State, s: nat)
    requires Shape(st) && s < CLIENTS
  {
    st.pc.Finish? && st.pc.s == s && Rec(st.mem, s).error == 0
  }

  /** Initializations counted, less completions and the one about to complete, stay level. */
  ghost predicate CountsLevel(st: State, st': State, s: nat)
    requires Shape(st) && Shape(st') && s < CLIENTS
  {
    Rec(st'.mem, s).bInitializations + (if AboutToComplete(st, s) then 1 else 0)
      == Rec(st.mem, s).bInitializations + (if AboutToComplete(st', s) then 1 else 0)
         + (if CompletesWell(st, st', s) then 1 else 0)
  }

  lemma BuildDoesNotCount(st: State, s: nat)
    requires Inv(st) && Inv(OwnerStep(st)) && s < CLIENTS && st.pc.Build?
    ensures CountsLevel(st, OwnerStep(st), s)
  {
    assert Rec(OwnerStep(st).mem, s) == Rec(st.mem, s);
  }

  lemma OwnerCounts(st: State, s: nat)
    requires Inv(st) && Inv(OwnerStep(st)) && s < CLIENTS
    ensures CountsLevel(st, OwnerStep(st), s)
  {
    if st.pc.Build? { BuildDoesNotCount(st, s); }
  }

  lemma ClientsDoNotCount(st: State, e: Step, s: nat)
    requires Inv(st) && Enabled(st, e) && Inv(Exec(st, e)) && s < CLIENTS && !e.OwnerTurn?
    ensures CountsLevel(st, Exec(st, e), s)
  {
  }

  lemma CountsInRun(r: Run, k: nat, s: nat)
    requires IsRun(r) && k < |r.steps| && s < CLIENTS
    ensures Shape(r.states[k]) && Shape(r.states[k + 1]) && CountsLevel(r.states[k], r.states[k + 1], s)
  {
    RunKeepsInv(r, k);
    RunKeepsInv(r, k + 1);
    assert StepOk(r.states[k], r.steps[k], r.states[k + 1]);
    if r.steps[k].OwnerTurn? { OwnerCounts(r.states[k], s); } else { ClientsDoNotCount(r.states[k], r.steps[k], s); }
  }

  lemma {:induction false} CountsAddUp(states: seq<State>, i: nat, s: nat)
    requires Shapes(states, i) && s < CLIENTS && forall k :: 0 <= k < i ==> CountsLevel(states[k], states[k + 1], s)
    requires Rec(states[0].mem, s).bInitializations == 0 && !AboutToComplete(states[0], s)
    ensures Rec(states[i].mem, s).bInitializations ==
              Completions(states, i, s) + (if AboutToComplete(states[i], s) then 1 else 0)
  {
    if i > 0 {
      CountsAddUp(states, i - 1, s);
      assert CountsLevel(states[i - 1], states[i], s);
    }
  }

  /**
    The initialization count of a slot is the number of requests the owner has completed there without
    error, plus one while such a completion is imminent.
  */
  lemma InitializationsAreCompletions(r: Run, i: nat, s: nat)
    requires IsRun(r) && i < |r.states| && s < CLIENTS
    ensures Shapes(r.states, i)
    ensures Rec(r.states[i].mem, s).bInitializations ==
              Completions(r.states, i, s) + (if AboutToComplete(r.states[i], s) then 1 else 0)
  {
    forall k | 0 <= k <= i ensures Shape(r.states[k]) { RunKeepsInv(r, k); }
    forall k | 0 <= k < i ensures CountsLevel(r.states[k], r.states[k + 1], s) { CountsInRun(r, k, s); }
    CountsAddUp(r.states, i, s);
  }
}
