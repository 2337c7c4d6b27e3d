/**
  The invariant of the publication protocol: nobody writes what the other side is reading, and a
  completed publication without error has exactly the tables of its contract.
*/
module PoolSafety {
  import opened PoolLayout
  import opened PageTables
  import opened PoolRegion
  import opened PoolProtocol

  // ---- the invariant ----

  /** The contract words in slot `s` are those of session `n`. */
  ghost predicate Holds(st: State, s: nat, n: Word)
    requires Shape(st) && s < CLIENTS
  {
    && n in st.sessions && st.sessions[n].slot == s
    && Rec(st.mem, s).contract == st.sessions[n].contract
    && (UsesExtra(st.cfg) ==> Rec(st.mem, s).extra == st.sessions[n].extra)
  }

  /** Contract and extra contract were acceptable under `n`, and the tables of slot `s` are theirs. */
  ghost predicate Built(cfg: Config, m: Region, s: nat, n: Word, w: Contract, x: Extra)
    requires s < CLIENTS
  {
    Accepted(cfg, n, w, 0, x) && TablesMatch(cfg, m, s, w, x)
  }

  ghost predicate SlotInv(st: State, s: nat)
    requires Shape(st) && s < CLIENTS
  {
    var rec := Rec(st.mem, s);
    && rec.reserved == 0
    && (rec.request == 0 || (rec.request in st.sessions && st.sessions[rec.request].slot == s))
    && (rec.request != rec.complete ==> s in st.used && rec.request != 0 && Holds(st, s, rec.request))
    && (rec.request == rec.complete && rec.request != 0 && rec.error == 0 ==>
          var sess := st.sessions[rec.request];
          Built(st.cfg, st.mem, s, rec.request, sess.contract, sess.extra))
  }

  ghost predicate Active(sess: Session) { !sess.phase.Closed? }

  /** The first `k` words agree. */
  ghost predicate Copied(to: seq<Word>, from: seq<Word>, k: nat) {
    k <= |to| == |from| && to[..k] == from[..k]
  }

  /** Before its request is stored, a client finds the slot quiet and is the only one writing it. */
  ghost predicate WriterInv(st: State, n: Word)
    requires Shape(st) && n in st.sessions
  {
    var sess := st.sessions[n];
    var rec := Rec(st.mem, sess.slot);
    && rec.request == rec.complete && rec.request != n
    && (sess.phase.WritingExtra? ==> UsesExtra(st.cfg) && Copied(rec.extra, sess.extra, sess.phase.k))
    && (sess.phase.LoadedRequest? ==> sess.phase.r == rec.request)
    && (sess.phase.WritingContract? ==> Copied(rec.contract, sess.contract, sess.phase.k))
    && (sess.phase.LoadedRequest? || sess.phase.WritingContract? ==>
          (UsesExtra(st.cfg) ==> rec.extra == sess.extra))
  }

  ghost predicate Writer(phase: Phase) {
    phase.Prepared? || phase.WritingExtra? || phase.LoadedRequest? || phase.WritingContract?
  }

  ghost predicate SessionInv(st: State, n: Word)
    requires Shape(st) && n in st.sessions
  {
    var sess := st.sessions[n];
    var rec := Rec(st.mem, sess.slot);
    && n != 0 && Nonce(sess.contract) == n
    && (Active(sess) ==> sess.slot in st.used && sess.slot !in st.quarantined)
    && (Writer(sess.phase) ==> WriterInv(st, n))
    && (sess.phase.Waiting? ==> rec.request == n && Holds(st, sess.slot, n))
    && (sess.phase.Answered? || sess.phase.Opened? || sess.phase.Committed? ==>
          rec.request == n && rec.complete == n && Holds(st, sess.slot, n))
    && (sess.phase.Opened? || sess.phase.Committed? ==> rec.error == 0)
  }

  /** At most one live session per slot. */
  ghost predicate Exclusive(st: State) {
    forall a, b | a in st.sessions && b in st.sessions && Active(st.sessions[a]) && Active(st.sessions[b]) ::
      st.sessions[a].slot == st.sessions[b].slot ==> a == b
  }

  /** The owner is answering request `r`, and the slot still says so. */
  ghost predicate Answering(st: State, s: nat, r: Word)
    requires Shape(st) && s < CLIENTS
  {
    Rec(st.mem, s).request == r && r != Rec(st.mem, s).complete && r != 0
  }

  /** The first `i` pages of the publication are written. */
  ghost predicate BuiltUpTo(cfg: Config, m: Region, s: nat, w: Contract, x: Extra, i: nat)
    requires s < CLIENTS && i <= BUILD_STEPS && ContractValid(w)
    requires UsesExtra(cfg) ==> AllExtraAccepted(w, x)
  {
    forall j :: 0 < j < i ==>
      m[BuildPage(s, j)] == Published(cfg, s, w, x, BuildPage(s, j), m[BuildPage(s, j)])
  }

  ghost predicate Finished(st: State, s: nat, r: Word)
    requires Shape(st) && s < CLIENTS
  {
    Built(st.cfg, st.mem, s, r, Rec(st.mem, s).contract, Rec(st.mem, s).extra)
  }

  ghost predicate PcInv(st: State)
    requires Shape(st)
  {
    && OwnerReady(st)
    && match st.pc
       case Asleep => true
       case Scan(s) => true
       case Loaded(s, r) => r == Rec(st.mem, s).request || r == Rec(st.mem, s).complete
       case Copy(s, r, got) => Answering(st, s, r) && got == Rec(st.mem, s).contract[..|got|]
       case Check(s, r, w) => Answering(st, s, r) && w == Rec(st.mem, s).contract
       case CopyExtra(s, r, w, got) =>
         && Answering(st, s, r) && w == Rec(st.mem, s).contract && CheckedBase(st, s, r, w)
         && got == Rec(st.mem, s).extra[..|got|]
       case CheckExtra(s, r, w, x) =>
         && Answering(st, s, r) && w == Rec(st.mem, s).contract && CheckedBase(st, s, r, w)
         && x == Rec(st.mem, s).extra
       case Build(s, r, w, x, i) =>
         && Answering(st, s, r) && w == Rec(st.mem, s).contract && x == Rec(st.mem, s).extra
         && Rec(st.mem, s).error == 0 && Accepted(st.cfg, r, w, 0, x)
         && BuiltUpTo(st.cfg, st.mem, s, w, x, i)
       case Bump(s, r) => Answering(st, s, r) && Rec(st.mem, s).error == 0 && Finished(st, s, r)
       case Finish(s, r) => Answering(st, s, r) && (Rec(st.mem, s).error == 0 ==> Finished(st, s, r))
  }

  ghost predicate CheckedBase(st: State, s: nat, r: Word, w: Contract)
    requires Shape(st) && s < CLIENTS
  {
    && Rec(st.mem, s).error == 0 && BaseAccepted(st.cfg, r, w, 0)
    && (st.cfg.profile == PROFILE_SOCIAL ==> ManifestAccepted(st.cfg))
    && UsesExtra(st.cfg)
  }

  ghost predicate Inv(st: State) {
    && Shape(st)
    && (forall s :: 0 <= s < CLIENTS ==> SlotInv(st, s))
    && (forall n :: n in st.sessions ==> SessionInv(st, n))
    && Exclusive(st) && st.quarantined <= st.used
    && PcInv(st)
  }

  // ---- framing ----

  /** Pages of slot `u`. */
  ghost predicate SamePages(m: Region, m': Region, u: nat) {
    forall p :: 0 <= p < PAGES && OwnedBy(u, p) && p != WritePage(u) ==> m'[p] == m[p]
  }

  /** Tables of slot `u`. */
  ghost predicate SameTablePages(m: Region, m': Region, u: nat) {
    forall p :: 0 <= p < PAGES && OwnedBy(u, p) && p != WritePage(u) && p != SlotPage(u) ==> m'[p] == m[p]
  }

  /** `st'` differs from `st` in the slots of one client only. */
  ghost predicate SameElsewhere(st: State, st': State, s: nat) {
    && st'.cfg == st.cfg
    && (forall u :: 0 <= u < CLIENTS && u != s ==> SamePages(st.mem, st'.mem, u))
    && (forall n :: n in st.sessions && st.sessions[n].slot != s ==>
          n in st'.sessions && st'.sessions[n] == st.sessions[n])
    && (forall n :: n in st'.sessions && st'.sessions[n].slot != s ==> n in st.sessions && st.sessions[n].slot != s)
    && (forall u :: 0 <= u < CLIENTS && u != s ==> (u in st'.used <==> u in st.used))
    && (forall u :: 0 <= u < CLIENTS && u != s ==> (u in st'.quarantined <==> u in st.quarantined))
  }

  lemma SameTables(cfg: Config, m: Region, m': Region, s: nat, n: Word, w: Contract, x: Extra)
    requires s < CLIENTS && SameTablePages(m, m', s) && Built(cfg, m, s, n, w, x)
    ensures Built(cfg, m', s, n, w, x)
  {
    forall d, l | 0 <= d < DOMAINS && 0 <= l < LEVELS ensures m'[TablePage(s, d, l)] == m[TablePage(s, d, l)] {
      assert OwnedBy(s, TablePage(s, d, l));
    }
    forall e, l | 0 <= e < EXTRA_DOMAINS && 0 <= l < LEVELS
      ensures m'[ExtraTablePage(s, e, l)] == m[ExtraTablePage(s, e, l)]
    {
      assert OwnedBy(s, ExtraTablePage(s, e, l));
    }
  }

  lemma SameRecord(st: State, st': State, s: nat, u: nat)
    requires SameElsewhere(st, st', s) && u < CLIENTS && u != s
    ensures Rec(st'.mem, u) == Rec(st.mem, u) && SamePages(st.mem, st'.mem, u)
  {
    assert SamePages(st.mem, st'.mem, u);
    assert OwnedBy(u, SlotPage(u));
  }

  lemma SameBuilding(cfg: Config, m: Region, m': Region, s: nat, w: Contract, x: Extra, i: nat)
    requires s < CLIENTS && i <= BUILD_STEPS && ContractValid(w) && SamePages(m, m', s)
    requires UsesExtra(cfg) ==> AllExtraAccepted(w, x)
    requires BuiltUpTo(cfg, m, s, w, x, i)
    ensures BuiltUpTo(cfg, m', s, w, x, i)
  {
    forall j | 0 < j < i ensures m'[BuildPage(s, j)] == m[BuildPage(s, j)] {
      assert BuildPage(s, j) != WritePage(s);
    }
  }

  lemma FrameSlot(st: State, st': State, s: nat, u: nat)
    requires Shape(st) && Shape(st') && SameElsewhere(st, st', s) && u < CLIENTS && u != s
    requires SlotInv(st, u)
    ensures SlotInv(st', u)
  {
    assert Rec(st'.mem, u) == Rec(st.mem, u) by { SameRecord(st, st', s, u); }
    assert SamePages(st.mem, st'.mem, u);
    var rec := Rec(st.mem, u);
    if rec.request == rec.complete && rec.request != 0 && rec.error == 0 {
      var sess := st.sessions[rec.request];
      SameTables(st.cfg, st.mem, st'.mem, u, rec.request, sess.contract, sess.extra);
    }
  }

  lemma FrameSession(st: State, st': State, s: nat, n: Word)
    requires Shape(st) && Shape(st') && SameElsewhere(st, st', s)
    requires n in st.sessions && st.sessions[n].slot != s && SessionInv(st, n)
    ensures n in st'.sessions && SessionInv(st', n)
  {
    var u := st.sessions[n].slot;
    assert Rec(st'.mem, u) == Rec(st.mem, u) by { SameRecord(st, st', s, u); }
  }

  lemma FramePc(st: State, st': State, s: nat)
    requires Shape(st) && Shape(st') && SameElsewhere(st, st', s)
    requires PcInv(st) && st'.pc == st.pc && (st.pc.Asleep? || st.pc.s != s)
    ensures PcInv(st')
  {
    if !st.pc.Asleep? && st.pc.s < CLIENTS {
      var u := st.pc.s;
      assert Rec(st'.mem, u) == Rec(st.mem, u) by { SameRecord(st, st', s, u); }
      assert SamePages(st.mem, st'.mem, u);
      var rec := Rec(st.mem, u);
      if st.pc.Bump? || (st.pc.Finish? && rec.error == 0) {
        SameTables(st.cfg, st.mem, st'.mem, u, st.pc.r, rec.contract, rec.extra);
      } else if st.pc.Build? {
        SameBuilding(st.cfg, st.mem, st'.mem, u, st.pc.w, st.pc.x, st.pc.i);
      }
    }
  }

  // ---- one step of a client ----

  /** What remains to be shown after a step of session `n` in slot `s`. */
  lemma ClientFrame(st: State, st': State, n: Word, s: nat)
    requires Inv(st) && Shape(st') && s < CLIENTS && SameElsewhere(st, st', s)
    requires n in st'.sessions && st'.sessions[n].slot == s
    requires forall a :: a in st'.sessions && a != n ==> a in st.sessions && st'.sessions[a] == st.sessions[a]
    requires forall a :: a in st.sessions && a != n && st.sessions[a].slot == s ==> !Active(st.sessions[a])
    requires st'.quarantined <= st'.used && st'.pc == st.pc
    requires SlotInv(st', s) && SessionInv(st', n)
    requires !st.pc.Asleep? && st.pc.s == s ==> PcInv(st')
    ensures Inv(st')
  {
    forall u | 0 <= u < CLIENTS ensures SlotInv(st', u) {
      if u != s { FrameSlot(st, st', s, u); }
    }
    forall a | a in st'.sessions ensures SessionInv(st', a) {
      if a != n {
        assert SessionInv(st, a);
        if st.sessions[a].slot != s { FrameSession(st, st', s, a); }
      }
    }
    if st.pc.Asleep? || st.pc.s != s { FramePc(st, st', s); }
  }

  /** The step leaves all pages alone except the record of slot `s`. */
  lemma RecordWriteIsLocal(m: Region, s: nat, rec: Page)
    requires WellFormed(m) && s < CLIENTS && rec.Slot?
    ensures WellFormed(SetRec(m, s, rec)) && Rec(SetRec(m, s, rec), s) == rec
    ensures forall u :: 0 <= u < CLIENTS && u != s ==> SamePages(m, SetRec(m, s, rec), u)
    ensures SameTablePages(m, SetRec(m, s, rec), s)
  {
  }

  /** A live session is the only one on its slot. */
  lemma OthersAreClosed(st: State, n: Word)
    requires Inv(st) && n in st.sessions && Active(st.sessions[n])
    ensures forall a :: a in st.sessions && a != n && st.sessions[a].slot == st.sessions[n].slot ==>
              !Active(st.sessions[a])
  {
  }

  /** A client that is still writing finds the owner elsewhere, or just looking. */
  lemma OwnerIsAway(st: State, n: Word)
    requires Inv(st) && n in st.sessions && Writer(st.sessions[n].phase)
    ensures st.pc.Asleep? || st.pc.Scan? || st.pc.Loaded? || st.pc.s != st.sessions[n].slot
  {
    assert SessionInv(st, n);
  }

  lemma PrepareKeepsInv(st: State, n: Word, s: nat, w: Contract, x: Extra)
    requires Inv(st) && Enabled(st, Prepare(n, s, w, x))
    ensures Inv(PrepareStep(st, n, s, w, x))
  {
    var st' := PrepareStep(st, n, s, w, x);
    assert SlotInv(st, s);
    forall a | a in st.sessions && st.sessions[a].slot == s ensures !Active(st.sessions[a]) {
      assert SessionInv(st, a);
    }
    ClientFrame(st, st', n, s);
  }

  lemma SamePc(st: State, st': State)
    requires Shape(st) && PcInv(st) && st'.cfg == st.cfg && st'.mem == st.mem && st'.pc == st.pc && Shape(st')
    ensures PcInv(st')
  {
  }

  lemma SameSlot(st: State, st': State, n: Word, phase: Phase)
    requires Shape(st) && Shape(st') && n in st.sessions && SlotInv(st, st.sessions[n].slot)
    requires st'.cfg == st.cfg && st'.mem == st.mem && st'.sessions == SetPhase(st, n, phase).sessions
    requires var s := st.sessions[n].slot; Rec(st.mem, s).request != Rec(st.mem, s).complete ==> s in st'.used
    ensures SlotInv(st', st.sessions[n].slot)
  {
  }

  /** Steps of a live session that change no page. */
  lemma QuietKeepsInv(st: State, n: Word, phase: Phase, used: set<nat>, quarantined: set<nat>)
    requires Inv(st) && n in st.sessions && Active(st.sessions[n]) && quarantined <= used
    requires forall u :: u != st.sessions[n].slot ==> (u in used <==> u in st.used)
    requires forall u :: u != st.sessions[n].slot ==> (u in quarantined <==> u in st.quarantined)
    requires var s := st.sessions[n].slot; Rec(st.mem, s).request != Rec(st.mem, s).complete ==> s in used
    requires SessionInv(SetPhase(st, n, phase).(used := used, quarantined := quarantined), n)
    ensures Inv(SetPhase(st, n, phase).(used := used, quarantined := quarantined))
  {
    var st', s := SetPhase(st, n, phase).(used := used, quarantined := quarantined), st.sessions[n].slot;
    OthersAreClosed(st, n);
    SameSlot(st, st', n, phase);
    SamePc(st, st');
    ClientFrame(st, st', n, s);
  }

  lemma PhaseKeepsInv(st: State, n: Word, phase: Phase)
    requires Inv(st) && n in st.sessions && Active(st.sessions[n]) && !phase.Closed?
    requires SessionInv(SetPhase(st, n, phase), n)
    ensures Inv(SetPhase(st, n, phase))
  {
    assert SlotInv(st, st.sessions[n].slot);
    assert SetPhase(st, n, phase) == SetPhase(st, n, phase).(used := st.used, quarantined := st.quarantined);
    QuietKeepsInv(st, n, phase, st.used, st.quarantined);
  }

  ghost function WriteRecord(st: State, n: Word, phase: Phase, rec: Page): (r: State)
    requires Shape(st) && n in st.sessions && rec.Slot?
  {
    SetPhase(st, n, phase).(mem := SetRec(st.mem, st.sessions[n].slot, rec))
  }

  /** A writer may change its record as long as it leaves the owner's fields alone. */
  lemma RecordKeepsInv(st: State, n: Word, phase: Phase, rec: Page)
    requires Inv(st) && n in st.sessions && Writer(st.sessions[n].phase) && !phase.Closed? && rec.Slot?
    requires var was := Rec(st.mem, st.sessions[n].slot);
      rec.complete == was.complete && rec.error == was.error && rec.reserved == was.reserved
    requires var st' := WriteRecord(st, n, phase, rec); Shape(st') && SessionInv(st', n)
    requires rec.request == Rec(st.mem, st.sessions[n].slot).request || phase == Waiting
    ensures Inv(WriteRecord(st, n, phase, rec))
  {
    var st', s := WriteRecord(st, n, phase, rec), st.sessions[n].slot;
    assert SlotInv(st, s) && SessionInv(st, n);
    RecordWriteIsLocal(st.mem, s, rec);
    OthersAreClosed(st, n);
    OwnerIsAway(st, n);
    assert SlotInv(st', s) by {
      var was := Rec(st.mem, s);
      if was.request != 0 && was.error == 0 {
        var sess := st.sessions[was.request];
        SameTables(st.cfg, st.mem, st'.mem, s, was.request, sess.contract, sess.extra);
      }
    }
    ClientFrame(st, st', n, s);
  }

  /** A writer that has copied one more word is still a writer. */
  lemma WriterSession(st: State, n: Word, phase: Phase, rec: Page)
    requires Inv(st) && n in st.sessions && Writer(st.sessions[n].phase) && rec.Slot?
    requires var was := Rec(st.mem, st.sessions[n].slot); var sess := st.sessions[n];
      && rec.request == was.request && rec.complete == was.complete
      && (|| (phase.WritingExtra? && UsesExtra(st.cfg) && Copied(rec.extra, sess.extra, phase.k))
          || (phase.WritingContract? && sess.phase.WritingContract? && rec.extra == was.extra
                && Copied(rec.contract, sess.contract, phase.k)))
    ensures var st' := WriteRecord(st, n, phase, rec); Shape(st') && SessionInv(st', n)
  {
    assert SessionInv(st, n);
    RecordWriteIsLocal(st.mem, st.sessions[n].slot, rec);
  }

  lemma CopiedOne(to: seq<Word>, from: seq<Word>, k: nat)
    requires Copied(to, from, k) && k < |to|
    ensures Copied(to[k := from[k]], from, k + 1)
  {
    var to' := to[k := from[k]];
    assert to'[..k + 1] == to[..k] + [from[k]];
    assert from[..k + 1] == from[..k] + [from[k]];
  }

  lemma WriteExtraKeepsInv(st: State, n: Word)
    requires Inv(st) && Enabled(st, WriteExtraWord(n))
    ensures Inv(WriteExtraStep(st, n))
  {
    var sess := st.sessions[n];
    var k, rec := ExtraProgress(sess.phase), Rec(st.mem, sess.slot);
    var rec' := rec.(extra := rec.extra[k := sess.extra[k]]);
    assert Copied(rec.extra, sess.extra, k) by { assert SessionInv(st, n); }
    CopiedOne(rec.extra, sess.extra, k);
    WriterSession(st, n, WritingExtra(k + 1), rec');
    RecordKeepsInv(st, n, WritingExtra(k + 1), rec');
  }

  lemma WriteContractKeepsInv(st: State, n: Word)
    requires Inv(st) && Enabled(st, WriteContractWord(n))
    ensures Inv(WriteContractStep(st, n))
  {
    var sess := st.sessions[n];
    var k, rec := sess.phase.k, Rec(st.mem, sess.slot);
    var rec' := rec.(contract := rec.contract[k := sess.contract[k]]);
    assert Copied(rec.contract, sess.contract, k) by { assert SessionInv(st, n); }
    CopiedOne(rec.contract, sess.contract, k);
    WriterSession(st, n, WritingContract(k + 1), rec');
    RecordKeepsInv(st, n, WritingContract(k + 1), rec');
  }

  lemma CopiedAll(to: seq<Word>, from: seq<Word>)
    requires |to| == |from| && Copied(to, from, |from|)
    ensures to == from
  {
    assert to[..|to|] == to && from[..|from|] == from;
  }

  lemma PostKeepsInv(st: State, n: Word)
    requires Inv(st) && Enabled(st, Post(n))
    ensures Inv(PostStep(st, n))
  {
    var sess := st.sessions[n];
    var rec' := Rec(st.mem, sess.slot).(request := n);
    assert SessionInv(st, n);
    RecordWriteIsLocal(st.mem, sess.slot, rec');
    CopiedAll(rec'.contract, sess.contract);
    RecordKeepsInv(st, n, Waiting, rec');
  }

  lemma LoadRequestKeepsInv(st: State, n: Word)
    requires Inv(st) && Enabled(st, LoadRequest(n))
    ensures Inv(Exec(st, LoadRequest(n)))
  {
    var sess := st.sessions[n];
    assert SessionInv(st, n);
    if UsesExtra(st.cfg) { CopiedAll(Rec(st.mem, sess.slot).extra, sess.extra); }
    PhaseKeepsInv(st, n, LoadedRequest(Rec(st.mem, sess.slot).request));
  }

  /** The guard a client evaluates before it writes never turns it away. */
  lemma GuardPasses(st: State, n: Word)
    requires Inv(st) && Enabled(st, LoadComplete(n))
    ensures LoadCompleteStep(st, n) == SetPhase(st, n, WritingContract(0))
    ensures Inv(LoadCompleteStep(st, n))
  {
    assert SessionInv(st, n);
    PhaseKeepsInv(st, n, WritingContract(0));
  }

  /** But it would, with nothing written, if the slot had a request outstanding or carried this nonce already. */
  lemma GuardStops(st: State, n: Word)
    requires Shape(st) && Enabled(st, LoadComplete(n))
    requires var rec := Rec(st.mem, st.sessions[n].slot); st.sessions[n].phase.r != rec.complete || rec.request == n
    ensures InPhase(LoadCompleteStep(st, n), n, Failed) && LoadCompleteStep(st, n).mem == st.mem
  {
  }

  lemma InspectKeepsInv(st: State, n: Word)
    requires Inv(st) && Enabled(st, Inspect(n))
    ensures Inv(InspectStep(st, n))
  {
    assert SessionInv(st, n);
    var rec := Rec(st.mem, st.sessions[n].slot);
    PhaseKeepsInv(st, n, if rec.error != 0 || rec.reserved != 0 then Failed else Opened);
  }

  /** Once a client has seen its nonce and no error, the kernel's own comparison always succeeds. */
  lemma CommitSucceeds(st: State, n: Word)
    requires Inv(st) && Enabled(st, Commit(n))
    ensures CommitChecks(st, n) && Inv(CommitStep(st, n))
  {
    assert SessionInv(st, n) && SlotInv(st, st.sessions[n].slot);
    PhaseKeepsInv(st, n, Committed);
  }

  lemma CloseKeepsInv(st: State, n: Word)
    requires Inv(st) && Enabled(st, Close(n))
    ensures Inv(CloseStep(st, n))
  {
    var s := st.sessions[n].slot;
    assert SlotInv(st, s) && SessionInv(st, n);
    if st.sessions[n].phase == Committed {
      assert CloseStep(st, n) ==
        SetPhase(st, n, Closed(true)).(used := st.used - {s}, quarantined := st.quarantined);
      QuietKeepsInv(st, n, Closed(true), st.used - {s}, st.quarantined);
    } else {
      assert CloseStep(st, n) ==
        SetPhase(st, n, Closed(false)).(used := st.used, quarantined := st.quarantined + {s});
      QuietKeepsInv(st, n, Closed(false), st.used, st.quarantined + {s});
    }
  }

  lemma ServiceWriteKeepsInv(st: State, n: Word, words: Table)
    requires Inv(st) && Enabled(st, ServiceWrite(n, words))
    ensures Inv(ServiceWriteStep(st, n, words))
  {
    var st', s := ServiceWriteStep(st, n, words), st.sessions[n].slot;
    assert SamePages(st.mem, st'.mem, s);
    assert OwnedBy(s, SlotPage(s));
    assert Rec(st'.mem, s) == Rec(st.mem, s);
    assert SlotInv(st, s) && SessionInv(st, n);
    OthersAreClosed(st, n);
    SameTables(st.cfg, st.mem, st'.mem, s, n, st.sessions[n].contract, st.sessions[n].extra);
    assert SlotInv(st', s);
    ClientFrame(st, st', n, s);
  }
}
