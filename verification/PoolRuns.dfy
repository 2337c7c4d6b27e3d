/** The owner's steps keep the invariant too; what follows for every interleaved run. */
module PoolRuns {
  import opened PoolLayout
  import opened PageTables
  import opened PoolRegion
  import opened PoolProtocol
  import opened PoolSafety

  // ---- one step of the owner ----

  lemma OwnerFrame(st: State, st': State, s: nat)
    requires Inv(st) && Shape(st') && s < CLIENTS && SameElsewhere(st, st', s)
    requires st'.sessions == st.sessions && st'.used == st.used && st'.quarantined == st.quarantined
    requires SlotInv(st', s) && PcInv(st')
    requires forall n :: n in st.sessions && st.sessions[n].slot == s ==> SessionInv(st', n)
    ensures Inv(st')
  {
    forall u | 0 <= u < CLIENTS ensures SlotInv(st', u) {
      if u != s { FrameSlot(st, st', s, u); }
    }
    forall n | n in st'.sessions ensures SessionInv(st', n) {
      if st.sessions[n].slot != s { FrameSession(st, st', s, n); }
    }
  }

  /** Steps that only move the owner along. */
  lemma PcOnly(st: State, pc: OwnerPc)
    requires Inv(st) && PcInv(st.(pc := pc))
    ensures Inv(st.(pc := pc))
  {
    var st' := st.(pc := pc);
    forall u | 0 <= u < CLIENTS ensures SlotInv(st', u) { assert SlotInv(st, u); }
    forall n | n in st'.sessions ensures SessionInv(st', n) { assert SessionInv(st, n); }
  }

  lemma ScanKeepsInv(st: State)
    requires Inv(st) && (st.pc.Asleep? || st.pc.Scan? || st.pc.Loaded?)
    ensures Inv(ScanStep(st))
  {
    if st.pc.Loaded? { assert SlotInv(st, st.pc.s); }
    PcOnly(st, ScanStep(st).pc);
  }

  lemma CopyKeepsInv(st: State)
    requires Inv(st) && (st.pc.Copy? || st.pc.CopyExtra?)
    ensures Inv(CopyStep(st))
  {
    var rec := Rec(st.mem, st.pc.s);
    if st.pc.Copy? {
      CopiedOneMore(rec.contract, st.pc.got);
    } else {
      CopiedOneMore(rec.extra, st.pc.got);
    }
    PcOnly(st, CopyStep(st).pc);
  }

  lemma CopiedOneMore(from: seq<Word>, got: seq<Word>)
    requires |got| < |from| && got == from[..|got|]
    ensures got + [from[|got|]] == from[..|got| + 1]
    ensures |got| + 1 == |from| ==> got + [from[|got|]] == from
  {
  }

  /** While the owner answers, the only live phases on its slot are waiting and failed. */
  lemma SessionsStandStill(st: State, st': State, s: nat, r: Word, n: Word)
    requires Inv(st) && Shape(st') && s < CLIENTS && Answering(st, s, r)
    requires n in st.sessions && st.sessions[n].slot == s && st'.sessions == st.sessions
    requires st'.cfg == st.cfg && st'.used == st.used && st'.quarantined == st.quarantined
    requires Rec(st'.mem, s).request == r && Rec(st'.mem, s).contract == Rec(st.mem, s).contract
    requires Rec(st'.mem, s).extra == Rec(st.mem, s).extra
    ensures SessionInv(st', n)
  {
    assert SessionInv(st, n);
  }

  /** The owner writes its own fields of a record that is still pending afterwards. */
  lemma OwnerRecordKeepsInv(st: State, s: nat, r: Word, rec: Page, pc: OwnerPc)
    requires Inv(st) && s < CLIENTS && Answering(st, s, r) && rec.Slot?
    requires var was := Rec(st.mem, s); rec == was.(error := rec.error, bInitializations := rec.bInitializations)
    requires var st' := st.(mem := SetRec(st.mem, s, rec), pc := pc); Shape(st') && PcInv(st')
    ensures Inv(st.(mem := SetRec(st.mem, s, rec), pc := pc))
  {
    var st' := st.(mem := SetRec(st.mem, s, rec), pc := pc);
    RecordWriteIsLocal(st.mem, s, rec);
    assert SlotInv(st, s);
    assert SlotInv(st', s);
    forall n | n in st.sessions && st.sessions[n].slot == s ensures SessionInv(st', n) {
      SessionsStandStill(st, st', s, r, n);
    }
    OwnerFrame(st, st', s);
  }

  lemma CheckKeepsInv(st: State)
    requires Inv(st) && (st.pc.Check? || st.pc.CheckExtra?)
    ensures Inv(CheckStep(st))
  {
    var st', s := CheckStep(st), st.pc.s;
    var rec := Rec(st'.mem, s);
    assert SlotInv(st, s);
    RecordWriteIsLocal(st.mem, s, rec);
    assert st'.mem == SetRec(st.mem, s, rec);
    assert PcInv(st');
    OwnerRecordKeepsInv(st, s, st.pc.r, rec, st'.pc);
  }

  lemma BuiltAll(cfg: Config, m: Region, s: nat, w: Contract, x: Extra)
    requires s < CLIENTS && ContractValid(w)
    requires UsesExtra(cfg) ==> AllExtraAccepted(w, x)
    requires BuiltUpTo(cfg, m, s, w, x, BUILD_STEPS)
    ensures TablesMatch(cfg, m, s, w, x)
  {
    forall d, l | 0 <= d < DOMAINS && 0 <= l < LEVELS ensures m[TablePage(s, d, l)] == Data(BuildTable(w, d, l)) {
      assert BuildPage(s, 1 + 4 * d + l) == TablePage(s, d, l);
      PublishedTable(cfg, s, w, x, d, l, m[TablePage(s, d, l)]);
    }
    if UsesExtra(cfg) {
      forall e, l | 0 <= e < EXTRA_DOMAINS && 0 <= l < LEVELS
        ensures ExtraAccepted(w, x, e)
        ensures m[ExtraTablePage(s, e, l)] == Data(BuildTable(Adapted(w, x, e), ExtraEntry(e), l))
      {
        assert BuildPage(s, 17 + 4 * e + l) == ExtraTablePage(s, e, l);
        PublishedExtraTable(cfg, s, w, x, e, l, m[ExtraTablePage(s, e, l)]);
      }
    }
  }

  /** The i-th page written is none of the earlier ones. */
  lemma BuildPagesDiffer(s: nat, i: nat, j: nat)
    requires s < CLIENTS && j < i < BUILD_STEPS
    ensures BuildPage(s, i) != BuildPage(s, j)
  {
  }

  /** Writing a table page twice from the same contracts gives the same page. */
  lemma PublishedIsIdempotent(cfg: Config, s: nat, w: Contract, x: Extra, p: nat, before: Page)
    requires s < CLIENTS && ContractValid(w)
    requires UsesExtra(cfg) ==> AllExtraAccepted(w, x)
    ensures Published(cfg, s, w, x, p, Published(cfg, s, w, x, p, before)) == Published(cfg, s, w, x, p, before)
  {
  }

  lemma BuildOne(cfg: Config, m: Region, s: nat, w: Contract, x: Extra, i: nat)
    requires s < CLIENTS && i < BUILD_STEPS && ContractValid(w)
    requires UsesExtra(cfg) ==> AllExtraAccepted(w, x)
    requires BuiltUpTo(cfg, m, s, w, x, i)
    ensures var p := BuildPage(s, i);
      BuiltUpTo(cfg, m[p := Published(cfg, s, w, x, p, m[p])], s, w, x, i + 1)
  {
    var p := BuildPage(s, i);
    var m' := m[p := Published(cfg, s, w, x, p, m[p])];
    forall j | 0 < j < i + 1
      ensures m'[BuildPage(s, j)] == Published(cfg, s, w, x, BuildPage(s, j), m'[BuildPage(s, j)])
    {
      if j < i { BuildPagesDiffer(s, i, j); } else { PublishedIsIdempotent(cfg, s, w, x, p, m[p]); }
    }
  }

  lemma PageWriteIsLocal(m: Region, m': Region, s: nat, i: nat, page: Page)
    requires WellFormed(m) && s < CLIENTS && i < BUILD_STEPS && page.Data? && m' == m[BuildPage(s, i) := page]
    ensures WellFormed(m') && Rec(m', s) == Rec(m, s)
    ensures forall u :: 0 <= u < CLIENTS && u != s ==> SamePages(m, m', u)
  {
    forall u, q | 0 <= u < CLIENTS && u != s && 0 <= q < PAGES && OwnedBy(u, q) ensures m'[q] == m[q] {
      LayoutIsDisjoint(s, u, BuildPage(s, i));
    }
  }

  lemma BuildKeepsInv(st: State)
    requires Inv(st) && st.pc.Build?
    ensures Inv(BuildStep(st))
  {
    var Build(s, r, w, x, i) := st.pc;
    var p := BuildPage(s, i);
    var page := Published(st.cfg, s, w, x, p, st.mem[p]);
    var st' := BuildStep(st);
    PageWriteIsLocal(st.mem, st'.mem, s, i, page);
    assert SlotInv(st, s);
    assert SlotInv(st', s);
    forall n | n in st.sessions && st.sessions[n].slot == s ensures SessionInv(st', n) {
      SessionsStandStill(st, st', s, r, n);
    }
    assert PcInv(st') by {
      BuildOne(st.cfg, st.mem, s, w, x, i);
      if i + 1 == BUILD_STEPS { BuiltAll(st.cfg, st'.mem, s, w, x); }
    }
    OwnerFrame(st, st', s);
  }

  lemma BumpKeepsInv(st: State)
    requires Inv(st) && st.pc.Bump?
    ensures Inv(AnswerStep(st))
  {
    var st', s := AnswerStep(st), st.pc.s;
    var was, rec := Rec(st.mem, s), Rec(st'.mem, s);
    RecordWriteIsLocal(st.mem, s, rec);
    SameTables(st.cfg, st.mem, st'.mem, s, st.pc.r, was.contract, was.extra);
    OwnerRecordKeepsInv(st, s, st.pc.r, rec, st'.pc);
  }

  /** Without the extension the extra words are irrelevant. */
  lemma BuiltIgnoresExtra(cfg: Config, m: Region, s: nat, n: Word, w: Contract, x: Extra, y: Extra)
    requires s < CLIENTS && Built(cfg, m, s, n, w, x) && (UsesExtra(cfg) ==> x == y)
    ensures Built(cfg, m, s, n, w, y)
  {
  }

  lemma FinishKeepsInv(st: State)
    requires Inv(st) && st.pc.Finish?
    ensures Inv(AnswerStep(st))
  {
    var st', s, r := AnswerStep(st), st.pc.s, st.pc.r;
    var was, rec := Rec(st.mem, s), Rec(st'.mem, s);
    RecordWriteIsLocal(st.mem, s, rec);
    assert SlotInv(st, s);
    assert SlotInv(st', s) by {
      if was.error == 0 {
        SameTables(st.cfg, st.mem, st'.mem, s, r, was.contract, was.extra);
        BuiltIgnoresExtra(st.cfg, st'.mem, s, r, was.contract, was.extra, st.sessions[r].extra);
      }
    }
    forall n | n in st.sessions && st.sessions[n].slot == s ensures SessionInv(st', n) {
      SessionsStandStill(st, st', s, r, n);
    }
    OwnerFrame(st, st', s);
  }

  // ---- every step, every run ----

  lemma OwnerTurnKeepsInv(st: State)
    requires Inv(st)
    ensures Inv(OwnerStep(st))
  {
    if st.pc.Asleep? || st.pc.Scan? || st.pc.Loaded? { ScanKeepsInv(st); }
    else if st.pc.Copy? || st.pc.CopyExtra? { CopyKeepsInv(st); }
    else if st.pc.Check? || st.pc.CheckExtra? { CheckKeepsInv(st); }
    else if st.pc.Build? { BuildKeepsInv(st); }
    else if st.pc.Bump? { BumpKeepsInv(st); }
    else { FinishKeepsInv(st); }
  }

  lemma StepKeepsInv(st: State, e: Step)
    requires Inv(st) && Enabled(st, e)
    ensures Inv(Exec(st, e))
  {
    match e
    case Prepare(n, s, w, x) => PrepareKeepsInv(st, n, s, w, x);
    case WriteExtraWord(n) => WriteExtraKeepsInv(st, n);
    case LoadRequest(n) => LoadRequestKeepsInv(st, n);
    case LoadComplete(n) => GuardPasses(st, n);
    case WriteContractWord(n) => WriteContractKeepsInv(st, n);
    case Post(n) => PostKeepsInv(st, n);
    case Observe(n) => assert SessionInv(st, n); PhaseKeepsInv(st, n, Answered);
    case Inspect(n) => InspectKeepsInv(st, n);
    case Commit(n) => CommitSucceeds(st, n);
    case GiveUp(n) => assert SessionInv(st, n); PhaseKeepsInv(st, n, Failed);
    case Close(n) => CloseKeepsInv(st, n);
    case ServiceWrite(n, words) => ServiceWriteKeepsInv(st, n, words);
    case OwnerTurn => OwnerTurnKeepsInv(st);
  }

  lemma {:induction false} RunKeepsInv(r: Run, i: nat)
    requires IsRun(r) && i < |r.states|
    ensures Inv(r.states[i])
  {
    if i > 0 {
      RunKeepsInv(r, i - 1);
      assert StepOk(r.states[i - 1], r.steps[i - 1], r.states[i]);
      StepKeepsInv(r.states[i - 1], r.steps[i - 1]);
    }
  }
}
