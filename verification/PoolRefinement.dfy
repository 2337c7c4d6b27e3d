/**
  The step-by-step owner and the whole-poll specification agree: an owner that runs undisturbed turns
  any well-formed region into exactly `PollAll` of it, slot after slot.
*/
module PoolRefinement {
  import opened PoolLayout
  import opened PoolRegion
  import opened PoolProtocol
  import opened PoolSafety
  import opened PoolRuns

  ghost predicate Ready(st: State) { Shape(st) && OwnerReady(st) }

  ghost predicate Turned(st: State, st': State) {
    Ready(st) && st' == OwnerStep(st)
  }

  /** The owner takes turn after turn, from `st` to `st'`. */
  ghost predicate IsPath(path: seq<State>, st: State, st': State) {
    && |path| > 0 && path[0] == st && path[|path| - 1] == st'
    && forall i :: 0 <= i < |path| - 1 ==> Turned(path[i], path[i + 1])
  }

  ghost predicate Reaches(st: State, st': State) {
    exists path :: IsPath(path, st, st')
  }

  lemma ReachesOne(st: State)
    requires Ready(st)
    ensures Reaches(st, OwnerStep(st))
  {
    assert IsPath([st, OwnerStep(st)], st, OwnerStep(st));
  }

  lemma ReachesSelf(st: State)
    ensures Reaches(st, st)
  {
    assert IsPath([st], st, st);
  }

  lemma JoinPaths(p: seq<State>, q: seq<State>, a: State, b: State, c: State)
    requires IsPath(p, a, b) && IsPath(q, b, c)
    ensures IsPath(p[..|p| - 1] + q, a, c)
  {
    var path := p[..|p| - 1] + q;
    forall i | 0 <= i < |path| - 1 ensures Turned(path[i], path[i + 1]) {
      if i < |p| - 1 {
        assert Turned(p[i], p[i + 1]);
      } else {
        assert Turned(q[i - (|p| - 1)], q[i - (|p| - 1) + 1]);
      }
    }
  }

  lemma ReachesThen(a: State, b: State, c: State)
    requires Reaches(a, b) && Reaches(b, c)
    ensures Reaches(a, c)
  {
    var p :| IsPath(p, a, b);
    var q :| IsPath(q, b, c);
    JoinPaths(p, q, a, b, c);
  }

  // ---- the snapshots ----

  lemma {:induction false} CopyRuns(st: State, st': State)
    requires Ready(st) && st.pc.Copy? && st.pc.got == Rec(st.mem, st.pc.s).contract[..|st.pc.got|]
    requires st' == st.(pc := Check(st.pc.s, st.pc.r, Rec(st.mem, st.pc.s).contract))
    ensures Reaches(st, st')
    decreases CONTRACT_WORDS - |st.pc.got|
  {
    var next := OwnerStep(st);
    ReachesOne(st);
    CopiedOneMore(Rec(st.mem, st.pc.s).contract, st.pc.got);
    if next.pc.Copy? {
      CopyRuns(next, st');
      ReachesThen(st, next, st');
    }
  }

  lemma {:induction false} CopyExtraRuns(st: State, st': State)
    requires Ready(st) && st.pc.CopyExtra? && st.pc.got == Rec(st.mem, st.pc.s).extra[..|st.pc.got|]
    requires st' == st.(pc := CheckExtra(st.pc.s, st.pc.r, st.pc.w, Rec(st.mem, st.pc.s).extra))
    ensures Reaches(st, st')
    decreases EXTRA_WORDS - |st.pc.got|
  {
    var next := OwnerStep(st);
    ReachesOne(st);
    CopiedOneMore(Rec(st.mem, st.pc.s).extra, st.pc.got);
    if next.pc.CopyExtra? {
      CopyExtraRuns(next, st');
      ReachesThen(st, next, st');
    }
  }

  // ---- the tables ----

  /** The number of the build step that writes page `p`, if any does. */
  function BuildIndex(s: nat, p: nat): (i: nat)
    requires s < CLIENTS
    ensures i < BUILD_STEPS ==> BuildPage(s, i) == p
    ensures forall j :: 0 <= j < BUILD_STEPS && BuildPage(s, j) == p ==> j == i
  {
    if p == WritePage(s) then 0
    else if TablePage(s, 0, 0) <= p < TablePage(s + 1, 0, 0) then p - TablePage(s, 0, 0) + 1
    else if ExtraTablePage(s, 0, 0) <= p < ExtraTablePage(s + 1, 0, 0) then p - ExtraTablePage(s, 0, 0) + 17
    else BUILD_STEPS
  }

  ghost function FilledPage(cfg: Config, m: Region, s: nat, w: Contract, x: Extra, i: nat, p: nat): (r: Page)
    requires s < CLIENTS && ContractValid(w) && p < PAGES
    requires UsesExtra(cfg) ==> AllExtraAccepted(w, x)
  {
    if i <= BuildIndex(s, p) then Published(cfg, s, w, x, p, m[p]) else m[p]
  }

  /** The region once pages `i` to the last of the publication are written. */
  ghost function Filled(cfg: Config, m: Region, s: nat, w: Contract, x: Extra, i: nat): (r: Region)
    requires s < CLIENTS && ContractValid(w)
    requires UsesExtra(cfg) ==> AllExtraAccepted(w, x)
  {
    seq(PAGES, p requires 0 <= p < PAGES => FilledPage(cfg, m, s, w, x, i, p))
  }

  /** Writing one page leaves one page less to write. */
  lemma FillOne(cfg: Config, m: Region, s: nat, w: Contract, x: Extra, i: nat, m': Region)
    requires s < CLIENTS && i < BUILD_STEPS && ContractValid(w)
    requires UsesExtra(cfg) ==> AllExtraAccepted(w, x)
    requires var q := BuildPage(s, i); m' == m[q := Published(cfg, s, w, x, q, m[q])]
    ensures Filled(cfg, m', s, w, x, i + 1) == Filled(cfg, m, s, w, x, i)
  {
    var all, rest := Filled(cfg, m, s, w, x, i), Filled(cfg, m', s, w, x, i + 1);
    forall p | 0 <= p < PAGES ensures rest[p] == all[p] {
      assert BuildIndex(s, p) == i <==> p == BuildPage(s, i);
    }
  }

  /** After the last page nothing is left but pages publishing does not touch. */
  lemma FillNone(cfg: Config, m: Region, s: nat, w: Contract, x: Extra)
    requires s < CLIENTS && ContractValid(w)
    requires UsesExtra(cfg) ==> AllExtraAccepted(w, x)
    ensures Filled(cfg, m, s, w, x, BUILD_STEPS) == m
  {
    var all := Filled(cfg, m, s, w, x, BUILD_STEPS);
    forall p | 0 <= p < PAGES ensures all[p] == m[p] {
    }
  }

  lemma {:induction false} BuildRuns(st: State, st': State)
    requires Ready(st) && st.pc.Build?
    requires var Build(s, r, w, x, i) := st.pc;
      st' == st.(mem := Filled(st.cfg, st.mem, s, w, x, i), pc := Bump(s, r))
    ensures Reaches(st, st')
    decreases BUILD_STEPS - st.pc.i
  {
    var next := OwnerStep(st);
    ReachesOne(st);
    var Build(s, r, w, x, i) := st.pc;
    FillOne(st.cfg, st.mem, s, w, x, i, next.mem);
    if next.pc.Build? {
      PageWriteIsLocal(st.mem, next.mem, s, i, next.mem[BuildPage(s, i)]);
      BuildRuns(next, st');
      ReachesThen(st, next, st');
    } else {
      FillNone(st.cfg, next.mem, s, w, x);
    }
  }

  // ---- one slot, and the whole poll ----

  ghost function Completed(rec: Page): (r: Page)
    requires rec.Slot?
  {
    rec.(bInitializations := rec.bInitializations + 1, complete := rec.request)
  }

  /** The two last stores: the count, then the completion that makes the answer visible. */
  lemma AnswerRuns(st: State, st': State)
    requires Ready(st) && st.pc.Bump? && st.pc.r == Rec(st.mem, st.pc.s).request
    requires st' == st.(mem := SetRec(st.mem, st.pc.s, Completed(Rec(st.mem, st.pc.s))), pc := Scan(st.pc.s + 1))
    ensures Reaches(st, st')
  {
    var mid := OwnerStep(st);
    ReachesOne(st);
    RecordWriteIsLocal(st.mem, st.pc.s, Rec(mid.mem, st.pc.s));
    ReachesOne(mid);
    assert OwnerStep(mid).mem == st'.mem;
    ReachesThen(st, mid, st');
  }

  /** Writing the pages one after the other, then the record, gives the answered region. */
  lemma FilledIsAnswer(cfg: Config, m: Region, s: nat)
    requires s < CLIENTS && WellFormed(m) && SlotAccepted(cfg, m, s) && Rec(m, s).error == 0
    ensures var rec := Rec(m, s); var filled := Filled(cfg, m, s, rec.contract, rec.extra, 0);
      Rec(filled, s) == rec && SetRec(filled, s, Completed(rec)) == AnswerRegion(cfg, m, s)
  {
    var rec := Rec(m, s);
    var filled, answered := Filled(cfg, m, s, rec.contract, rec.extra, 0), AnswerRegion(cfg, m, s);
    forall p | 0 <= p < PAGES && p != SlotPage(s) ensures filled[p] == answered[p] {
      assert answered[p] == AnswerPage(cfg, m, s, p);
    }
  }

  lemma FilledShape(cfg: Config, m: Region, s: nat, w: Contract, x: Extra, i: nat)
    requires s < CLIENTS && ContractValid(w) && WellFormed(m)
    requires UsesExtra(cfg) ==> AllExtraAccepted(w, x)
    ensures WellFormed(Filled(cfg, m, s, w, x, i))
  {
  }

  /** From the first page to the completion, with the region that results left abstract. */
  lemma PublishRuns(st: State, filled: Region, st': State)
    requires Ready(st) && st.pc.Build? && st.pc.i == 0 && WellFormed(filled)
    requires filled == Filled(st.cfg, st.mem, st.pc.s, st.pc.w, st.pc.x, st.pc.i)
    requires Rec(filled, st.pc.s).request == st.pc.r
    requires st' == st.(mem := SetRec(filled, st.pc.s, Completed(Rec(filled, st.pc.s))), pc := Scan(st.pc.s + 1))
    ensures Reaches(st, st')
  {
    var built := st.(mem := filled, pc := Bump(st.pc.s, st.pc.r));
    BuildRuns(st, built);
    AnswerRuns(built, st');
    ReachesThen(st, built, st');
  }

  /** Answering does not depend on the error field left from before. */
  lemma AnswerIgnoresError(cfg: Config, m: Region, s: nat, error: nat)
    requires s < CLIENTS && WellFormed(m) && Rec(m, s).Slot? && SlotAccepted(cfg, m, s)
    ensures var m' := SetRec(m, s, Rec(m, s).(error := error));
      SlotAccepted(cfg, m', s) && AnswerRegion(cfg, m', s) == AnswerRegion(cfg, m, s)
  {
    var m' := SetRec(m, s, Rec(m, s).(error := error));
    forall p | 0 <= p < PAGES ensures AnswerPage(cfg, m', s, p) == AnswerPage(cfg, m, s, p) {
    }
  }

  /** The region of an accepted request whose verdict has just been recorded. */
  ghost function Cleared(m: Region, s: nat): (r: Region)
    requires s < CLIENTS && m[SlotPage(s)].Slot?
  {
    m[SlotPage(s) := m[SlotPage(s)].(error := 0)]
  }

  /** Publishing an accepted request takes the region from the cleared one to the answered one. */
  lemma AcceptedRuns(st: State, m: Region, st': State)
    requires Shape(st) && st.pc.Build? && st.pc.s < CLIENTS && st.pc.i == 0
    requires WellFormed(m) && SlotAccepted(st.cfg, m, st.pc.s) && st.mem == Cleared(m, st.pc.s)
    requires var rec := Rec(m, st.pc.s); st.pc.w == rec.contract && st.pc.x == rec.extra && st.pc.r == rec.request
    requires st' == st.(mem := AnswerRegion(st.cfg, m, st.pc.s), pc := Scan(st.pc.s + 1))
    ensures Reaches(st, st')
  {
    var s := st.pc.s;
    AnswerIgnoresError(st.cfg, m, s, 0);
    FilledIsAnswer(st.cfg, st.mem, s);
    FilledShape(st.cfg, st.mem, s, st.pc.w, st.pc.x, st.pc.i);
    PublishRuns(st, Filled(st.cfg, st.mem, s, st.pc.w, st.pc.x, st.pc.i), st');
  }

  // ---- from the pending request to the verdict ----

  /** A pending request is snapshotted before anything is decided. */
  lemma SnapshotRuns(st: State, st': State)
    requires Ready(st) && st.pc.Scan? && st.pc.s < CLIENTS && Pending(st.mem, st.pc.s)
    requires var rec := Rec(st.mem, st.pc.s); st' == st.(pc := Check(st.pc.s, rec.request, rec.contract))
    ensures Reaches(st, st')
  {
    var loaded := OwnerStep(st);
    ReachesOne(st);
    var copying := OwnerStep(loaded);
    ReachesOne(loaded);
    ReachesThen(st, loaded, copying);
    CopyRuns(copying, st');
    ReachesThen(st, copying, st');
  }

  /** A rejected request is completed with the error and nothing else. */
  lemma RejectRuns(st: State, st': State)
    requires Ready(st) && st.pc.Finish? && Rec(st.mem, st.pc.s).request == st.pc.r
    requires var rec := Rec(st.mem, st.pc.s);
      st' == st.(mem := SetRec(st.mem, st.pc.s, rec.(complete := rec.request)), pc := Scan(st.pc.s + 1))
    ensures Reaches(st, st')
  {
    ReachesOne(st);
  }

  ghost predicate BaseOk(cfg: Config, rec: Page)
    requires rec.Slot?
  {
    && BaseAccepted(cfg, rec.request, rec.contract, rec.reserved)
    && (cfg.profile == PROFILE_SOCIAL ==> ManifestAccepted(cfg))
  }

  /** The owner has just snapshotted the pending contract of slot `s`. */
  ghost predicate Snapshotted(st: State, s: nat) {
    && Ready(st) && s < CLIENTS
    && st.pc == Check(s, Rec(st.mem, s).request, Rec(st.mem, s).contract)
  }

  ghost function Polled(st: State, s: nat): (r: State)
    requires Shape(st) && s < CLIENTS
  {
    st.(mem := PollSlot(st.cfg, st.mem, s), pc := Scan(s + 1))
  }

  lemma BadBaseRuns(st: State, s: nat)
    requires Snapshotted(st, s) && Pending(st.mem, s) && !BaseOk(st.cfg, Rec(st.mem, s))
    ensures Reaches(st, Polled(st, s))
  {
    var next := OwnerStep(st);
    ReachesOne(st);
    RecordWriteIsLocal(st.mem, s, Rec(next.mem, s));
    var st' := Polled(st, s);
    assert st'.mem == SetRec(next.mem, s, Rec(next.mem, s).(complete := Rec(next.mem, s).request));
    RejectRuns(next, st');
    ReachesThen(st, next, st');
  }

  lemma PlainRuns(st: State, s: nat)
    requires Snapshotted(st, s) && Pending(st.mem, s) && BaseOk(st.cfg, Rec(st.mem, s)) && !UsesExtra(st.cfg)
    ensures Reaches(st, Polled(st, s))
  {
    var next := OwnerStep(st);
    ReachesOne(st);
    RecordWriteIsLocal(st.mem, s, Rec(next.mem, s));
    AcceptedRuns(next, st.mem, Polled(st, s));
    ReachesThen(st, next, Polled(st, s));
  }

  /** With the extension, the extra contract is snapshotted after the base contract is accepted. */
  lemma ExtraSnapshotRuns(st: State, s: nat, st': State)
    requires Snapshotted(st, s) && BaseOk(st.cfg, Rec(st.mem, s)) && UsesExtra(st.cfg)
    requires st' == st.(mem := Cleared(st.mem, s), pc := CheckExtra(s, st.pc.r, st.pc.w, Rec(st.mem, s).extra))
    ensures Reaches(st, st')
  {
    var next := OwnerStep(st);
    ReachesOne(st);
    RecordWriteIsLocal(st.mem, s, Rec(next.mem, s));
    CopyExtraRuns(next, st');
    ReachesThen(st, next, st');
  }

  lemma ExtraRuns(st: State, s: nat)
    requires Snapshotted(st, s) && Pending(st.mem, s) && BaseOk(st.cfg, Rec(st.mem, s)) && UsesExtra(st.cfg)
    ensures Reaches(st, Polled(st, s))
  {
    var rec, st' := Rec(st.mem, s), Polled(st, s);
    var mid := st.(mem := Cleared(st.mem, s), pc := CheckExtra(s, st.pc.r, st.pc.w, rec.extra));
    ExtraSnapshotRuns(st, s, mid);
    RecordWriteIsLocal(st.mem, s, Rec(mid.mem, s));
    var next := OwnerStep(mid);
    ReachesOne(mid);
    ReachesThen(st, mid, next);
    if AllExtraAccepted(rec.contract, rec.extra) {
      AcceptedRuns(next, st.mem, st');
    } else {
      RecordWriteIsLocal(mid.mem, s, Rec(next.mem, s));
      assert st'.mem == SetRec(next.mem, s, Rec(next.mem, s).(complete := Rec(next.mem, s).request));
      RejectRuns(next, st');
    }
    ReachesThen(st, next, st');
  }

  lemma IdleRuns(st: State, s: nat)
    requires Ready(st) && st.pc == Scan(s) && s < CLIENTS && !Pending(st.mem, s)
    ensures Reaches(st, Polled(st, s))
  {
    var loaded := OwnerStep(st);
    ReachesOne(st);
    ReachesOne(loaded);
    ReachesThen(st, loaded, OwnerStep(loaded));
  }

  /** One slot: whatever is in it, the owner's steps end in exactly what `PollSlot` says. */
  lemma SlotRuns(st: State, s: nat)
    requires Ready(st) && st.pc == Scan(s) && s < CLIENTS
    ensures Reaches(st, Polled(st, s))
  {
    if !Pending(st.mem, s) {
      IdleRuns(st, s);
    } else {
      var rec := Rec(st.mem, s);
      var mid := st.(pc := Check(s, rec.request, rec.contract));
      SnapshotRuns(st, mid);
      if !BaseOk(st.cfg, rec) { BadBaseRuns(mid, s); }
      else if UsesExtra(st.cfg) { ExtraRuns(mid, s); }
      else { PlainRuns(mid, s); }
      ReachesThen(st, mid, Polled(st, s));
    }
  }

  lemma {:induction false} SlotsRun(st: State, n: nat, st': State)
    requires Ready(st) && st.pc == Scan(0) && n <= CLIENTS
    requires st' == st.(mem := PollAll(st.cfg, st.mem, n), pc := Scan(n))
    ensures Reaches(st, st')
  {
    if n == 0 {
      ReachesSelf(st);
    } else {
      var mid := st.(mem := PollAll(st.cfg, st.mem, n - 1), pc := Scan(n - 1));
      SlotsRun(st, n - 1, mid);
      PollAllWellFormed(st.cfg, st.mem, n - 1);
      SlotRuns(mid, n - 1);
      ReachesThen(st, mid, st');
    }
  }

  /**
    An owner left alone finishes its poll in finitely many steps, and the region it leaves is exactly
    the one the whole-poll specification gives, from any well-formed region.
  */
  lemma PollRuns(st: State)
    requires Ready(st) && st.pc == Asleep
    ensures Reaches(st, st.(mem := PollAll(st.cfg, st.mem, CLIENTS)))
  {
    var awake := OwnerStep(st);
    ReachesOne(st);
    var done := awake.(mem := PollAll(st.cfg, st.mem, CLIENTS), pc := Scan(CLIENTS));
    SlotsRun(awake, CLIENTS, done);
    ReachesThen(st, awake, done);
    PollAllWellFormed(st.cfg, st.mem, CLIENTS);
    ReachesOne(done);
    ReachesThen(st, done, OwnerStep(done));
  }
}
