/** What a connection finds on the page it may write, and where its writes go, in every interleaved run. */
module PoolWrites {
  import opened PoolLayout
  import opened PageTables
  import opened PoolRegion
  import opened PoolProtocol
  import opened PoolSafety
  import opened PoolRuns
  import opened PoolTheorems

  /** B has cleared the write page for request `r` of slot `s`, or has already answered it without error. */
  ghost predicate PastClearing(st: State, s: nat, r: Word)
    requires Shape(st) && s < CLIENTS
  {
    var rec := Rec(st.mem, s);
    && rec.request == r && r != 0 && rec.error == 0
    && (|| rec.complete == r
        || (st.pc.Build? && st.pc.s == s && st.pc.i > 0)
        || (st.pc.Bump? && st.pc.s == s)
        || (st.pc.Finish? && st.pc.s == s))
  }

  ghost predicate Cleared(st: State, s: nat, r: Word)
    requires Shape(st) && s < CLIENTS
  {
    st.cfg.profile == PROFILE_SOCIAL_WRITE && PastClearing(st, s, r) ==> st.mem[WritePage(s)] == Data(Zeroes())
  }

  lemma BuildClears(st: State, s: nat, r: Word)
    requires Inv(st) && st.pc.Build? && Shape(OwnerStep(st)) && s < CLIENTS && Cleared(st, s, r)
    ensures Cleared(OwnerStep(st), s, r)
  {
    var p := BuildPage(st.pc.s, st.pc.i);
    if st.pc.s != s { LayoutIsDisjoint(st.pc.s, s, p); }
    assert OwnedBy(s, WritePage(s)) && OwnedBy(s, SlotPage(s));
    assert Rec(OwnerStep(st).mem, s) == Rec(st.mem, s);
  }

  lemma OwnerClears(st: State, s: nat, r: Word)
    requires Inv(st) && Shape(OwnerStep(st)) && s < CLIENTS && Cleared(st, s, r)
    ensures Cleared(OwnerStep(st), s, r)
  {
    if st.pc.Build? {
      BuildClears(st, s, r);
    } else {
      assert OwnerStep(st).mem[WritePage(s)] == st.mem[WritePage(s)];
    }
  }

  lemma ClientKeepsClear(st: State, e: Step, s: nat, r: Word)
    requires Inv(st) && Enabled(st, e) && !e.OwnerTurn? && Shape(Exec(st, e)) && s < CLIENTS && Cleared(st, s, r)
    requires !(e.ServiceWrite? && e.n == r)
    ensures Cleared(Exec(st, e), s, r)
  {
  }

  lemma ClearInRun(run: Run, k: nat, s: nat, r: Word)
    requires IsRun(run) && k < |run.steps| && s < CLIENTS && !(run.steps[k].ServiceWrite? && run.steps[k].n == r)
    requires Shape(run.states[k]) && Cleared(run.states[k], s, r)
    ensures Shape(run.states[k + 1]) && Cleared(run.states[k + 1], s, r)
  {
    RunKeepsInv(run, k);
    RunKeepsInv(run, k + 1);
    assert StepOk(run.states[k], run.steps[k], run.states[k + 1]);
    if run.steps[k].OwnerTurn? { OwnerClears(run.states[k], s, r); } else { ClientKeepsClear(run.states[k], run.steps[k], s, r); }
  }

  lemma {:induction false} ClearThroughout(run: Run, i: nat, s: nat, r: Word)
    requires IsRun(run) && i < |run.states| && s < CLIENTS
    requires forall k :: 0 <= k < i ==> !(run.steps[k].ServiceWrite? && run.steps[k].n == r)
    ensures Shape(run.states[i]) && Cleared(run.states[i], s, r)
  {
    if i > 0 {
      ClearThroughout(run, i - 1, s, r);
      ClearInRun(run, i - 1, s, r);
    }
  }

  /**
    A new connection of a pool with private write pages finds its page all zero, whoever had the slot before and
    whatever they wrote, until it writes itself.
  */
  lemma NewConnectionFindsZeroes(run: Run, i: nat, n: Word)
    requires IsRun(run) && i < |run.states| && Live(run.states[i], n) && run.states[i].cfg.profile == PROFILE_SOCIAL_WRITE
    requires forall k :: 0 <= k < i ==> !(run.steps[k].ServiceWrite? && run.steps[k].n == n)
    ensures run.states[i].sessions[n].slot < CLIENTS
    ensures run.states[i].mem[WritePage(run.states[i].sessions[n].slot)] == Data(Zeroes())
  {
    RunKeepsInv(run, i);
    assert SessionInv(run.states[i], n);
    ClearThroughout(run, i, run.states[i].sessions[n].slot, n);
  }

  /** A service's write changes the page it was granted and no other: its own, or the one all connections share. */
  lemma WritesLandWhereGranted(st: State, n: Word, words: Table, p: nat)
    requires Inv(st) && Enabled(st, ServiceWrite(n, words)) && p < PAGES
    ensures st.cfg.profile == PROFILE_SOCIAL_WRITE || st.cfg.profile == PROFILE_SOCIAL_SHARED
    ensures var granted := if st.cfg.profile == PROFILE_SOCIAL_WRITE then WritePage(st.sessions[n].slot) else SHARED_PAGE;
      Exec(st, ServiceWrite(n, words)).mem[p] == if p == granted then Data(words) else st.mem[p]
  {
  }
}
