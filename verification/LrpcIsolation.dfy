/**
  What a file may do over its whole life: its role and binding never change once set, no mapping is
  ever executable, published code is writable for publishers only, and an A-stack mapping reaches
  only pages of the bound channel, so calls on one channel cannot disturb another channel's frame.
*/
module LrpcIsolation {
  import opened LrpcAbi
  import opened LrpcFile
  import opened LrpcChannel
  import opened LrpcSystem
  import opened LrpcSafety

  // ---- roles and bindings ----

  /** The file stays open from state `n` to state `m`. */
  ghost predicate OpenThroughout(r: Run, f: FileId, n: nat, m: nat)
    requires n <= m < |r.states|
  {
    forall i :: n <= i <= m ==> f in r.states[i].core.files
  }

  /** The role, once set, and the whole context, once bound, are fixed. */
  ghost predicate Settled(file: File, file': File) {
    && (file.role != RoleNone ==> file'.role == file.role)
    && (file.bound ==> file' == file)
  }

  lemma StepSettles(s: State, e: Step, f: FileId)
    requires Shape(s) && Enabled(s, e)
    requires f in s.core.files && f in Exec(s, e).0.core.files
    ensures Settled(s.core.files[f], Exec(s, e).0.core.files[f])
  {
  }

  lemma {:induction false} RoleAndBindingNeverChange(r: Run, f: FileId, n: nat, m: nat)
    requires IsRun(r) && n <= m < |r.states| && OpenThroughout(r, f, n, m)
    ensures Settled(r.states[n].core.files[f], r.states[m].core.files[f])
  {
    if n < m {
      RoleAndBindingNeverChange(r, f, n, m - 1);
      assert StepOk(r.states[m - 1], r.steps[m - 1], r.states[m]);
      StepSettles(r.states[m - 1], r.steps[m - 1], f);
    }
  }

  // ---- mappings ----

  /** What a live mapping may reach, given its file and the A-stack pages. */
  ghost predicate GrantOk(files: map<FileId, File>, mem: Memory, g: Grant)
    requires MemShape(mem)
  {
    && !g.req.exec
    && g.file in files
    && !g.decision.Refused?
    && (g.decision.AStackPages? ==>
          && files[g.file].bound
          && files[g.file].procIndex < MAX_PROCS
          && 0 < g.decision.npages <= ASTACK_NPAGES
          && g.decision.npages * PAGE_SIZE == g.req.len
          && g.pages == mem.astack[files[g.file].procIndex][..g.decision.npages])
    && (g.decision.BarRange? ==>
          && g.pages == []
          && g.decision.off + g.decision.len <= mem.barSize
          && g.decision.off >= CODE_OFFSET
          && (Overlaps(g.decision.off, g.decision.len, CODE_OFFSET, CODE_SIZE) && g.req.write ==>
                files[g.file].role == Publisher))
  }

  ghost predicate GrantsOk(s: State)
    requires Shape(s)
  {
    forall id :: id in s.mem.grants ==> GrantOk(s.core.files, s.mem, s.mem.grants[id])
  }

  lemma FileStepKeepsGrants(s: State, s': State)
    requires Shape(s) && Shape(s') && GrantsOk(s)
    requires s'.mem.grants == s.mem.grants
    requires s'.mem.astack == s.mem.astack && s'.mem.barSize == s.mem.barSize
    requires forall id :: id in s.mem.grants ==>
      && s.mem.grants[id].file in s'.core.files
      && (s.mem.grants[id].file in s.core.files ==>
            Settled(s.core.files[s.mem.grants[id].file], s'.core.files[s.mem.grants[id].file]))
    ensures GrantsOk(s')
  {
    forall id | id in s'.mem.grants ensures GrantOk(s'.core.files, s'.mem, s'.mem.grants[id]) {
      assert GrantOk(s.core.files, s.mem, s.mem.grants[id]);
    }
  }

  lemma MapKeepsGrants(s: State, f: FileId, id: MapId, req: MapRequest)
    requires Shape(s) && GrantsOk(s) && f in s.core.files && id !in s.mem.grants
    ensures GrantsOk(s.(mem := MapStep(s.core.files[f], s.mem, f, id, req)))
  {
    MapFileIsConfined(s.core.files[f], s.mem.barSize, req);
    var mem' := MapStep(s.core.files[f], s.mem, f, id, req);
    forall g | g in mem'.grants ensures GrantOk(s.core.files, mem', mem'.grants[g]) {
      if g != id {
        assert GrantOk(s.core.files, s.mem, s.mem.grants[g]);
      }
    }
  }

  lemma OtherStepKeepsMappings(s: State, e: Step)
    requires Shape(s) && Enabled(s, e) && !e.Map? && !e.Unmap?
    ensures var mem' := Exec(s, e).0.mem;
      && mem'.grants == s.mem.grants && mem'.astack == s.mem.astack && mem'.barSize == s.mem.barSize
  {
  }

  lemma MappedFileStaysOpen(s: State, e: Step, f: FileId)
    requires Shape(s) && Enabled(s, e) && f in s.core.files && e != ReleaseFile(f)
    ensures f in Exec(s, e).0.core.files
  {
  }

  lemma OtherStepKeepsGrants(s: State, e: Step)
    requires Shape(s) && GrantsOk(s) && Enabled(s, e) && !e.Map? && !e.Unmap?
    requires Shape(Exec(s, e).0)
    ensures GrantsOk(Exec(s, e).0)
  {
    var s' := Exec(s, e).0;
    OtherStepKeepsMappings(s, e);
    forall id | id in s.mem.grants
      ensures s.mem.grants[id].file in s'.core.files
      ensures s.mem.grants[id].file in s.core.files
      ensures Settled(s.core.files[s.mem.grants[id].file], s'.core.files[s.mem.grants[id].file])
    {
      assert GrantOk(s.core.files, s.mem, s.mem.grants[id]);
      MappedFileStaysOpen(s, e, s.mem.grants[id].file);
      StepSettles(s, e, s.mem.grants[id].file);
    }
    FileStepKeepsGrants(s, s');
  }

  lemma StepKeepsGrants(s: State, e: Step)
    requires Shape(s) && GrantsOk(s) && Enabled(s, e)
    requires Shape(Exec(s, e).0)
    ensures GrantsOk(Exec(s, e).0)
  {
    match e
    case Map(f, id, req) => MapKeepsGrants(s, f, id, req);
    case Unmap(_) =>
      var s' := Exec(s, e).0;
      forall g | g in s'.mem.grants ensures GrantOk(s'.core.files, s'.mem, s'.mem.grants[g]) {
        assert GrantOk(s.core.files, s.mem, s.mem.grants[g]);
      }
    case _ => OtherStepKeepsGrants(s, e);
  }

  lemma StepKeepsAStacks(s: State, e: Step)
    requires Shape(s) && Enabled(s, e)
    ensures Exec(s, e).0.mem.astack == s.mem.astack
  {
  }

  /** In every state of every run every live mapping is confined, and the A-stack pages never move. */
  lemma {:induction false} MappingsStayConfined(r: Run, n: nat)
    requires IsRun(r) && n < |r.states|
    ensures Shape(r.states[n]) && GrantsOk(r.states[n])
    ensures r.states[n].mem.astack == r.states[0].mem.astack && DistinctPages(r.states[n].mem.astack)
  {
    if n > 0 {
      MappingsStayConfined(r, n - 1);
      assert Shape(r.states[n]) by { RunKeepsInv(r, n); }
      assert StepOk(r.states[n - 1], r.steps[n - 1], r.states[n]);
      StepKeepsGrants(r.states[n - 1], r.steps[n - 1]);
      StepKeepsAStacks(r.states[n - 1], r.steps[n - 1]);
    }
  }

  /** The k-th page of two live A-stack mappings is the same exactly if their files are bound to the same procedure. */
  lemma PeersShareTheirFrame(r: Run, n: nat, a: MapId, b: MapId, k: nat)
    requires IsRun(r) && n < |r.states| && a in r.states[n].mem.grants && b in r.states[n].mem.grants
    requires k < |r.states[n].mem.grants[a].pages| && k < |r.states[n].mem.grants[b].pages|
    ensures var s := r.states[n]; var g, h := s.mem.grants[a], s.mem.grants[b];
      && g.file in s.core.files && h.file in s.core.files
      && (g.pages[k] == h.pages[k] <==> s.core.files[g.file].procIndex == s.core.files[h.file].procIndex)
  {
    MappingsStayConfined(r, n);
    assert GrantOk(r.states[n].core.files, r.states[n].mem, r.states[n].mem.grants[a]);
    assert GrantOk(r.states[n].core.files, r.states[n].mem, r.states[n].mem.grants[b]);
  }

  /** What is stored through one mapping is on the same page of every other mapping of the procedure, and nowhere else. */
  lemma PeersSeeStores(s: State, id: MapId, k: nat, contents: PageContents, other: MapId, l: nat)
    requires Shape(s) && GrantsOk(s) && DistinctPages(s.mem.astack) && Enabled(s, Store(id, k, contents))
    requires other in s.mem.grants && l < |s.mem.grants[other].pages|
    ensures var g, h := s.mem.grants[id], s.mem.grants[other];
      var p, ram' := h.pages[l], Exec(s, Store(id, k, contents)).0.mem.ram;
      && g.file in s.core.files && h.file in s.core.files
      && (if l == k && s.core.files[g.file].procIndex == s.core.files[h.file].procIndex
          then p in ram' && ram'[p] == contents
          else (p in ram' <==> p in s.mem.ram) && (p in s.mem.ram ==> ram'[p] == s.mem.ram[p]))
  {
    assert GrantOk(s.core.files, s.mem, s.mem.grants[id]);
    assert GrantOk(s.core.files, s.mem, s.mem.grants[other]);
  }

  // ---- frames of different channels ----

  /** The step writes A-stack memory through a mapping of a file bound to channel `c`. */
  ghost predicate WritesFrame(s: State, e: Step, c: nat) {
    e.Store? && e.id in s.mem.grants && BoundTo(s.core, s.mem.grants[e.id].file, c)
  }

  ghost predicate SameFrame(mem: Memory, mem': Memory, c: nat)
    requires c < |mem.astack|
  {
    forall k :: 0 <= k < |mem.astack[c]| ==>
      var p := mem.astack[c][k];
      (p in mem.ram <==> p in mem'.ram) && (p in mem.ram ==> mem.ram[p] == mem'.ram[p])
  }

  lemma StepKeepsOtherFrames(s: State, e: Step, c: nat)
    requires Shape(s) && GrantsOk(s) && DistinctPages(s.mem.astack) && Enabled(s, e) && c < MAX_PROCS
    requires !WritesFrame(s, e, c)
    ensures SameFrame(s.mem, Exec(s, e).0.mem, c)
  {
    if e.Store? {
      var g := s.mem.grants[e.id];
      assert GrantOk(s.core.files, s.mem, g);
      var d := s.core.files[g.file].procIndex;
      assert d != c && g.pages[e.k] == s.mem.astack[d][e.k];
    }
  }

  lemma RunStepKeepsFrame(r: Run, c: nat, i: nat)
    requires IsRun(r) && i < |r.steps| && c < MAX_PROCS && !WritesFrame(r.states[i], r.steps[i], c)
    ensures c < |r.states[i].mem.astack| && r.states[i + 1].mem.astack == r.states[i].mem.astack
    ensures SameFrame(r.states[i].mem, r.states[i + 1].mem, c)
  {
    MappingsStayConfined(r, i);
    assert StepOk(r.states[i], r.steps[i], r.states[i + 1]);
    StepKeepsOtherFrames(r.states[i], r.steps[i], c);
    StepKeepsAStacks(r.states[i], r.steps[i]);
  }

  /**
    A nested call is invisible to the frames of other channels: over any stretch of any run in which
    no store goes through a mapping of a file bound to channel `c`, whatever calls, returns, maps
    and stores happen elsewhere, the A-stack frame of `c` is the same at both ends.
  */
  lemma {:induction false} OtherChannelsKeepFrame(r: Run, c: nat, n: nat, m: nat)
    requires IsRun(r) && n <= m < |r.states| && c < MAX_PROCS
    requires forall i :: n <= i < m ==> !WritesFrame(r.states[i], r.steps[i], c)
    ensures c < |r.states[n].mem.astack| && r.states[m].mem.astack == r.states[n].mem.astack
    ensures SameFrame(r.states[n].mem, r.states[m].mem, c)
  {
    if n == m {
      assert c < |r.states[n].mem.astack| by { MappingsStayConfined(r, n); }
    } else {
      OtherChannelsKeepFrame(r, c, n, m - 1);
      RunStepKeepsFrame(r, c, m - 1);
    }
  }
}
