/**
  What an open achieves.  With nobody interfering, an owner's open ends with memory allocated and mapped, a remote
  open with the import of its name, new or shared; one that fails on the way holds nothing when it returns.
*/
module RegistryOpens {
  import opened Common
  import opened Registry
  import opened RegistrySafety

  /** The rest of an open, given how allocation and mapping come out; a failed open closes what it has. */
  function OpenRun(s: State, u: nat, allocOk: bool, mapOk: bool, base: nat): (s': State)
    requires u < |s.users|
  {
    match s.users[u].pc
    case Attaching => CloseRun(DoAttach(s, u, allocOk, mapOk, base), u)
    case Allocating =>
      var s1 := DoAllocate(s, u, allocOk);
      if s1.users[u].pc == MappingOwn then CloseRun(DoMapOwn(s1, u, mapOk, base), u) else CloseRun(s1, u)
    case _ => s
  }

  function OpenAll(s: State, u: nat, name: string, size: nat, external: bool, asOwner: bool,
                   initOk: bool, allocOk: bool, mapOk: bool, base: nat): (s': State)
    requires u < |s.users|
  {
    OpenRun(DoOpen(s, u, name, size, external, asOwner, initOk), u, allocOk, mapOk, base)
  }

  predicate HasImport(t: seq<Import>, name: string) { exists k :: 0 <= k < |t| && t[k].name == name }

  /** The region that is open under `name`, backed by its own mapping or by an import. */
  predicate OpenRegion(r: Region, name: string, size: nat, base: nat, owner: bool, shared: Option<nat>) {
    r == Region(name, size, true, owner, true, base, shared)
  }

  // ---- owners ----

  lemma OwnerOpenCompletes(s: State, u: nat, name: string, size: nat, external: bool, initOk: bool, base: nat)
    requires Enabled(s, Open(u, name, size, external, true, initOk)) && InitOk(s.sdk, external, initOk)
    ensures var s' := OpenAll(s, u, name, size, external, true, initOk, true, true, base);
      && s'.users[u].pc == Resting && OpenRegion(s'.users[u].region, name, size, base, true, None)
      && s'.imports == s.imports && s'.live == s.live + {base} && s'.sdk.refs == s.sdk.refs + 1
      && s'.ledger.allocs == s.ledger.allocs + 1 && s'.ledger.deallocs == s.ledger.deallocs
      && s'.ledger.maps == s.ledger.maps + 1 && s'.ledger.unmaps == s.ledger.unmaps
  {
  }

  // ---- remotes ----

  lemma RemoteOpenMaps(s: State, u: nat, name: string, size: nat, external: bool, initOk: bool, base: nat)
    requires Enabled(s, Open(u, name, size, external, false, initOk)) && InitOk(s.sdk, external, initOk)
    requires !HasImport(s.imports, name)
    ensures var s' := OpenAll(s, u, name, size, external, false, initOk, true, true, base);
      && s'.users[u].pc == Resting && OpenRegion(s'.users[u].region, name, size, base, false, Some(s.nextId))
      && s'.imports == [Import(s.nextId, name, base, size, 1)] + s.imports
      && s'.live == s.live + {base} && s'.sdk.refs == s.sdk.refs + 1
      && s'.ledger.allocs == s.ledger.allocs && s'.ledger.maps == s.ledger.maps + 1 && s'.ledger.unmaps == s.ledger.unmaps
  {
    assert FindName(s.imports, name) == |s.imports|;
  }

  lemma RemoteOpenJoins(s: State, u: nat, name: string, size: nat, external: bool, initOk: bool,
                        allocOk: bool, mapOk: bool, base: nat, k: nat)
    requires Enabled(s, Open(u, name, size, external, false, initOk)) && InitOk(s.sdk, external, initOk)
    requires DistinctImports(s.imports) && k < |s.imports| && s.imports[k].name == name && s.imports[k].size == size
    ensures var s' := OpenAll(s, u, name, size, external, false, initOk, allocOk, mapOk, base);
      && s'.users[u].pc == Resting
      && OpenRegion(s'.users[u].region, name, size, s.imports[k].base, false, Some(s.imports[k].id))
      && s'.imports == s.imports[k := s.imports[k].(refs := s.imports[k].refs + 1)]
      && s'.live == s.live && s'.sdk.refs == s.sdk.refs + 1
      && s'.ledger.allocs == s.ledger.allocs && s'.ledger.maps == s.ledger.maps && s'.ledger.unmaps == s.ledger.unmaps
  {
    var j := FindName(s.imports, name);
    assert j == k;
  }

  // ---- opens that fail ----

  /** A close of a region that has nothing mapped, with its allocation if it has one, up to the SDK's count. */
  lemma CloseUnmapped(s: State, u: nat)
    requires u < |s.users| && s.users[u].pc == Closing(Detach, s.users[u].region.owner) && s.sdk.refs > 0
    requires var r := s.users[u].region; r.initialized && !r.mapped && r.shared == None
    ensures var s', r := CloseRun(s, u), s.users[u].region;
      && s'.users == s.users[u := User(r.(initialized := false, owner := false), Resting)]
      && s'.imports == s.imports && s'.live == s.live && s'.sdk == FinalSdk(s.sdk)
      && s'.ledger.maps == s.ledger.maps && s'.ledger.unmaps == s.ledger.unmaps && s'.ledger.allocs == s.ledger.allocs
      && s'.ledger.deallocs == s.ledger.deallocs + Ownership(s.users[u])
  {
    var r, d := s.users[u].region, s.users[u].region.owner;
    var s1 := DoClose(s, u, true);
    assert s1.users[u] == User(r, Closing(Unmap, d));
    var s2 := DoClose(s1, u, true);
    assert s2.users[u] == User(r, Closing(Deallocate, d));
    var s3 := DoClose(s2, u, true);
    assert s3.users[u] == User(r.(owner := false), Closing(Finalize, d)) && s3.sdk == s.sdk;
    var s4 := DoClose(s3, u, true);
    assert s4.users[u] == User(r.(owner := false), Closing(Clear, d));
    var s5 := DoClose(s4, u, true);
    assert s5.users == s.users[u := User(r.(initialized := false, owner := false), Resting)];
    assert CloseRun(s5, u) == s5 && CloseRun(s4, u) == s5 && CloseRun(s3, u) == s5;
    assert CloseRun(s2, u) == s5 && CloseRun(s1, u) == s5 && CloseRun(s, u) == s5;
  }

  /** Whether the open comes to its end: the SDK is there, and the memory is allocated, mapped or already imported. */
  ghost predicate OpensWell(s: State, name: string, size: nat, external: bool, asOwner: bool,
                            initOk: bool, allocOk: bool, mapOk: bool)
  {
    && InitOk(s.sdk, external, initOk)
    && (if !asOwner && HasImport(s.imports, name)
        then exists k :: 0 <= k < |s.imports| && s.imports[k].name == name && s.imports[k].size == size
        else allocOk && mapOk)
  }

  /** The region holds nothing, and the registry is as it was before the open. */
  ghost predicate NothingHeld(s: State, s': State, u: nat)
    requires u < |s.users|
  {
    && |s'.users| == |s.users| && s'.users == s.users[u := User(s'.users[u].region, Resting)]
    && Cleared(s'.users[u].region) && !s'.users[u].region.owner
    && s'.imports == s.imports && s'.live == s.live && s'.sdk.refs == s.sdk.refs && s'.sdk.up == s.sdk.up
    && s'.ledger.maps == s.ledger.maps && s'.ledger.unmaps == s.ledger.unmaps
    && s'.ledger.allocs - s'.ledger.deallocs == s.ledger.allocs - s.ledger.deallocs
  }

  lemma FailedRemoteOpen(s: State, u: nat, name: string, size: nat, external: bool, initOk: bool,
                         allocOk: bool, mapOk: bool, base: nat)
    requires Inv(s) && Enabled(s, Open(u, name, size, external, false, initOk)) && InitOk(s.sdk, external, initOk)
    requires !OpensWell(s, name, size, external, false, initOk, allocOk, mapOk)
    ensures NothingHeld(s, OpenAll(s, u, name, size, external, false, initOk, allocOk, mapOk, base), u)
  {
    var s1 := DoOpen(s, u, name, size, external, false, initOk);
    var s2 := DoAttach(s1, u, allocOk, mapOk, base);
    assert s2.users[u].pc == Closing(Detach, false) && s2.users[u].region == s1.users[u].region;
    CloseUnmapped(s2, u);
  }

  lemma FailedOwnerOpen(s: State, u: nat, name: string, size: nat, external: bool, initOk: bool,
                        allocOk: bool, mapOk: bool, base: nat)
    requires Inv(s) && Enabled(s, Open(u, name, size, external, true, initOk)) && InitOk(s.sdk, external, initOk)
    requires !OpensWell(s, name, size, external, true, initOk, allocOk, mapOk)
    ensures NothingHeld(s, OpenAll(s, u, name, size, external, true, initOk, allocOk, mapOk, base), u)
  {
    var s1 := DoOpen(s, u, name, size, external, true, initOk);
    var s2 := DoAllocate(s1, u, allocOk);
    if allocOk {
      CloseUnmapped(DoMapOwn(s2, u, mapOk, base), u);
    } else {
      CloseUnmapped(s2, u);
    }
  }

  /**
    An open is all or nothing.  It ends with the region open under its name, as owner exactly if it was asked to be,
    when the SDK is there and the memory can be allocated and mapped or is already imported with the same size;
    otherwise the region holds nothing and everything is as before.
  */
  lemma OpenIsAllOrNothing(s: State, u: nat, name: string, size: nat, external: bool, asOwner: bool,
                           initOk: bool, allocOk: bool, mapOk: bool, base: nat)
    requires Inv(s) && Enabled(s, Open(u, name, size, external, asOwner, initOk))
    ensures var s' := OpenAll(s, u, name, size, external, asOwner, initOk, allocOk, mapOk, base);
      if OpensWell(s, name, size, external, asOwner, initOk, allocOk, mapOk)
      then s'.users[u].pc == Resting && s'.sdk.refs == s.sdk.refs + 1 &&
           var r := s'.users[u].region; OpenRegion(r, name, size, r.base, asOwner, r.shared) && (r.shared == None <==> asOwner)
      else NothingHeld(s, s', u)
  {
    if !OpensWell(s, name, size, external, asOwner, initOk, allocOk, mapOk) {
      if InitOk(s.sdk, external, initOk) {
        if asOwner { FailedOwnerOpen(s, u, name, size, external, initOk, allocOk, mapOk, base); }
        else { FailedRemoteOpen(s, u, name, size, external, initOk, allocOk, mapOk, base); }
      }
    } else if asOwner {
      OwnerOpenCompletes(s, u, name, size, external, initOk, base);
    } else if HasImport(s.imports, name) {
      var k :| 0 <= k < |s.imports| && s.imports[k].name == name && s.imports[k].size == size;
      RemoteOpenJoins(s, u, name, size, external, initOk, allocOk, mapOk, base, k);
    } else {
      RemoteOpenMaps(s, u, name, size, external, initOk, base);
    }
  }

  lemma CloseRunKeepsInv(s: State, u: nat)
    requires Inv(s) && u < |s.users|
    ensures Inv(CloseRun(s, u))
  {
    if s.users[u].pc.Closing? { RetryCompletes(s, u); }
  }

  lemma AttachRunKeepsInv(s: State, u: nat, allocOk: bool, mapOk: bool, base: nat)
    requires Inv(s) && Enabled(s, Attach(u, allocOk, mapOk, base))
    ensures Inv(CloseRun(DoAttach(s, u, allocOk, mapOk, base), u))
  {
    StepKeepsInv(s, Attach(u, allocOk, mapOk, base));
    CloseRunKeepsInv(DoAttach(s, u, allocOk, mapOk, base), u);
  }

  lemma MapRunKeepsInv(s: State, u: nat, mapOk: bool, base: nat)
    requires Inv(s) && Enabled(s, MapOwn(u, mapOk, base))
    ensures Inv(CloseRun(DoMapOwn(s, u, mapOk, base), u))
  {
    StepKeepsInv(s, MapOwn(u, mapOk, base));
    CloseRunKeepsInv(DoMapOwn(s, u, mapOk, base), u);
  }

  lemma OpenRunKeepsInv(s: State, u: nat, allocOk: bool, mapOk: bool, base: nat)
    requires Inv(s) && u < |s.users| && base !in s.live
    ensures Inv(OpenRun(s, u, allocOk, mapOk, base))
  {
    if s.users[u].pc == Attaching {
      AttachRunKeepsInv(s, u, allocOk, mapOk, base);
    } else if s.users[u].pc == Allocating {
      StepKeepsInv(s, Allocate(u, allocOk));
      var s' := DoAllocate(s, u, allocOk);
      if s'.users[u].pc == MappingOwn { MapRunKeepsInv(s', u, mapOk, base); } else { CloseRunKeepsInv(s', u); }
    }
  }

  /** All of this is steps of the registry, and keeps its invariant. */
  lemma OpenKeepsRegistry(s: State, u: nat, name: string, size: nat, external: bool, asOwner: bool,
                          initOk: bool, allocOk: bool, mapOk: bool, base: nat)
    requires Inv(s) && Enabled(s, Open(u, name, size, external, asOwner, initOk)) && base !in s.live
    ensures Inv(OpenAll(s, u, name, size, external, asOwner, initOk, allocOk, mapOk, base))
  {
    OpenKeepsInv(s, u, name, size, external, asOwner, initOk);
    OpenRunKeepsInv(DoOpen(s, u, name, size, external, asOwner, initOk), u, allocOk, mapOk, base);
  }
}
