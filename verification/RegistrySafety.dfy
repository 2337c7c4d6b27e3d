/** What every step of the registry keeps, whatever the SDK answers. */
module RegistrySafety {
  import opened Common
  import opened Registry

  // ---- counting ----

  /** This user has a reference to the SDK. */
  predicate HoldsSdk(x: User) { x.region.initialized && !(x.pc.Closing? && x.pc.stage == Clear) }

  function Holder(x: User): (n: nat) { if HoldsSdk(x) then 1 else 0 }

  function Attachment(x: User, id: nat): (n: nat) { if x.region.shared == Some(id) then 1 else 0 }

  function Holders(us: seq<User>): (n: nat) {
    if us == [] then 0 else Holder(us[0]) + Holders(us[1..])
  }

  function Attached(us: seq<User>, id: nat): (n: nat) {
    if us == [] then 0 else Attachment(us[0], id) + Attached(us[1..], id)
  }

  lemma {:induction false} HoldersUpdate(us: seq<User>, u: nat, x: User)
    requires u < |us|
    ensures Holders(us[u := x]) == Holders(us) - Holder(us[u]) + Holder(x)
  {
    if u == 0 {
      assert us[u := x][1..] == us[1..];
    } else {
      assert us[u := x][1..] == us[1..][u - 1 := x];
      HoldersUpdate(us[1..], u - 1, x);
    }
  }

  lemma {:induction false} AttachedUpdate(us: seq<User>, u: nat, x: User, id: nat)
    requires u < |us|
    ensures Attached(us[u := x], id) == Attached(us, id) - Attachment(us[u], id) + Attachment(x, id)
  {
    if u == 0 {
      assert us[u := x][1..] == us[1..];
    } else {
      assert us[u := x][1..] == us[1..][u - 1 := x];
      AttachedUpdate(us[1..], u - 1, x, id);
    }
  }

  lemma {:induction false} HolderCounts(us: seq<User>, u: nat)
    requires u < |us|
    ensures Holders(us) >= Holder(us[u])
  {
    if u > 0 { HolderCounts(us[1..], u - 1); }
  }

  lemma {:induction false} AttachmentCounts(us: seq<User>, u: nat, id: nat)
    requires u < |us|
    ensures Attached(us, id) >= Attachment(us[u], id)
  {
    if u > 0 { AttachmentCounts(us[1..], u - 1, id); }
  }

  /** Taking one user out of the picture leaves every other one counted. */
  lemma OtherHolders(us: seq<User>, u: nat, v: nat)
    requires u < |us| && v < |us| && u != v
    ensures Holders(us) >= Holder(us[u]) + Holder(us[v])
  {
    var idle := us[u].(region := us[u].region.(initialized := false));
    HoldersUpdate(us, u, idle);
    HolderCounts(us[u := idle], v);
  }

  lemma OtherAttachments(us: seq<User>, u: nat, v: nat, id: nat)
    requires u < |us| && v < |us| && u != v
    ensures Attached(us, id) >= Attachment(us[u], id) + Attachment(us[v], id)
  {
    var idle := us[u].(region := us[u].region.(shared := None));
    AttachedUpdate(us, u, idle, id);
    AttachmentCounts(us[u := idle], v, id);
  }

  lemma {:induction false} NobodyAttached(us: seq<User>, id: nat)
    requires forall u :: 0 <= u < |us| ==> us[u].region.shared != Some(id)
    ensures Attached(us, id) == 0
  {
    if us != [] { NobodyAttached(us[1..], id); }
  }

  lemma {:induction false} NobodyHolds(us: seq<User>)
    requires forall u :: 0 <= u < |us| ==> !HoldsSdk(us[u])
    ensures Holders(us) == 0
  {
    if us != [] { NobodyHolds(us[1..]); }
  }

  // ---- the invariant ----

  /** What the fields of a region say about where its thread is. */
  predicate UserOk(x: User) {
    var r := x.region;
    && (r.mapped ==> HoldsSdk(x))
    && (r.shared != None ==> r.mapped)
    && (x.pc == Attaching || x.pc == Allocating || x.pc == MappingOwn ==> r.initialized && !r.mapped)
    && (x.pc.Closing? && x.pc.stage != Detach ==> r.shared == None)
    && (x.pc.Closing? && x.pc.stage != Detach && x.pc.stage != Unmap ==> !r.mapped)
    && (x.pc.Closing? && x.pc.stage == Clear ==> r.initialized)
    && (x.pc == Attaching || x.pc == Allocating ==> !r.owner)
  }

  predicate OwnMapped(x: User) { x.region.mapped && x.region.shared == None }

  /** Every attached region points to an import that is still there, with the same base. */
  predicate PointerOk(t: seq<Import>, x: User) {
    x.region.shared != None ==>
      var k := FindId(t, x.region.shared.value);
      k < |t| && t[k].base == x.region.base
  }

  predicate DistinctImports(t: seq<Import>) {
    forall j, k | 0 <= j < k < |t| :: t[j].id != t[k].id && t[j].name != t[k].name && t[j].base != t[k].base
  }

  ghost predicate ImportsOk(s: State) {
    && DistinctImports(s.imports)
    && (forall k :: 0 <= k < |s.imports| ==>
          s.imports[k].id < s.nextId && s.imports[k].refs == Attached(s.users, s.imports[k].id) > 0)
  }

  ghost predicate UsersOk(s: State) {
    forall u :: 0 <= u < |s.users| ==> UserOk(s.users[u]) && PointerOk(s.imports, s.users[u])
  }

  /** The SDK mapping at `b` backs an import. */
  predicate ImportBacked(t: seq<Import>, b: nat) {
    exists k :: 0 <= k < |t| && t[k].base == b
  }

  /** The SDK mapping at `b` backs an owner's region. */
  predicate OwnBacked(us: seq<User>, b: nat) {
    exists u :: 0 <= u < |us| && OwnMapped(us[u]) && us[u].region.base == b
  }

  /** Live SDK mappings are exactly those in use, and nobody shares one except through an import. */
  ghost predicate LiveOk(s: State) {
    && (forall b :: b in s.live <==> ImportBacked(s.imports, b) || OwnBacked(s.users, b))
    && (forall u, v | 0 <= u < v < |s.users| && OwnMapped(s.users[u]) && OwnMapped(s.users[v]) ::
          s.users[u].region.base != s.users[v].region.base)
    && (forall u, k | 0 <= u < |s.users| && OwnMapped(s.users[u]) && 0 <= k < |s.imports| ::
          s.users[u].region.base != s.imports[k].base)
  }

  ghost predicate SdkOk(s: State) {
    && s.sdk.refs == Holders(s.users)
    && (s.sdk.up <==> s.sdk.refs > 0 && !s.sdk.external)
    && s.ledger.inits == s.ledger.finals + (if s.sdk.up then 1 else 0)
    && s.ledger.maps == s.ledger.unmaps + |s.live|
  }

  ghost predicate Inv(s: State) { UsersOk(s) && ImportsOk(s) && LiveOk(s) && SdkOk(s) }

  // ---- how one user's step shows in the parts of the invariant ----

  /** Owners' mappings after user `u` has become `x`. */
  lemma OwnBackedUpdate(us: seq<User>, u: nat, x: User, b: nat)
    requires u < |us|
    requires forall v :: 0 <= v < |us| && v != u && OwnMapped(us[v]) && OwnMapped(us[u]) ==>
               us[v].region.base != us[u].region.base
    ensures OwnBacked(us[u := x], b) <==>
      (OwnMapped(x) && x.region.base == b) || (OwnBacked(us, b) && !(OwnMapped(us[u]) && us[u].region.base == b))
  {
    var us' := us[u := x];
    if OwnMapped(x) && x.region.base == b {
      assert OwnMapped(us'[u]) && us'[u].region.base == b;
    }
    if OwnBacked(us, b) {
      var v :| 0 <= v < |us| && OwnMapped(us[v]) && us[v].region.base == b;
      assert v != u ==> us'[v] == us[v];
    }
    if OwnBacked(us', b) {
      var v :| 0 <= v < |us'| && OwnMapped(us'[v]) && us'[v].region.base == b;
      assert v != u ==> us'[v] == us[v];
    }
  }

  lemma OwnBackedUpdates(us: seq<User>, u: nat, x: User)
    requires u < |us|
    requires forall v :: 0 <= v < |us| && v != u && OwnMapped(us[v]) && OwnMapped(us[u]) ==>
               us[v].region.base != us[u].region.base
    ensures forall b :: OwnBacked(us[u := x], b) <==>
      (OwnMapped(x) && x.region.base == b) || (OwnBacked(us, b) && !(OwnMapped(us[u]) && us[u].region.base == b))
  {
    forall b: nat ensures OwnBacked(us[u := x], b) <==>
      (OwnMapped(x) && x.region.base == b) || (OwnBacked(us, b) && !(OwnMapped(us[u]) && us[u].region.base == b))
    {
      OwnBackedUpdate(us, u, x, b);
    }
  }

  // ---- steps that leave imports and mappings alone ----

  predicate SameMapping(r: Region, was: Region) {
    r.shared == was.shared && r.mapped == was.mapped && (r.mapped ==> r.base == was.base)
  }

  /** The user keeps what it is attached to and what it has mapped. */
  lemma QuietStep(s: State, s': State, u: nat, x: User)
    requires UsersOk(s) && ImportsOk(s) && LiveOk(s)
    requires u < |s.users| && s'.users == s.users[u := x] && UserOk(x) && SameMapping(x.region, s.users[u].region)
    requires s'.imports == s.imports && s'.nextId == s.nextId && s'.live == s.live
    ensures UsersOk(s') && ImportsOk(s') && LiveOk(s')
  {
    forall k | 0 <= k < |s.imports| ensures Attached(s'.users, s.imports[k].id) == Attached(s.users, s.imports[k].id) {
      AttachedUpdate(s.users, u, x, s.imports[k].id);
    }
    OwnBackedUpdates(s.users, u, x);
  }

  /** The SDK count follows the users that hold it. */
  lemma SdkStep(s: State, s': State, u: nat, x: User)
    requires SdkOk(s) && u < |s.users| && s'.users == s.users[u := x]
    requires s'.sdk == s.sdk && Holder(x) == Holder(s.users[u])
    requires s'.ledger.inits == s.ledger.inits && s'.ledger.finals == s.ledger.finals
    requires s'.ledger.maps == s'.ledger.unmaps + |s'.live|
    ensures SdkOk(s')
  {
    HoldersUpdate(s.users, u, x);
  }

  lemma OpenKeepsInv(s: State, u: nat, name: string, size: nat, external: bool, asOwner: bool, ok: bool)
    requires Inv(s) && Enabled(s, Open(u, name, size, external, asOwner, ok))
    ensures Inv(DoOpen(s, u, name, size, external, asOwner, ok))
  {
    var s' := DoOpen(s, u, name, size, external, asOwner, ok);
    QuietStep(s, s', u, s'.users[u]);
    HoldersUpdate(s.users, u, s'.users[u]);
  }

  lemma FinalizeKeepsInv(s: State, u: nat, deallocate: bool, ok: bool)
    requires Inv(s) && u < |s.users| && s.users[u].pc == Closing(Finalize, deallocate)
    ensures Inv(DoFinalize(s, u, deallocate, ok))
  {
    var s' := DoFinalize(s, u, deallocate, ok);
    QuietStep(s, s', u, s'.users[u]);
    HoldersUpdate(s.users, u, s'.users[u]);
    HolderCounts(s.users, u);
  }

  /** The ledger says the same of initializations and mappings. */
  predicate SameMaps(l: Ledger, was: Ledger) {
    l.inits == was.inits && l.finals == was.finals && l.maps == was.maps && l.unmaps == was.unmaps
  }

  /** All remaining steps that touch neither imports, mappings nor the SDK. */
  lemma PlainKeepsInv(s: State, u: nat, x: User, l: Ledger)
    requires Inv(s) && u < |s.users| && UserOk(x) && SameMapping(x.region, s.users[u].region)
    requires Holder(x) == Holder(s.users[u]) && SameMaps(l, s.ledger)
    ensures Inv(SetUser(s, u, x.region, x.pc).(ledger := l))
  {
    var s' := SetUser(s, u, x.region, x.pc).(ledger := l);
    QuietStep(s, s', u, x);
    SdkStep(s, s', u, x);
  }

  // ---- owners' mappings ----

  lemma MapOwnKeepsInv(s: State, u: nat, base: nat)
    requires Inv(s) && Enabled(s, MapOwn(u, true, base))
    ensures Inv(DoMapOwn(s, u, true, base))
  {
    var s' := DoMapOwn(s, u, true, base);
    var x := s'.users[u];
    forall k | 0 <= k < |s.imports| ensures Attached(s'.users, s.imports[k].id) == Attached(s.users, s.imports[k].id) {
      AttachedUpdate(s.users, u, x, s.imports[k].id);
    }
    OwnBackedUpdates(s.users, u, x);
    assert LiveOk(s') by {
      assert !ImportBacked(s.imports, base) && !OwnBacked(s.users, base);
    }
    SdkStep(s, s', u, x);
  }

  lemma UnmapOwnKeepsInv(s: State, u: nat, deallocate: bool)
    requires Inv(s) && u < |s.users| && s.users[u].pc == Closing(Unmap, deallocate) && s.users[u].region.mapped
    ensures Inv(DoUnmap(s, u, deallocate, true))
  {
    var s' := DoUnmap(s, u, deallocate, true);
    var x, base := s'.users[u], s.users[u].region.base;
    assert OwnMapped(s.users[u]);
    assert base in s.live by { assert OwnBacked(s.users, base); }
    forall k | 0 <= k < |s.imports| ensures Attached(s'.users, s.imports[k].id) == Attached(s.users, s.imports[k].id) {
      AttachedUpdate(s.users, u, x, s.imports[k].id);
    }
    OwnBackedUpdates(s.users, u, x);
    assert LiveOk(s') by {
      assert !ImportBacked(s.imports, base);
    }
    SdkStep(s, s', u, x);
  }

  // ---- shared imports ----

  /** In a list with distinct ids the search finds the node itself. */
  lemma FindIdIs(t: seq<Import>, k: nat)
    requires DistinctImports(t) && k < |t|
    ensures FindId(t, t[k].id) == k
  {
    var j := FindId(t, t[k].id);
    assert j <= k;
  }

  /** A pointer survives if its node is still in the list. */
  lemma KeepPointer(t: seq<Import>, t': seq<Import>, x: User, k: nat)
    requires PointerOk(t, x) && x.region.shared != None && DistinctImports(t') && k < |t'|
    requires t'[k].id == x.region.shared.value && t'[k].base == t[FindId(t, x.region.shared.value)].base
    ensures PointerOk(t', x)
  {
    FindIdIs(t', k);
  }

  /** The list with one reference count changed. */
  lemma RecountKeepsPointers(t: seq<Import>, k: nat, refs: nat, x: User)
    requires DistinctImports(t) && k < |t| && PointerOk(t, x)
    ensures var t' := t[k := t[k].(refs := refs)]; DistinctImports(t') && PointerOk(t', x)
    ensures var t' := t[k := t[k].(refs := refs)]; forall b :: ImportBacked(t', b) <==> ImportBacked(t, b)
  {
    var t' := t[k := t[k].(refs := refs)];
    if x.region.shared != None {
      KeepPointer(t, t', x, FindId(t, x.region.shared.value));
    }
    forall b: nat ensures ImportBacked(t', b) <==> ImportBacked(t, b) {
      if ImportBacked(t, b) { var j :| 0 <= j < |t| && t[j].base == b; assert t'[j].base == b; }
      if ImportBacked(t', b) { var j :| 0 <= j < |t'| && t'[j].base == b; assert t[j].base == b; }
    }
  }

  /** User `u` becomes `x`, joining or leaving import `k`, which stays with `refs` references. */
  ghost predicate Recounts(s: State, s': State, u: nat, x: User, k: nat, refs: nat) {
    && u < |s.users| && k < |s.imports|
    && s' == s.(users := s.users[u := x], imports := s.imports[k := s.imports[k].(refs := refs)])
    && UserOk(x) && !OwnMapped(x) && !OwnMapped(s.users[u])
    && (x.region.shared == None || (x.region.shared == Some(s.imports[k].id) && x.region.base == s.imports[k].base))
    && (s.users[u].region.shared == None || s.users[u].region.shared == Some(s.imports[k].id))
    && refs == s.imports[k].refs - Attachment(s.users[u], s.imports[k].id) + Attachment(x, s.imports[k].id) && refs > 0
  }

  lemma RecountUsers(s: State, s': State, u: nat, x: User, k: nat, refs: nat)
    requires UsersOk(s) && ImportsOk(s) && Recounts(s, s', u, x, k, refs)
    ensures UsersOk(s') && DistinctImports(s'.imports)
  {
    RecountKeepsPointers(s.imports, k, refs, s.users[u]);
    forall v | 0 <= v < |s'.users| ensures UserOk(s'.users[v]) && PointerOk(s'.imports, s'.users[v]) {
      if v != u {
        RecountKeepsPointers(s.imports, k, refs, s.users[v]);
      } else {
        FindIdIs(s'.imports, k);
      }
    }
  }

  lemma RecountImports(s: State, s': State, u: nat, x: User, k: nat, refs: nat)
    requires ImportsOk(s) && Recounts(s, s', u, x, k, refs) && DistinctImports(s'.imports)
    ensures ImportsOk(s')
  {
    forall j | 0 <= j < |s'.imports|
      ensures s'.imports[j].id < s'.nextId && s'.imports[j].refs == Attached(s'.users, s'.imports[j].id) > 0
    {
      AttachedUpdate(s.users, u, x, s.imports[j].id);
    }
  }

  lemma RecountLive(s: State, s': State, u: nat, x: User, k: nat, refs: nat)
    requires UsersOk(s) && ImportsOk(s) && LiveOk(s) && Recounts(s, s', u, x, k, refs)
    ensures LiveOk(s')
  {
    RecountKeepsPointers(s.imports, k, refs, s.users[u]);
    OwnBackedUpdates(s.users, u, x);
  }

  lemma RecountStep(s: State, s': State, u: nat, x: User, k: nat, refs: nat)
    requires UsersOk(s) && ImportsOk(s) && LiveOk(s) && Recounts(s, s', u, x, k, refs)
    ensures UsersOk(s') && ImportsOk(s') && LiveOk(s')
  {
    RecountUsers(s, s', u, x, k, refs);
    RecountImports(s, s', u, x, k, refs);
    RecountLive(s, s', u, x, k, refs);
  }

  lemma JoinKeepsInv(s: State, u: nat, k: nat, allocOk: bool, mapOk: bool, base: nat)
    requires Inv(s) && u < |s.users| && s.users[u].pc == Attaching
    requires k == FindName(s.imports, s.users[u].region.name) < |s.imports|
    requires s.imports[k].size == s.users[u].region.size
    ensures Inv(DoAttach(s, u, allocOk, mapOk, base))
  {
    var s' := DoAttach(s, u, allocOk, mapOk, base);
    RecountStep(s, s', u, s'.users[u], k, s.imports[k].refs + 1);
    SdkStep(s, s', u, s'.users[u]);
  }

  lemma DropKeepsInv(s: State, u: nat, deallocate: bool, k: nat, ok: bool)
    requires Inv(s) && u < |s.users| && s.users[u].pc == Closing(Detach, deallocate) && s.users[u].region.shared != None
    requires k == FindId(s.imports, s.users[u].region.shared.value) < |s.imports| && s.imports[k].refs != 1
    ensures Inv(DoDetach(s, u, deallocate, ok))
  {
    var s' := DoDetach(s, u, deallocate, ok);
    RecountStep(s, s', u, s'.users[u], k, s.imports[k].refs - 1);
    SdkStep(s, s', u, s'.users[u]);
  }

  /** A new node at the head of the list. */
  lemma PrependKeepsPointers(t: seq<Import>, m: Import, x: User)
    requires DistinctImports(t) && PointerOk(t, x)
    requires forall j :: 0 <= j < |t| ==> t[j].id != m.id && t[j].name != m.name && t[j].base != m.base
    ensures DistinctImports([m] + t) && PointerOk([m] + t, x)
  {
    if x.region.shared != None {
      KeepPointer(t, [m] + t, x, FindId(t, x.region.shared.value) + 1);
    }
  }

  lemma PrependBacks(t: seq<Import>, m: Import, b: nat)
    ensures ImportBacked([m] + t, b) <==> ImportBacked(t, b) || m.base == b
  {
    var t' := [m] + t;
    if m.base == b { assert t'[0].base == b; }
    if ImportBacked(t, b) { var j :| 0 <= j < |t| && t[j].base == b; assert t'[j + 1].base == b; }
    if ImportBacked(t', b) { var j :| 0 <= j < |t'| && t'[j].base == b; assert j > 0 ==> t[j - 1].base == b; }
  }

  lemma NewImportIsFresh(s: State, u: nat, base: nat)
    requires Inv(s) && u < |s.users| && base !in s.live
    requires FindName(s.imports, s.users[u].region.name) == |s.imports|
    ensures forall j :: 0 <= j < |s.imports| ==>
      s.imports[j].id != s.nextId && s.imports[j].name != s.users[u].region.name && s.imports[j].base != base
    ensures Attached(s.users, s.nextId) == 0
  {
    forall j | 0 <= j < |s.imports| ensures s.imports[j].base != base {
      assert ImportBacked(s.imports, s.imports[j].base);
    }
    forall v | 0 <= v < |s.users| ensures s.users[v].region.shared != Some(s.nextId) {
      assert PointerOk(s.imports, s.users[v]);
    }
    NobodyAttached(s.users, s.nextId);
  }

  ghost predicate MapsNew(s: State, u: nat, base: nat) {
    && Enabled(s, Attach(u, true, true, base))
    && FindName(s.imports, s.users[u].region.name) == |s.imports|
  }

  lemma NewImportUsers(s: State, u: nat, base: nat)
    requires Inv(s) && MapsNew(s, u, base)
    ensures UsersOk(DoAttach(s, u, true, true, base)) && ImportsOk(DoAttach(s, u, true, true, base))
  {
    var s' := DoAttach(s, u, true, true, base);
    var x, m := s'.users[u], s'.imports[0];
    NewImportIsFresh(s, u, base);
    forall v | 0 <= v < |s'.users| ensures UserOk(s'.users[v]) && PointerOk(s'.imports, s'.users[v]) {
      PrependKeepsPointers(s.imports, m, s.users[v]);
    }
    PrependKeepsPointers(s.imports, m, s.users[u]);
    AttachedUpdate(s.users, u, x, s.nextId);
    forall j | 0 <= j < |s.imports| ensures Attached(s'.users, s.imports[j].id) == Attached(s.users, s.imports[j].id) {
      AttachedUpdate(s.users, u, x, s.imports[j].id);
    }
  }

  lemma NewImportLive(s: State, u: nat, base: nat)
    requires Inv(s) && MapsNew(s, u, base)
    ensures LiveOk(DoAttach(s, u, true, true, base))
  {
    var s' := DoAttach(s, u, true, true, base);
    var x, m := s'.users[u], s'.imports[0];
    OwnBackedUpdates(s.users, u, x);
    forall b: nat ensures b in s'.live <==> ImportBacked(s'.imports, b) || OwnBacked(s'.users, b) {
      PrependBacks(s.imports, m, b);
    }
    assert !OwnBacked(s.users, base);
  }

  lemma NewImportKeepsInv(s: State, u: nat, base: nat)
    requires Inv(s) && MapsNew(s, u, base)
    ensures Inv(DoAttach(s, u, true, true, base))
  {
    NewImportUsers(s, u, base);
    NewImportLive(s, u, base);
    var s' := DoAttach(s, u, true, true, base);
    SdkStep(s, s', u, s'.users[u]);
  }

  /** The last reference belongs to the region that is leaving. */
  lemma LastReferenceIsAlone(s: State, u: nat, k: nat, v: nat)
    requires UsersOk(s) && ImportsOk(s) && u < |s.users| && s.users[u].region.shared != None
    requires k == FindId(s.imports, s.users[u].region.shared.value) < |s.imports| && s.imports[k].refs == 1
    requires v < |s.users| && v != u
    ensures s.users[v].region.shared != Some(s.imports[k].id)
  {
    OtherAttachments(s.users, u, v, s.imports[k].id);
  }

  lemma RemoveKeepsDistinct(t: seq<Import>, k: nat)
    requires DistinctImports(t) && k < |t|
    ensures DistinctImports(RemoveAt(t, k))
    ensures forall j :: 0 <= j < |t| - 1 ==> RemoveAt(t, k)[j] == t[if j < k then j else j + 1]
  {
  }

  lemma RemoveKeepsPointers(t: seq<Import>, k: nat, x: User)
    requires DistinctImports(t) && k < |t| && PointerOk(t, x) && x.region.shared != Some(t[k].id)
    ensures DistinctImports(RemoveAt(t, k)) && PointerOk(RemoveAt(t, k), x)
  {
    RemoveKeepsDistinct(t, k);
    if x.region.shared != None {
      var j := FindId(t, x.region.shared.value);
      KeepPointer(t, RemoveAt(t, k), x, if j < k then j else j - 1);
    }
  }

  lemma RemoveBacks(t: seq<Import>, k: nat, b: nat)
    requires DistinctImports(t) && k < |t|
    ensures ImportBacked(RemoveAt(t, k), b) <==> ImportBacked(t, b) && b != t[k].base
  {
    var t' := RemoveAt(t, k);
    assert forall j :: 0 <= j < |t'| ==> t'[j] == if j < k then t[j] else t[j + 1];
    if ImportBacked(t, b) && b != t[k].base {
      var j :| 0 <= j < |t| && t[j].base == b;
      assert t'[if j < k then j else j - 1].base == b;
    }
    if ImportBacked(t', b) {
      var j :| 0 <= j < |t'| && t'[j].base == b;
      assert t[if j < k then j else j + 1].base == b;
    }
  }

  /** User `u` is about to unmap import `k`, whose last reference it holds. */
  ghost predicate LeavesLast(s: State, u: nat, deallocate: bool, k: nat) {
    && u < |s.users| && s.users[u].pc == Closing(Detach, deallocate) && s.users[u].region.shared != None
    && k == FindId(s.imports, s.users[u].region.shared.value) < |s.imports| && s.imports[k].refs == 1
  }

  lemma LastDetachUsers(s: State, u: nat, deallocate: bool, k: nat)
    requires UsersOk(s) && ImportsOk(s) && LeavesLast(s, u, deallocate, k)
    ensures UsersOk(DoDetach(s, u, deallocate, true))
  {
    var s' := DoDetach(s, u, deallocate, true);
    forall v | 0 <= v < |s'.users| ensures UserOk(s'.users[v]) && PointerOk(s'.imports, s'.users[v]) {
      if v != u {
        LastReferenceIsAlone(s, u, k, v);
        RemoveKeepsPointers(s.imports, k, s.users[v]);
      }
    }
  }

  lemma LastDetachImports(s: State, u: nat, deallocate: bool, k: nat)
    requires UsersOk(s) && ImportsOk(s) && LeavesLast(s, u, deallocate, k)
    ensures ImportsOk(DoDetach(s, u, deallocate, true))
  {
    var s' := DoDetach(s, u, deallocate, true);
    var x := s'.users[u];
    RemoveKeepsPointers(s.imports, k, x);
    forall j | 0 <= j < |s'.imports|
      ensures s'.imports[j].id < s'.nextId && s'.imports[j].refs == Attached(s'.users, s'.imports[j].id) > 0
    {
      assert s'.imports[j] == if j < k then s.imports[j] else s.imports[j + 1];
      AttachedUpdate(s.users, u, x, s'.imports[j].id);
    }
  }

  lemma LastDetachLive(s: State, u: nat, deallocate: bool, k: nat)
    requires UsersOk(s) && ImportsOk(s) && LiveOk(s) && LeavesLast(s, u, deallocate, k)
    ensures s.imports[k].base in s.live && LiveOk(DoDetach(s, u, deallocate, true))
  {
    var s' := DoDetach(s, u, deallocate, true);
    var x, m := s'.users[u], s.imports[k];
    assert m.base in s.live by { assert ImportBacked(s.imports, m.base); }
    OwnBackedUpdates(s.users, u, x);
    forall b: nat ensures b in s'.live <==> ImportBacked(s'.imports, b) || OwnBacked(s'.users, b) {
      RemoveBacks(s.imports, k, b);
      assert OwnBacked(s.users, b) ==> b != m.base;
    }
  }

  lemma LastDetachKeepsInv(s: State, u: nat, deallocate: bool, k: nat)
    requires Inv(s) && LeavesLast(s, u, deallocate, k)
    ensures Inv(DoDetach(s, u, deallocate, true))
  {
    LastDetachUsers(s, u, deallocate, k);
    LastDetachImports(s, u, deallocate, k);
    LastDetachLive(s, u, deallocate, k);
    var s' := DoDetach(s, u, deallocate, true);
    SdkStep(s, s', u, s'.users[u]);
  }

  // ---- every step, every run ----

  lemma AttachKeepsInv(s: State, u: nat, allocOk: bool, mapOk: bool, base: nat)
    requires Inv(s) && Enabled(s, Attach(u, allocOk, mapOk, base))
    ensures Inv(DoAttach(s, u, allocOk, mapOk, base))
  {
    var r := s.users[u].region;
    var k := FindName(s.imports, r.name);
    if k < |s.imports| && s.imports[k].size == r.size {
      JoinKeepsInv(s, u, k, allocOk, mapOk, base);
    } else if k == |s.imports| && allocOk && mapOk {
      NewImportKeepsInv(s, u, base);
    } else {
      PlainKeepsInv(s, u, User(r, Closing(Detach, false)), s.ledger);
    }
  }

  lemma DetachKeepsInv(s: State, u: nat, deallocate: bool, ok: bool)
    requires Inv(s) && u < |s.users| && s.users[u].pc == Closing(Detach, deallocate)
    ensures Inv(DoDetach(s, u, deallocate, ok))
  {
    var r := s.users[u].region;
    if r.shared == None {
      PlainKeepsInv(s, u, User(r, Closing(Unmap, deallocate)), s.ledger);
    } else {
      assert PointerOk(s.imports, s.users[u]);
      var k := FindId(s.imports, r.shared.value);
      if s.imports[k].refs != 1 { DropKeepsInv(s, u, deallocate, k, ok); }
      else if ok { LastDetachKeepsInv(s, u, deallocate, k); }
      else { PlainKeepsInv(s, u, User(r, Resting), s.ledger); }
    }
  }

  lemma CloseKeepsInv(s: State, u: nat, ok: bool)
    requires Inv(s) && Enabled(s, CloseStage(u, ok))
    ensures Inv(DoClose(s, u, ok))
  {
    var r, d := s.users[u].region, s.users[u].pc.deallocate;
    match s.users[u].pc.stage
    case Detach => DetachKeepsInv(s, u, d, ok);
    case Unmap =>
      if r.mapped && ok { UnmapOwnKeepsInv(s, u, d); }
      else { PlainKeepsInv(s, u, User(r, if r.mapped then Resting else Closing(Deallocate, d)), s.ledger); }
    case Deallocate =>
      var s' := DoDeallocate(s, u, d, ok);
      PlainKeepsInv(s, u, s'.users[u], s'.ledger);
    case Finalize => FinalizeKeepsInv(s, u, d, ok);
    case Clear => PlainKeepsInv(s, u, User(r.(initialized := false), Resting), s.ledger);
  }

  lemma StepKeepsInv(s: State, e: Step)
    requires Inv(s) && Enabled(s, e)
    ensures Inv(Exec(s, e))
  {
    match e
    case Open(u, name, size, external, asOwner, ok) => OpenKeepsInv(s, u, name, size, external, asOwner, ok);
    case Attach(u, allocOk, mapOk, base) => AttachKeepsInv(s, u, allocOk, mapOk, base);
    case Allocate(u, ok) => PlainKeepsInv(s, u, DoAllocate(s, u, ok).users[u], DoAllocate(s, u, ok).ledger);
    case MapOwn(u, ok, base) =>
      if ok { MapOwnKeepsInv(s, u, base); } else { PlainKeepsInv(s, u, DoMapOwn(s, u, ok, base).users[u], s.ledger); }
    case StartClose(u, deallocate) => PlainKeepsInv(s, u, User(s.users[u].region, Closing(Detach, deallocate)), s.ledger);
    case CloseStage(u, ok) => CloseKeepsInv(s, u, ok);
  }

  lemma InitIsOk(s: State)
    requires Init(s)
    ensures Inv(s)
  {
    NobodyHolds(s.users);
    forall b: nat ensures !OwnBacked(s.users, b) && !ImportBacked(s.imports, b) {
    }
  }

  /** The registry invariant holds in every state of every run, whatever fails on the way. */
  lemma {:induction false} RunKeepsInv(r: Run, i: nat)
    requires IsRun(r) && i < |r.states|
    ensures Inv(r.states[i])
  {
    if i == 0 {
      InitIsOk(r.states[0]);
    } else {
      RunKeepsInv(r, i - 1);
      assert StepOk(r.states[i - 1], r.steps[i - 1], r.states[i]);
      StepKeepsInv(r.states[i - 1], r.steps[i - 1]);
    }
  }

  // ---- what it means for callers ----

  /** No attached or owning region is ever unmapped under its user's feet. */
  lemma MappedRegionsStayMapped(r: Run, i: nat, u: nat)
    requires IsRun(r) && i < |r.states| && u < |r.states[i].users| && r.states[i].users[u].region.mapped
    ensures var s := r.states[i]; var x := s.users[u];
      && x.region.base in s.live && s.sdk.refs > 0 && (s.sdk.up || s.sdk.external)
      && (x.region.shared != None ==>
            exists k :: 0 <= k < |s.imports| && s.imports[k].id == x.region.shared.value && s.imports[k].base == x.region.base)
  {
    RunKeepsInv(r, i);
    var s := r.states[i];
    var x := s.users[u];
    HolderCounts(s.users, u);
    if x.region.shared != None {
      assert PointerOk(s.imports, x);
      assert ImportBacked(s.imports, x.region.base);
    } else {
      assert OwnMapped(s.users[u]);
      assert OwnBacked(s.users, x.region.base);
    }
  }

  /** A step that hands the last owned reference back to the SDK. */
  predicate CallsFinalize(s: State, e: Step) {
    && e.CloseStage? && e.u < |s.users| && s.users[e.u].pc.Closing? && s.users[e.u].pc.stage == Finalize
    && s.users[e.u].region.initialized && LastOwned(s.sdk)
  }

  /** The SDK is asked to finalize only while it is up and no mapping remains anywhere. */
  lemma FinalizeFindsNothingMapped(s: State, e: Step)
    requires Inv(s) && CallsFinalize(s, e)
    ensures s.sdk.up && s.live == {} && s.imports == []
    ensures forall v :: 0 <= v < |s.users| ==> !s.users[v].region.mapped
  {
    forall v | 0 <= v < |s.users| ensures !s.users[v].region.mapped {
      if v != e.u { OtherHolders(s.users, e.u, v); }
    }
    forall b: nat ensures !OwnBacked(s.users, b) {
    }
    if s.imports != [] {
      NobodyAttached(s.users, s.imports[0].id);
      assert false;
    }
  }

  /**
    Everything acquired has been released exactly once when all regions are closed, but for the allocations that
    closes were told to keep: those have an owner still, or have been abandoned.
  */
  lemma NothingLeaksWhenAllClosed(r: Run, i: nat)
    requires IsRun(r) && i < |r.states|
    requires forall u :: 0 <= u < |r.states[i].users| ==> Cleared(r.states[i].users[u].region)
    ensures var s := r.states[i];
      && s.imports == [] && s.live == {} && s.sdk.refs == 0 && !s.sdk.up
      && s.ledger.maps == s.ledger.unmaps && s.ledger.inits == s.ledger.finals
      && s.ledger.allocs == s.ledger.deallocs + Owners(s.users) + s.ledger.abandoned
  {
    RunKeepsInv(r, i);
    AllocationsBalance(r, i);
    var s := r.states[i];
    NobodyHolds(s.users);
    if s.imports != [] {
      NobodyAttached(s.users, s.imports[0].id);
      assert false;
    }
    forall b: nat ensures !OwnBacked(s.users, b) {
    }
  }

  // ---- allocations ----

  function Ownership(x: User): (n: nat) { if x.region.owner then 1 else 0 }

  function Owners(us: seq<User>): (n: nat) {
    if us == [] then 0 else Ownership(us[0]) + Owners(us[1..])
  }

  lemma {:induction false} OwnersUpdate(us: seq<User>, u: nat, x: User)
    requires u < |us|
    ensures Owners(us[u := x]) == Owners(us) - Ownership(us[u]) + Ownership(x)
  {
    if u == 0 {
      assert us[u := x][1..] == us[1..];
    } else {
      assert us[u := x][1..] == us[1..][u - 1 := x];
      OwnersUpdate(us[1..], u - 1, x);
    }
  }

  lemma {:induction false} NobodyOwns(us: seq<User>)
    requires forall u :: 0 <= u < |us| ==> !us[u].region.owner
    ensures Owners(us) == 0
  {
    if us != [] { NobodyOwns(us[1..]); }
  }

  /** What has been allocated and neither deallocated nor abandoned. */
  function Outstanding(l: Ledger): (n: int) { l.allocs - l.deallocs - l.abandoned }

  /** Only user `u` changes, and its ownership changes with what is outstanding. */
  predicate MovesOwnership(s: State, s': State, u: nat) {
    && u < |s.users| == |s'.users| && s'.users == s.users[u := s'.users[u]]
    && Outstanding(s'.ledger) - Ownership(s'.users[u]) == Outstanding(s.ledger) - Ownership(s.users[u])
  }

  lemma CloseMovesOwnership(s: State, u: nat, ok: bool)
    requires Enabled(s, CloseStage(u, ok))
    ensures MovesOwnership(s, DoClose(s, u, ok), u)
  {
    var d := s.users[u].pc.deallocate;
    match s.users[u].pc.stage
    case Detach => assert MovesOwnership(s, DoDetach(s, u, d, ok), u);
    case Unmap => assert MovesOwnership(s, DoUnmap(s, u, d, ok), u);
    case Deallocate => assert MovesOwnership(s, DoDeallocate(s, u, d, ok), u);
    case Finalize => assert MovesOwnership(s, DoFinalize(s, u, d, ok), u);
    case Clear =>
  }

  lemma StepMovesOwnership(s: State, e: Step)
    requires Enabled(s, e) && UserOk(s.users[e.u])
    ensures MovesOwnership(s, Exec(s, e), e.u)
  {
    if e.CloseStage? { CloseMovesOwnership(s, e.u, e.ok); }
  }

  predicate Balanced(s: State) { Outstanding(s.ledger) == Owners(s.users) }

  lemma MoveKeepsBalance(s: State, s': State, u: nat)
    requires Balanced(s) && MovesOwnership(s, s', u)
    ensures Balanced(s')
  {
    OwnersUpdate(s.users, u, s'.users[u]);
  }

  lemma StepInRun(r: Run, i: nat)
    requires IsRun(r) && 0 < i < |r.states|
    ensures var s, e := r.states[i - 1], r.steps[i - 1];
      Enabled(s, e) && UserOk(s.users[e.u]) && r.states[i] == Exec(s, e) && MovesOwnership(s, r.states[i], e.u)
  {
    RunKeepsInv(r, i - 1);
    assert StepOk(r.states[i - 1], r.steps[i - 1], r.states[i]);
    StepMovesOwnership(r.states[i - 1], r.steps[i - 1]);
  }

  /**
    In every state of every run each allocation has been deallocated, is still owned by one region, or was
    abandoned when its region was opened again after a close that did not deallocate.
  */
  lemma {:induction false} AllocationsBalance(r: Run, i: nat)
    requires IsRun(r) && i < |r.states|
    ensures var l := r.states[i].ledger; l.allocs == l.deallocs + Owners(r.states[i].users) + l.abandoned
  {
    if i == 0 {
      NobodyOwns(r.states[0].users);
    } else {
      AllocationsBalance(r, i - 1);
      StepInRun(r, i);
      MoveKeepsBalance(r.states[i - 1], r.states[i], r.steps[i - 1].u);
    }
  }

  /** Every close asked for so far is one that deallocates. */
  predicate Deallocating(r: Run, i: nat)
    requires i <= |r.steps|
  {
    forall k :: 0 <= k < i && r.steps[k].StartClose? ==> r.steps[k].deallocate
  }

  /** Where a region may be while it owns an allocation that some close will give back. */
  predicate OwnerOk(x: User) {
    && (x.region.owner ==> x.region.initialized)
    && (x.region.owner && x.pc.Closing? ==> x.pc.deallocate && x.pc.stage != Finalize && x.pc.stage != Clear)
  }

  lemma StepKeepsOwner(s: State, e: Step)
    requires Enabled(s, e) && UserOk(s.users[e.u]) && OwnerOk(s.users[e.u]) && (e.StartClose? ==> e.deallocate)
    ensures OwnerOk(Exec(s, e).users[e.u]) && Exec(s, e).ledger.abandoned == s.ledger.abandoned
  {
    if e.CloseStage? { CloseKeepsOwner(s, e.u, e.ok); }
  }

  lemma CloseKeepsOwner(s: State, u: nat, ok: bool)
    requires Enabled(s, CloseStage(u, ok)) && OwnerOk(s.users[u])
    ensures OwnerOk(DoClose(s, u, ok).users[u]) && DoClose(s, u, ok).ledger.abandoned == s.ledger.abandoned
  {
  }

  lemma {:induction false} OwnersWillDeallocate(r: Run, i: nat)
    requires IsRun(r) && i < |r.states| && Deallocating(r, i)
    ensures r.states[i].ledger.abandoned == 0
    ensures forall u :: 0 <= u < |r.states[i].users| ==> OwnerOk(r.states[i].users[u])
  {
    if i > 0 {
      OwnersWillDeallocate(r, i - 1);
      StepInRun(r, i);
      StepKeepsOwner(r.states[i - 1], r.steps[i - 1]);
    }
  }

  /** If every close deallocates, nothing stays allocated once all regions are closed. */
  lemma NothingStaysAllocated(r: Run, i: nat)
    requires IsRun(r) && i < |r.states| && Deallocating(r, i)
    requires forall u :: 0 <= u < |r.states[i].users| ==> Cleared(r.states[i].users[u].region)
    ensures r.states[i].ledger.allocs == r.states[i].ledger.deallocs
  {
    OwnersWillDeallocate(r, i);
    NobodyOwns(r.states[i].users);
    AllocationsBalance(r, i);
  }

  function Rank(stage: Stage): (n: nat) {
    match stage
    case Detach => 5
    case Unmap => 4
    case Deallocate => 3
    case Finalize => 2
    case Clear => 1
  }

  /** The rest of a close whose SDK calls all succeed, with nobody interfering. */
  function CloseRun(s: State, u: nat): (s': State)
    requires u < |s.users|
    ensures |s'.users| == |s.users| && forall v :: 0 <= v < |s.users| && v != u ==> s'.users[v] == s.users[v]
    ensures !s.users[u].region.owner ==> !s'.users[u].region.owner
    decreases if s.users[u].pc.Closing? then Rank(s.users[u].pc.stage) else 0
  {
    if s.users[u].pc.Closing? then CloseRun(DoClose(s, u, true), u) else s
  }

  /** With the SDK cooperating, a stage either moves on or finishes with a cleared region. */
  lemma StageMovesOn(s: State, u: nat)
    requires UsersOk(s) && ImportsOk(s) && SdkOk(s) && u < |s.users| && s.users[u].pc.Closing?
    ensures var x, x' := s.users[u], DoClose(s, u, true).users[u];
      if x'.pc.Closing? then x'.pc.deallocate == x.pc.deallocate && Rank(x'.pc.stage) == Rank(x.pc.stage) - 1
      else x'.pc == Resting && Cleared(x'.region) && Rank(x.pc.stage) <= 2
    ensures s.users[u].pc.stage == Deallocate && s.users[u].pc.deallocate ==> !DoClose(s, u, true).users[u].region.owner
  {
    HolderCounts(s.users, u);
    assert PointerOk(s.imports, s.users[u]);
  }

  /**
    However many attempts failed before, a close that meets no further failure releases whatever the
    region still holds and nothing of anybody else's.
  */
  lemma {:induction false} RetryCompletes(s: State, u: nat)
    requires Inv(s) && u < |s.users| && s.users[u].pc.Closing?
    ensures var s' := CloseRun(s, u);
      && Inv(s') && s'.users[u].pc == Resting && Cleared(s'.users[u].region)
      && (s.users[u].pc.deallocate && Rank(s.users[u].pc.stage) >= 3 ==> !s'.users[u].region.owner)
    decreases Rank(s.users[u].pc.stage)
  {
    var next := DoClose(s, u, true);
    CloseKeepsInv(s, u, true);
    StageMovesOn(s, u);
    if next.users[u].pc.Closing? { RetryCompletes(next, u); }
  }
}
