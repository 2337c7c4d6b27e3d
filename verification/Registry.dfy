/**
  The reference-counted SDK and the registry of shared imports, as one state machine.  Every critical
  section and every call into the UBS Memory SDK is one step; threads working on different regions
  interleave freely and any SDK call may fail at any point.
*/
module Registry {
  import opened Common

  /** One node of the list of shared imports; `id` is the identity of the allocation. */
  datatype Import = Import(id: nat, name: string, base: nat, size: nat, refs: nat)

  datatype Region = Region(name: string, size: nat, initialized: bool, owner: bool,
                           mapped: bool, base: nat, shared: Option<nat>)

  datatype Stage = Detach | Unmap | Deallocate | Finalize | Clear

  /** What the thread that uses a region is in the middle of. */
  datatype Pc =
    | Resting
    | Attaching
    | Allocating
    | MappingOwn
    | Closing(stage: Stage, deallocate: bool)

  datatype User = User(region: Region, pc: Pc)

  /**
    What the SDK has been asked to do successfully so far, and how many allocations lost the region that
    owned them when it was opened again.
  */
  datatype Ledger = Ledger(inits: nat, finals: nat, maps: nat, unmaps: nat, allocs: nat, deallocs: nat, abandoned: nat)

  datatype Sdk = Sdk(refs: nat, external: bool, up: bool)

  datatype State = State(users: seq<User>, imports: seq<Import>, nextId: nat, sdk: Sdk,
                         live: set<nat>, ledger: Ledger)

  datatype Step =
    | Open(u: nat, name: string, size: nat, external: bool, asOwner: bool, ok: bool)
    | Attach(u: nat, allocOk: bool, mapOk: bool, base: nat)
    | Allocate(u: nat, ok: bool)
    | MapOwn(u: nat, ok: bool, base: nat)
    | StartClose(u: nat, deallocate: bool)
    | CloseStage(u: nat, ok: bool)

  // ---- the import list ----

  function FindName(t: seq<Import>, name: string): (k: nat)
    ensures k <= |t| && (k < |t| ==> t[k].name == name)
    ensures forall j :: 0 <= j < k ==> t[j].name != name
  {
    if t == [] || t[0].name == name then 0 else FindName(t[1..], name) + 1
  }

  function FindId(t: seq<Import>, id: nat): (k: nat)
    ensures k <= |t| && (k < |t| ==> t[k].id == id)
    ensures forall j :: 0 <= j < k ==> t[j].id != id
  {
    if t == [] || t[0].id == id then 0 else FindId(t[1..], id) + 1
  }

  // ---- SDK reference count ----

  /** Whether initialization succeeds, given what the SDK itself would say. */
  predicate InitOk(sdk: Sdk, external: bool, ok: bool) {
    if sdk.refs > 0 then sdk.external == external else external || ok
  }

  function InitSdk(sdk: Sdk, external: bool): (r: Sdk) {
    Sdk(sdk.refs + 1, external, sdk.up || (sdk.refs == 0 && !external))
  }

  /** Dropping one reference calls into the SDK exactly for the last reference of an owned SDK. */
  predicate LastOwned(sdk: Sdk) { sdk.refs == 1 && !sdk.external }

  predicate FinalOk(sdk: Sdk, ok: bool) { sdk.refs > 0 && (LastOwned(sdk) ==> ok) }

  function FinalSdk(sdk: Sdk): (r: Sdk)
    requires sdk.refs > 0
  {
    Sdk(sdk.refs - 1, sdk.external, sdk.up && !LastOwned(sdk))
  }

  // ---- steps ----

  predicate Cleared(r: Region) { !r.initialized && !r.mapped && r.shared == None }

  predicate Enabled(s: State, e: Step) {
    e.u < |s.users| &&
    match e
    case Open(u, name, size, external, asOwner, ok) => s.users[u].pc == Resting && Cleared(s.users[u].region)
    case Attach(u, allocOk, mapOk, base) => s.users[u].pc == Attaching && base !in s.live
    case Allocate(u, ok) => s.users[u].pc == Allocating
    case MapOwn(u, ok, base) => s.users[u].pc == MappingOwn && base !in s.live
    case StartClose(u, deallocate) => s.users[u].pc == Resting
    case CloseStage(u, ok) => s.users[u].pc.Closing?
  }

  function SetUser(s: State, u: nat, r: Region, pc: Pc): (s': State)
    requires u < |s.users|
  {
    s.(users := s.users[u := User(r, pc)])
  }

  function DoOpen(s: State, u: nat, name: string, size: nat, external: bool, asOwner: bool, ok: bool): (s': State)
    requires u < |s.users|
  {
    var blank := Region(name, size, false, false, false, 0, None);
    var l := s.ledger.(abandoned := s.ledger.abandoned + if s.users[u].region.owner then 1 else 0);
    if InitOk(s.sdk, external, ok) then
      SetUser(s, u, blank.(initialized := true), if asOwner then Allocating else Attaching)
        .(sdk := InitSdk(s.sdk, external),
          ledger := l.(inits := l.inits + if s.sdk.refs == 0 && !external then 1 else 0))
    else SetUser(s, u, blank, Resting).(ledger := l)
  }

  /** What a critical section does to the import list and to the region that runs it. */
  datatype Outcome = Outcome(imports: seq<Import>, region: Region, ok: bool, sdkCall: bool)

  /** A region opened remotely joins an import of its name, or maps a new one. */
  function AttachTo(t: seq<Import>, r: Region, id: nat, mapOk: bool, base: nat): (o: Outcome) {
    var k := FindName(t, r.name);
    if k < |t| then
      if t[k].size != r.size then Outcome(t, r, false, false)
      else Outcome(t[k := t[k].(refs := t[k].refs + 1)],
                   r.(base := t[k].base, mapped := true, shared := Some(t[k].id)), true, false)
    else if !mapOk then Outcome(t, r, false, false)
    else Outcome([Import(id, r.name, base, r.size, 1)] + t,
                 r.(base := base, mapped := true, shared := Some(id)), true, true)
  }

  function DoAttach(s: State, u: nat, allocOk: bool, mapOk: bool, base: nat): (s': State)
    requires u < |s.users|
  {
    var o := AttachTo(s.imports, s.users[u].region, s.nextId, allocOk && mapOk, base);
    var s' := SetUser(s, u, o.region, if o.ok then Resting else Closing(Detach, false)).(imports := o.imports);
    if o.sdkCall
    then s'.(nextId := s.nextId + 1, live := s.live + {base}, ledger := s.ledger.(maps := s.ledger.maps + 1))
    else s'
  }

  function DoAllocate(s: State, u: nat, ok: bool): (s': State)
    requires u < |s.users|
  {
    var r := s.users[u].region;
    if ok then
      SetUser(s, u, r.(owner := true), MappingOwn).(ledger := s.ledger.(allocs := s.ledger.allocs + 1))
    else SetUser(s, u, r, Closing(Detach, r.owner))
  }

  function DoMapOwn(s: State, u: nat, ok: bool, base: nat): (s': State)
    requires u < |s.users|
  {
    var r := s.users[u].region;
    if !ok then SetUser(s, u, r, Closing(Detach, r.owner))
    else SetUser(s, u, r.(base := base, mapped := true), Resting)
           .(live := s.live + {base}, ledger := s.ledger.(maps := s.ledger.maps + 1))
  }

  /**
    Leaving a shared import: the last region unmaps it, the others only drop their reference.  A
    pointer to no node and a count of zero never occur; the branches for them change nothing.
  */
  function DetachFrom(t: seq<Import>, r: Region, unmapOk: bool): (o: Outcome)
    requires r.shared != None
  {
    var k, left := FindId(t, r.shared.value), r.(shared := None, mapped := false, base := 0);
    if k == |t| || t[k].refs == 0 then Outcome(t, r, false, false)
    else if t[k].refs != 1 then Outcome(t[k := t[k].(refs := t[k].refs - 1)], left, true, false)
    else if !unmapOk then Outcome(t, r, false, false)
    else Outcome(RemoveAt(t, k), left, true, true)
  }

  function DoDetach(s: State, u: nat, deallocate: bool, ok: bool): (s': State)
    requires u < |s.users|
  {
    var r := s.users[u].region;
    if r.shared == None then SetUser(s, u, r, Closing(Unmap, deallocate))
    else
      var o := DetachFrom(s.imports, r, ok);
      var s' := SetUser(s, u, o.region, if o.ok then Closing(Unmap, deallocate) else Resting).(imports := o.imports);
      if o.sdkCall
      then s'.(live := s.live - {s.imports[FindId(s.imports, r.shared.value)].base},
               ledger := s.ledger.(unmaps := s.ledger.unmaps + 1))
      else s'
  }

  function DoUnmap(s: State, u: nat, deallocate: bool, ok: bool): (s': State)
    requires u < |s.users|
  {
    var r := s.users[u].region;
    if !r.mapped then SetUser(s, u, r, Closing(Deallocate, deallocate))
    else if !ok then SetUser(s, u, r, Resting)
    else SetUser(s, u, r.(mapped := false, base := 0), Closing(Deallocate, deallocate))
           .(live := s.live - {r.base}, ledger := s.ledger.(unmaps := s.ledger.unmaps + 1))
  }

  function DoDeallocate(s: State, u: nat, deallocate: bool, ok: bool): (s': State)
    requires u < |s.users|
  {
    var r := s.users[u].region;
    if !(deallocate && r.owner) then SetUser(s, u, r, Closing(Finalize, deallocate))
    else if !ok then SetUser(s, u, r, Resting)
    else SetUser(s, u, r.(owner := false), Closing(Finalize, deallocate))
           .(ledger := s.ledger.(deallocs := s.ledger.deallocs + 1))
  }

  function DoFinalize(s: State, u: nat, deallocate: bool, ok: bool): (s': State)
    requires u < |s.users|
  {
    var r := s.users[u].region;
    if !r.initialized || !FinalOk(s.sdk, ok) then SetUser(s, u, r, Resting)
    else SetUser(s, u, r, Closing(Clear, deallocate))
           .(sdk := FinalSdk(s.sdk),
             ledger := s.ledger.(finals := s.ledger.finals + if LastOwned(s.sdk) then 1 else 0))
  }

  function DoClose(s: State, u: nat, ok: bool): (s': State)
    requires u < |s.users| && s.users[u].pc.Closing?
  {
    var d := s.users[u].pc.deallocate;
    match s.users[u].pc.stage
    case Detach => DoDetach(s, u, d, ok)
    case Unmap => DoUnmap(s, u, d, ok)
    case Deallocate => DoDeallocate(s, u, d, ok)
    case Finalize => DoFinalize(s, u, d, ok)
    case Clear => SetUser(s, u, s.users[u].region.(initialized := false), Resting)
  }

  function Exec(s: State, e: Step): (s': State)
    requires Enabled(s, e)
  {
    match e
    case Open(u, name, size, external, asOwner, ok) => DoOpen(s, u, name, size, external, asOwner, ok)
    case Attach(u, allocOk, mapOk, base) => DoAttach(s, u, allocOk, mapOk, base)
    case Allocate(u, ok) => DoAllocate(s, u, ok)
    case MapOwn(u, ok, base) => DoMapOwn(s, u, ok, base)
    case StartClose(u, deallocate) => SetUser(s, u, s.users[u].region, Closing(Detach, deallocate))
    case CloseStage(u, ok) => DoClose(s, u, ok)
  }

  predicate Init(s: State) {
    && (forall u :: 0 <= u < |s.users| ==>
          s.users[u].pc == Resting && Cleared(s.users[u].region) && !s.users[u].region.owner)
    && s.imports == [] && s.sdk.refs == 0 && !s.sdk.up && s.live == {} && s.ledger == Ledger(0, 0, 0, 0, 0, 0, 0)
  }

  datatype Run = Run(states: seq<State>, steps: seq<Step>)

  ghost predicate StepOk(s: State, e: Step, s': State) { Enabled(s, e) && s' == Exec(s, e) }

  ghost predicate IsRun(r: Run) {
    && |r.states| == |r.steps| + 1 && Init(r.states[0])
    && forall i :: 0 <= i < |r.steps| ==> StepOk(r.states[i], r.steps[i], r.states[i + 1])
  }
}
