/**
  The procedure table an owner publishes in the shared region, and how a reader finds a procedure in it
  and makes a private copy of its code.
*/
module ProcedureTable {
  import opened Common
  import opened CodeHash

  const DATA_OFFSET: nat := 0x1_0000
  const SERVICE_SLOT_SIZE: nat := 0x1_0000
  const CODE_SLOT_SIZE: nat := 0x1_0000
  const MAX_PROCS: nat := 16
  const CODE_OFFSET: nat := 0x11_0000     // DATA_OFFSET + MAX_PROCS * SERVICE_SLOT_SIZE
  const METADATA_SIZE: nat := 1064        // sizeof(struct lrpc_ubsm_metadata)
  const MAGIC: nat := 0x55424c5250434d45
  const ABI_VERSION: nat := 3
  const LOCAL_CODE: nat := 1
  const PUBLISHED_CODE: nat := 2

  datatype Proc = Proc(id: nat, flags: nat, dataOffset: nat, dataSize: nat, codeOffset: nat, codeSize: nat,
                       entry: nat, hash: u64, epoch: nat)

  datatype Meta = Meta(magic: nat, epoch: nat, regionSize: nat, abi: nat, numProcs: nat, ready: bool, procs: seq<Proc>)

  /** What the owner asks to publish; `code` is absent for a null pointer. */
  datatype Service = Service(id: nat, flags: nat, code: Option<seq<byte>>, codeSize: nat, entry: nat)

  const NO_PROC: Proc := Proc(0, 0, 0, 0, 0, 0, 0, 0, 0)

  // ---- addresses ----

  /** `length` bytes at `offset` lie inside the region. */
  predicate InRegion(size: nat, offset: nat, length: nat) {
    length > 0 && offset <= size && length <= size - offset
  }

  function DataAt(id: nat): (o: nat)
    requires id > 0
  {
    DATA_OFFSET + (id - 1) * SERVICE_SLOT_SIZE
  }

  function CodeAt(id: nat): (o: nat)
    requires id > 0
  {
    CODE_OFFSET + (id - 1) * CODE_SLOT_SIZE
  }

  // ---- what may be published ----

  /** The caller passes as many bytes as it announces. */
  predicate Readable(s: Service) { s.code.Some? ==> |s.code.value| == s.codeSize }

  predicate CodeAcceptable(s: Service, size: nat)
    requires s.id > 0
  {
    if s.flags == LOCAL_CODE then s.code.None? && s.codeSize == 0 && s.entry == 0
    else
      && s.flags == PUBLISHED_CODE && s.code.Some? && s.codeSize > 0 && s.codeSize % 4 == 0
      && s.codeSize <= CODE_SLOT_SIZE && s.entry % 4 == 0 && s.entry < s.codeSize
      && InRegion(size, CodeAt(s.id), s.codeSize)
  }

  predicate Acceptable(services: seq<Service>, i: nat, size: nat)
    requires i < |services|
  {
    var s := services[i];
    && 0 < s.id <= MAX_PROCS && (forall j :: 0 <= j < i ==> services[j].id != s.id)
    && InRegion(size, DataAt(s.id), SERVICE_SLOT_SIZE) && CodeAcceptable(s, size)
  }

  predicate AllAcceptable(services: seq<Service>, size: nat) {
    forall i :: 0 <= i < |services| ==> Acceptable(services, i, size)
  }

  /** The arguments are good enough for the metadata to be touched at all. */
  predicate Started(owner: bool, mapped: bool, size: nat, epoch: nat, services: seq<Service>) {
    owner && mapped && epoch != 0 && 0 < |services| <= MAX_PROCS && size >= METADATA_SIZE
  }

  function Described(s: Service, epoch: nat): (p: Proc)
    requires s.id > 0 && s.flags == PUBLISHED_CODE ==> s.code.Some?
  {
    if s.id == 0 then NO_PROC
    else if s.flags == PUBLISHED_CODE then
      Proc(s.id, s.flags, DataAt(s.id), SERVICE_SLOT_SIZE, CodeAt(s.id), s.codeSize, s.entry, Hash(s.code.value), epoch)
    else Proc(s.id, s.flags, DataAt(s.id), SERVICE_SLOT_SIZE, 0, 0, 0, 0, epoch)
  }

  // ---- what a reader accepts ----

  predicate ProcValid(p: Proc, size: nat, epoch: nat) {
    && 0 < p.id <= MAX_PROCS && p.epoch == epoch
    && p.dataOffset == DataAt(p.id) && p.dataSize <= SERVICE_SLOT_SIZE && InRegion(size, p.dataOffset, p.dataSize)
    && if p.flags == LOCAL_CODE then p.codeOffset == 0 && p.codeSize == 0 && p.entry == 0 && p.hash == 0
       else
         && p.flags == PUBLISHED_CODE && p.codeOffset == CodeAt(p.id) && p.codeSize % 4 == 0
         && p.codeSize <= CODE_SLOT_SIZE && p.entry % 4 == 0 && p.entry < p.codeSize
         && InRegion(size, p.codeOffset, p.codeSize)
  }

  datatype Lookup = Failed(errno: int) | Found(proc: Proc)

  function FindProc(procs: seq<Proc>, n: nat, id: nat): (i: nat)
    requires n <= |procs|
    ensures i <= n && (i < n ==> procs[i].id == id) && forall j :: 0 <= j < i ==> procs[j].id != id
    decreases n
  {
    if n == 0 then 0
    else
      var i := FindProc(procs, n - 1, id);
      if i < n - 1 || procs[n - 1].id == id then i else n
  }

  function LookupIn(m: Meta, mapped: bool, size: nat, id: nat, epoch: nat): (r: Lookup)
    requires |m.procs| == MAX_PROCS
  {
    if !mapped || id == 0 || epoch == 0 then Failed(EINVAL)
    else if size < METADATA_SIZE || !m.ready then Failed(EAGAIN)
    else if m.magic != MAGIC || m.abi != ABI_VERSION || m.regionSize != size || m.numProcs == 0 || m.numProcs > MAX_PROCS
    then Failed(EPROTO)
    else if m.epoch != epoch then Failed(ESTALE)
    else
      var i := FindProc(m.procs, m.numProcs, id);
      if i == m.numProcs then Failed(ENOENT)
      else if !ProcValid(m.procs[i], size, epoch) then Failed(EPROTO)
      else Found(m.procs[i])
  }

  datatype Localized = Refused(errno: int) | Local(code: seq<byte>, mappingSize: nat, entry: nat)

  /** Whole pages that hold `n` bytes. */
  function RoundUp(n: nat, page: nat): (r: nat)
    requires page > 0
    ensures n <= r < n + page && r % page == 0
  {
    var k := (n + page - 1) / page;
    assert n + page - 1 == k * page + (n + page - 1) % page;
    DivMod(k * page, page, k, 0);
    k * page
  }

  // ---- a published table ----

  /** The region holds exactly the table and the code of these services. */
  ghost predicate Published(m: Meta, mem: seq<byte>, services: seq<Service>, epoch: nat) {
    && |m.procs| == MAX_PROCS && |services| <= MAX_PROCS
    && m.magic == MAGIC && m.abi == ABI_VERSION && m.regionSize == |mem| && m.epoch == epoch
    && m.numProcs == |services| && m.ready
    && (forall i :: 0 <= i < |services| ==> Acceptable(services, i, |mem|) && m.procs[i] == Described(services[i], epoch))
    && (forall i :: 0 <= i < |services| && services[i].flags == PUBLISHED_CODE ==>
          CodeIn(mem, services[i]))
  }

  ghost predicate CodeIn(mem: seq<byte>, s: Service) {
    && s.id > 0 && s.code.Some? && |s.code.value| == s.codeSize
    && CodeAt(s.id) + s.codeSize <= |mem|
    && mem[CodeAt(s.id)..CodeAt(s.id) + s.codeSize] == s.code.value
  }

  /** Code slots of different procedures do not overlap, with each other or with metadata and data. */
  lemma SlotsAreApart(id: nat, other: nat)
    requires 0 < id <= MAX_PROCS && 0 < other <= MAX_PROCS && id < other
    ensures CodeAt(id) + CODE_SLOT_SIZE <= CodeAt(other)
    ensures METADATA_SIZE <= DataAt(id) && DataAt(other) + SERVICE_SLOT_SIZE <= CodeAt(id)
  {
  }

  lemma DescribedIsValid(s: Service, size: nat, epoch: nat)
    requires 0 < s.id <= MAX_PROCS && InRegion(size, DataAt(s.id), SERVICE_SLOT_SIZE) && CodeAcceptable(s, size)
    ensures ProcValid(Described(s, epoch), size, epoch)
  {
  }

  /**
    What a reader finds in a published table, for every id and epoch: the descriptor of exactly the
    service with that id, at that epoch only.
  */
  lemma LookupFindsPublished(m: Meta, mem: seq<byte>, services: seq<Service>, epoch: nat, id: nat, wanted: nat, i: nat)
    requires Published(m, mem, services, epoch) && |mem| >= METADATA_SIZE && |services| > 0 && id != 0 && wanted != 0
    requires i <= |services| && (i < |services| ==> services[i].id == id)
    requires i == |services| ==> forall j :: 0 <= j < |services| ==> services[j].id != id
    ensures LookupIn(m, true, |mem|, id, wanted) ==
      if wanted != epoch then Failed(ESTALE)
      else if i < |services| then Found(Described(services[i], epoch))
      else Failed(ENOENT)
  {
    var k := FindProc(m.procs, m.numProcs, id);
    forall j | 0 <= j < |services| ensures m.procs[j].id == services[j].id {
      assert Acceptable(services, j, |mem|);
    }
    if i < |services| {
      assert Acceptable(services, i, |mem|);
      DescribedIsValid(services[i], |mem|, epoch);
    }
  }

  // ---- copying code into and out of the region ----

  /** `after` is `before` with `data` at position `at`. */
  ghost predicate Patched(before: seq<byte>, after: seq<byte>, at: nat, data: seq<byte>) {
    && at + |data| <= |before| && |after| == |before|
    && after[at..at + |data|] == data
    && forall i :: 0 <= i < |before| && !(at <= i < at + |data|) ==> after[i] == before[i]
  }

  lemma PatchKeepsOtherCode(before: seq<byte>, after: seq<byte>, s: Service, t: Service)
    requires CodeIn(before, s) && 0 < s.id <= MAX_PROCS && s.codeSize <= CODE_SLOT_SIZE
    requires 0 < t.id <= MAX_PROCS && t.id != s.id && t.code.Some? && |t.code.value| <= CODE_SLOT_SIZE
    requires Patched(before, after, CodeAt(t.id), t.code.value)
    ensures CodeIn(after, s)
  {
    SlotsAreApart(if s.id < t.id then s.id else t.id, if s.id < t.id then t.id else s.id);
    var lo, hi := CodeAt(s.id), CodeAt(s.id) + s.codeSize;
    assert forall i :: lo <= i < hi ==> after[i] == before[i];
    assert after[lo..hi] == before[lo..hi];
  }

  class SharedRegion {
    const size: nat
    const mem: array<byte>
    var owner: bool
    var mapped: bool
    var meta: Meta

    ghost predicate Valid()
      reads this
    {
      mem.Length == size && |meta.procs| == MAX_PROCS
    }

    method CopyCode(at: nat, code: seq<byte>)
      requires at + |code| <= mem.Length
      modifies mem
      ensures Patched(old(mem[..]), mem[..], at, code)
    {
      for i := 0 to |code|
        invariant forall j :: 0 <= j < i ==> mem[at + j] == code[j]
        invariant forall j :: 0 <= j < mem.Length && !(at <= j < at + i) ==> mem[j] == old(mem[j])
      {
        mem[at + i] := code[i];
      }
    }

    /** Whether service `i` may be published, as the loop body decides it. */
    method Check(services: seq<Service>, i: nat) returns (ok: bool)
      requires i < |services|
      ensures ok <==> Acceptable(services, i, size)
    {
      var s := services[i];
      if s.id == 0 || s.id > MAX_PROCS { return false; }
      for j := 0 to i
        invariant forall k :: 0 <= k < j ==> services[k].id != s.id
      {
        if services[j].id == s.id { return false; }
      }
      if !InRegion(size, DataAt(s.id), SERVICE_SLOT_SIZE) { return false; }
      if s.flags == LOCAL_CODE {
        if s.code.Some? || s.codeSize != 0 || s.entry != 0 { return false; }
      } else if s.flags == PUBLISHED_CODE {
        if s.code.None? || s.codeSize == 0 || s.codeSize % 4 != 0 || s.codeSize > CODE_SLOT_SIZE ||
           s.entry % 4 != 0 || s.entry >= s.codeSize || !InRegion(size, CodeAt(s.id), s.codeSize) { return false; }
      } else {
        return false;
      }
      ok := true;
    }

    /** Writes descriptor and code of an acceptable service. */
    method Place(s: Service, i: nat, epoch: nat)
      requires Valid() && i < MAX_PROCS && Readable(s)
      requires 0 < s.id <= MAX_PROCS && InRegion(size, DataAt(s.id), SERVICE_SLOT_SIZE) && CodeAcceptable(s, size)
      modifies `meta, mem
      ensures meta == old(meta).(procs := old(meta).procs[i := Described(s, epoch)])
      ensures s.flags == PUBLISHED_CODE ==> Patched(old(mem[..]), mem[..], CodeAt(s.id), s.code.value)
      ensures s.flags != PUBLISHED_CODE ==> mem[..] == old(mem[..])
    {
      var p := Proc(s.id, s.flags, DataAt(s.id), SERVICE_SLOT_SIZE, 0, 0, 0, 0, epoch);
      if s.flags == PUBLISHED_CODE {
        CopyCode(CodeAt(s.id), s.code.value);
        var h := HashOf(s.code.value);
        p := p.(codeOffset := CodeAt(s.id), codeSize := s.codeSize, entry := s.entry, hash := h);
      }
      meta := meta.(procs := meta.procs[i := p]);
    }

    /** The first `n` services are in place. */
    ghost predicate Placed(services: seq<Service>, epoch: nat, n: nat)
      requires Valid() && n <= |services| <= MAX_PROCS
      reads this, mem
    {
      forall i :: 0 <= i < n ==>
        && Acceptable(services, i, size) && Readable(services[i])
        && meta.procs[i] == Described(services[i], epoch)
        && (services[i].flags == PUBLISHED_CODE ==> CodeIn(mem[..], services[i]))
    }

    method PlaceNext(services: seq<Service>, i: nat, epoch: nat)
      requires Valid() && i < |services| <= MAX_PROCS && Placed(services, epoch, i)
      requires Acceptable(services, i, size) && Readable(services[i])
      modifies `meta, mem
      ensures Valid() && Placed(services, epoch, i + 1) && meta.ready == old(meta.ready)
    {
      ghost var before := mem[..];
      Place(services[i], i, epoch);
      forall j | 0 <= j < i && services[j].flags == PUBLISHED_CODE ensures CodeIn(mem[..], services[j]) {
        if services[i].flags == PUBLISHED_CODE { PatchKeepsOtherCode(before, mem[..], services[j], services[i]); }
      }
    }

    /**
      Publishes a table.  It succeeds exactly for acceptable services; once the metadata has been touched,
      a rejected table leaves a region in which every lookup is told to try again.
    */
    method Publish(epoch: nat, services: seq<Service>) returns (rc: int)
      requires Valid() && forall i :: 0 <= i < |services| ==> Readable(services[i])
      modifies `meta, mem
      ensures Valid() && (rc == 0 || rc == -EINVAL)
      ensures rc == 0 <==> Started(owner, mapped, size, epoch, services) && AllAcceptable(services, size)
      ensures rc == 0 ==> Published(meta, mem[..], services, epoch)
      ensures !Started(owner, mapped, size, epoch, services) ==> meta == old(meta) && mem[..] == old(mem[..])
      ensures Started(owner, mapped, size, epoch, services) && rc != 0 ==>
        forall id: nat, e: nat :: id != 0 && e != 0 ==> LookupIn(meta, mapped, size, id, e) == Failed(EAGAIN)
    {
      if !owner || !mapped || epoch == 0 || |services| == 0 || |services| > MAX_PROCS || size < METADATA_SIZE {
        return -EINVAL;
      }
      meta := Meta(0, 0, 0, 0, 0, false, seq(MAX_PROCS, _ => NO_PROC));
      for i := 0 to |services|
        invariant Valid() && !meta.ready && Placed(services, epoch, i)
      {
        var ok := Check(services, i);
        if !ok { return -EINVAL; }
        PlaceNext(services, i, epoch);
      }
      meta := meta.(magic := MAGIC, epoch := epoch, regionSize := size, abi := ABI_VERSION,
                    numProcs := |services|, ready := true);
      rc := 0;
    }

    method LookUp(id: nat, epoch: nat) returns (r: Lookup)
      requires Valid()
      ensures r == LookupIn(meta, mapped, size, id, epoch)
    {
      if !mapped || id == 0 || epoch == 0 { return Failed(EINVAL); }
      if size < METADATA_SIZE || !meta.ready { return Failed(EAGAIN); }
      if meta.magic != MAGIC || meta.abi != ABI_VERSION || meta.regionSize != size ||
         meta.numProcs == 0 || meta.numProcs > MAX_PROCS { return Failed(EPROTO); }
      if meta.epoch != epoch { return Failed(ESTALE); }
      for i := 0 to meta.numProcs
        invariant forall j :: 0 <= j < i ==> meta.procs[j].id != id
      {
        if meta.procs[i].id == id {
          assert FindProc(meta.procs, meta.numProcs, id) == i;
          if !ProcValid(meta.procs[i], size, epoch) { return Failed(EPROTO); }
          return Found(meta.procs[i]);
        }
      }
      return Failed(ENOENT);
    }

    /**
      Copies published code into private pages.  `mapErrno` and `protectErrno` are what the memory calls
      answer, zero for success.
    */
    method Localize(p: Proc, page: nat, mapErrno: nat, protectErrno: nat) returns (r: Localized)
      requires Valid() && page > 0
      ensures r == LocalizeFrom(mem[..], mapped, p, page, mapErrno, protectErrno)
    {
      if p.flags != PUBLISHED_CODE { return Refused(EINVAL); }
      if !ProcValid(p, size, p.epoch) { return Refused(EPROTO); }
      if !mapped { return Refused(EPROTO); }
      if mapErrno != 0 { return Refused(mapErrno); }
      var code := mem[p.codeOffset..p.codeOffset + p.codeSize];
      var h := HashOf(code);
      if h != p.hash { return Refused(EBADMSG); }
      if protectErrno != 0 { return Refused(protectErrno); }
      r := Local(code, RoundUp(p.codeSize, page), p.entry);
    }
  }

  function LocalizeFrom(mem: seq<byte>, mapped: bool, p: Proc, page: nat, mapErrno: nat, protectErrno: nat): (r: Localized)
    requires page > 0
  {
    if p.flags != PUBLISHED_CODE then Refused(EINVAL)
    else if !ProcValid(p, |mem|, p.epoch) || !mapped then Refused(EPROTO)
    else if mapErrno != 0 then Refused(mapErrno)
    else
      var code := mem[p.codeOffset..p.codeOffset + p.codeSize];
      if Hash(code) != p.hash then Refused(EBADMSG)
      else if protectErrno != 0 then Refused(protectErrno)
      else Local(code, RoundUp(p.codeSize, page), p.entry)
  }

  /**
    Round trip: what a reader looks up and copies is byte for byte what was published; the hash check
    passes, the whole code fits in the private mapping and the entry point lies inside it.
  */
  lemma PublishedCodeComesBack(m: Meta, mem: seq<byte>, services: seq<Service>, epoch: nat, i: nat, page: nat)
    requires Published(m, mem, services, epoch) && |mem| >= METADATA_SIZE && epoch != 0 && page > 0
    requires i < |services| && services[i].flags == PUBLISHED_CODE
    ensures LookupIn(m, true, |mem|, services[i].id, epoch).Found?
    ensures var local := LocalizeFrom(mem, true, LookupIn(m, true, |mem|, services[i].id, epoch).proc, page, 0, 0);
      && local.Local? && Some(local.code) == services[i].code
      && local.entry == services[i].entry < |local.code| <= local.mappingSize
  {
    assert Acceptable(services, i, |mem|) && CodeIn(mem, services[i]);
    LookupFindsPublished(m, mem, services, epoch, services[i].id, epoch, i);
    DescribedIsValid(services[i], |mem|, epoch);
  }

  // ---- what a reader gets from a table it does not trust ----

  /** Whatever the metadata says, a procedure that is found has its data and code inside the region. */
  lemma FoundIsInside(m: Meta, mapped: bool, size: nat, id: nat, epoch: nat)
    requires |m.procs| == MAX_PROCS && LookupIn(m, mapped, size, id, epoch).Found?
    ensures var p := LookupIn(m, mapped, size, id, epoch).proc;
      && mapped && m.ready && m.magic == MAGIC && m.abi == ABI_VERSION && m.regionSize == size && m.epoch == epoch != 0
      && p.id == id && 0 < id <= MAX_PROCS && p.epoch == epoch
      && p.dataOffset == DataAt(id) && 0 < p.dataSize <= SERVICE_SLOT_SIZE && p.dataOffset + p.dataSize <= size
      && (p.flags == PUBLISHED_CODE ==>
            p.codeOffset == CodeAt(id) && p.entry < p.codeSize <= CODE_SLOT_SIZE && p.codeOffset + p.codeSize <= size)
      && (p.flags == PUBLISHED_CODE || (p.flags == LOCAL_CODE && p.codeSize == 0))
  {
  }

  /** And what is copied out of it is what lies there, has the hash it should have, and contains its entry point. */
  lemma LocalizedIsThere(mem: seq<byte>, mapped: bool, p: Proc, page: nat, mapErrno: nat, protectErrno: nat)
    requires page > 0
    ensures var r := LocalizeFrom(mem, mapped, p, page, mapErrno, protectErrno);
      r.Local? ==>
        && mapped && p.flags == PUBLISHED_CODE && mapErrno == 0 && protectErrno == 0
        && p.codeOffset + p.codeSize <= |mem| && r.code == mem[p.codeOffset..p.codeOffset + p.codeSize]
        && Hash(r.code) == p.hash && r.entry == p.entry < |r.code| <= r.mappingSize && r.mappingSize % page == 0
  {
  }

  // ---- damage is noticed ----

  /** Published code of which one byte has been damaged is never handed out. */
  lemma DamagedCodeIsRefused(m: Meta, mem: seq<byte>, services: seq<Service>, epoch: nat, i: nat, page: nat, at: nat, b: byte)
    requires Published(m, mem, services, epoch) && |mem| >= METADATA_SIZE && epoch != 0 && page > 0
    requires i < |services| && services[i].flags == PUBLISHED_CODE && services[i].id > 0
    requires at < services[i].codeSize && CodeAt(services[i].id) + at < |mem| && mem[CodeAt(services[i].id) + at] != b
    ensures LookupIn(m, true, |mem|, services[i].id, epoch).Found?
    ensures LocalizeFrom(mem[CodeAt(services[i].id) + at := b], true, LookupIn(m, true, |mem|, services[i].id, epoch).proc, page, 0, 0)
         == Refused(EBADMSG)
  {
    var s := services[i];
    var from := CodeAt(s.id);
    assert Acceptable(services, i, |mem|) && CodeIn(mem, s);
    LookupFindsPublished(m, mem, services, epoch, s.id, epoch, i);
    DescribedIsValid(s, |mem|, epoch);
    var code := mem[from..from + s.codeSize];
    assert mem[from + at := b][from..from + s.codeSize] == code[at := b];
    OneByteChangesHash(code, at, b);
  }
}
