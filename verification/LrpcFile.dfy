/**
  The per-open file context of the driver: role, binding and mmap permissions.

  Every operation is given as the value it computes; the driver state machine in
  `LrpcSystem` applies them under its step relation.
*/
module LrpcFile {
  import opened Common
  import opened LrpcAbi

  datatype File = File(role: Role, bound: bool, epoch: nat, procIndex: nat,
                       proc: ProcDesc, channel: Option<nat>)

  const FRESH_FILE: File := File(RoleNone, false, 0, 0, NO_PROC, None)

  ghost predicate FileOk(file: File) {
    && (file.bound <==> file.channel.Some?)
    && (file.bound ==>
          && (file.role == Caller || file.role == Shadow)
          && file.channel == Some(file.procIndex)
          && file.procIndex < MAX_PROCS)
  }

  /** What the metadata page may hold once any publisher has written it. */
  ghost predicate MetaOk(meta: Metadata) {
    |meta.proc| == MAX_PROCS && meta.numProcs <= MAX_PROCS
  }

  function RoleOfCode(code: nat): (role: Option<Role>) {
    match code
    case 1 => Some(Publisher)
    case 2 => Some(Caller)
    case 3 => Some(Shadow)
    case _ => None
  }

  function SetRole(file: File, code: nat): (result: (File, int)) {
    match RoleOfCode(code)
    case None => (file, -EINVAL)
    case Some(role) =>
      if file.role != RoleNone then (file, -EBUSY) else (file.(role := role), 0)
  }

  predicate ProcPublishable(desc: ProcDesc, imageSize: nat) {
    && desc.flags == PROC_PUBLISHED_CODE
    && desc.codeSize != 0
    && desc.codeOffset <= imageSize
    && desc.codeSize <= imageSize - desc.codeOffset
    && desc.astackSize != 0
    && desc.astackSize <= ASTACK_SLOT_SIZE
  }

  predicate Publishable(pub: Publication)
    requires |pub.proc| == MAX_PROCS
  {
    && pub.codeEpoch != 0
    && 0 < pub.numProcs <= MAX_PROCS
    && pub.imageSize <= CODE_SIZE
    && forall i :: 0 <= i < pub.numProcs ==> ProcPublishable(pub.proc[i], pub.imageSize)
  }

  /** The metadata PUBLISH writes before it raises `ready`. */
  function PublishedMeta(pub: Publication): (meta: Metadata)
    requires |pub.proc| == MAX_PROCS && Publishable(pub)
    ensures MetaOk(meta)
  {
    Metadata(MAGIC, ABI_VERSION, ISA_X86_64, pub.codeEpoch, pub.imageSize, pub.numProcs, false,
             seq(MAX_PROCS, i requires 0 <= i < MAX_PROCS =>
                   if i < pub.numProcs then pub.proc[i] else NO_PROC))
  }

  /** First index below `n` whose descriptor has the wanted id, or `n`. */
  function FindProc(proc: seq<ProcDesc>, n: nat, id: nat, from: nat): (i: nat)
    requires from <= n <= |proc|
    ensures from <= i <= n
    ensures i < n ==> proc[i].procedureId == id
    ensures forall j :: from <= j < i ==> proc[j].procedureId != id
    decreases n - from
  {
    if from == n || proc[from].procedureId == id then from else FindProc(proc, n, id, from + 1)
  }

  function Bind(file: File, meta: Metadata, id: nat, expectedEpoch: nat): (result: (File, int))
    requires |meta.proc| == MAX_PROCS && meta.numProcs <= MAX_PROCS
  {
    if file.role != Caller && file.role != Shadow then (file, -EPERM)
    else if file.bound then (file, -EBUSY)
    else if meta.magic != MAGIC || meta.abiVersion != ABI_VERSION || !meta.ready then (file, -EAGAIN)
    else if expectedEpoch != 0 && expectedEpoch != meta.codeEpoch then (file, -ESTALE)
    else
      var i := FindProc(meta.proc, meta.numProcs, id, 0);
      if i == meta.numProcs then (file, -ENOENT)
      else (file.(bound := true, epoch := meta.codeEpoch, procIndex := i,
                  proc := meta.proc[i], channel := Some(i)), 0)
  }

  /**
    BIND against a publication: nothing before it is sealed; afterwards it succeeds exactly for a published
    id and a matching epoch, and hands out the first such procedure, whose code lies in the image and whose
    A-stack fits its slot.
  */
  lemma BindFindsPublished(file: File, pub: Publication, id: nat, epoch: nat)
    requires |pub.proc| == MAX_PROCS && Publishable(pub)
    requires (file.role == Caller || file.role == Shadow) && !file.bound
    ensures Bind(file, PublishedMeta(pub), id, epoch) == (file, -EAGAIN)
    ensures var (bound, rc) := Bind(file, PublishedMeta(pub).(ready := true), id, epoch);
      && (rc == 0 <==> (epoch == 0 || epoch == pub.codeEpoch) &&
                       exists i :: 0 <= i < pub.numProcs && pub.proc[i].procedureId == id)
      && (rc != 0 ==> bound == file && rc == if epoch != 0 && epoch != pub.codeEpoch then -ESTALE else -ENOENT)
      && (rc == 0 ==>
            && bound.bound && bound.procIndex < pub.numProcs && bound.channel == Some(bound.procIndex)
            && bound.role == file.role && bound.epoch == pub.codeEpoch != 0 && bound.proc.flags == PROC_PUBLISHED_CODE
            && bound.proc == pub.proc[bound.procIndex] && bound.proc.procedureId == id
            && (forall j :: 0 <= j < bound.procIndex ==> pub.proc[j].procedureId != id)
            && bound.proc.codeOffset + bound.proc.codeSize <= pub.imageSize <= CODE_SIZE
            && 0 < bound.proc.astackSize <= ASTACK_SLOT_SIZE)
  {
    var meta := PublishedMeta(pub).(ready := true);
    var i := FindProc(meta.proc, meta.numProcs, id, 0);
    assert forall j :: 0 <= j < pub.numProcs ==> meta.proc[j] == pub.proc[j];
    if i < pub.numProcs {
      assert pub.proc[i].procedureId == id && ProcPublishable(pub.proc[i], pub.imageSize);
    }
  }

  /** A file that is not a caller's or a shadow's, or is bound already, stays as it is, whatever is published. */
  lemma BindIsOnce(file: File, meta: Metadata, id: nat, epoch: nat)
    requires MetaOk(meta)
    ensures file.role != Caller && file.role != Shadow ==> Bind(file, meta, id, epoch) == (file, -EPERM)
    ensures (file.role == Caller || file.role == Shadow) && file.bound ==> Bind(file, meta, id, epoch) == (file, -EBUSY)
  {
  }

  /** What BIND tells its caller besides success. */
  datatype BindAnswer = BindAnswer(epoch: nat, entryOffset: nat, astackSize: nat, astackOffset: nat,
                                   codeSize: nat, codeHash: nat)

  function BindReply(file: File, meta: Metadata, id: nat, expectedEpoch: nat): (answer: Option<BindAnswer>)
    requires |meta.proc| == MAX_PROCS && meta.numProcs <= MAX_PROCS
  {
    if Bind(file, meta, id, expectedEpoch).1 != 0 then None
    else
      var i := FindProc(meta.proc, meta.numProcs, id, 0);
      if i == meta.numProcs then None
      else Some(BindAnswer(meta.codeEpoch, meta.proc[i].codeOffset, meta.proc[i].astackSize,
                           ASTACK_OFFSET + i * ASTACK_SLOT_SIZE, meta.proc[i].codeSize, meta.proc[i].codeHash))
  }

  predicate RangeOk(barSize: nat, off: nat, len: nat) {
    len != 0 && off <= barSize && len <= barSize - off
  }

  predicate SubrangeOk(off: nat, len: nat, start: nat, size: nat) {
    len != 0 && off >= start && off - start <= size && len <= size - (off - start)
  }

  datatype MapRequest = MapRequest(off: nat, len: nat, write: bool, exec: bool)

  /** The outcome of mmap: refused, the first `npages` A-stack pages, or a BAR range. */
  datatype MapDecision = Refused(rc: int) | AStackPages(npages: nat) | BarRange(off: nat, len: nat)

  function MapFile(file: File, barSize: nat, req: MapRequest): (d: MapDecision) {
    if req.off % PAGE_SIZE != 0 || req.len % PAGE_SIZE != 0 || req.len == 0 then Refused(-EINVAL)
    else if SubrangeOk(req.off, req.len, ASTACK_OFFSET, ASTACK_SIZE) then
      if (file.role != Caller && file.role != Shadow) || !file.bound || req.exec ||
         req.off != ASTACK_OFFSET + file.procIndex * ASTACK_SLOT_SIZE ||
         req.len > ASTACK_SLOT_SIZE
      then Refused(-EPERM)
      else AStackPages(req.len / PAGE_SIZE)
    else if !RangeOk(barSize, req.off, req.len) then Refused(-EINVAL)
    else if SubrangeOk(req.off, req.len, CODE_OFFSET, CODE_SIZE) then
      if file.role == Publisher then
        if !req.write || req.exec then Refused(-EPERM) else BarRange(req.off, req.len)
      else if file.role == Shadow && file.bound then
        if req.write || req.exec then Refused(-EPERM) else BarRange(req.off, req.len)
      else Refused(-EPERM)
    else if SubrangeOk(req.off, req.len, REMOTE_BENCH_OFFSET, REMOTE_BENCH_SIZE) then
      if file.role != Caller || !file.bound || req.exec ||
         req.off != REMOTE_BENCH_OFFSET + file.procIndex * REMOTE_BENCH_SLOT_SIZE ||
         req.len > REMOTE_BENCH_SLOT_SIZE
      then Refused(-EPERM)
      else BarRange(req.off, req.len)
    else if req.off >= DATA_OFFSET then
      if (file.role != Publisher && file.role != Shadow) || req.exec then Refused(-EPERM)
      else BarRange(req.off, req.len)
    else Refused(-EPERM)
  }

  // ---- what mmap grants ----

  ghost predicate Within(req: MapRequest, start: nat, size: nat) { start <= req.off && req.off + req.len <= start + size }

  ghost predicate WholePages(req: MapRequest) { req.off % PAGE_SIZE == 0 && req.len % PAGE_SIZE == 0 && req.len > 0 }

  /** The A-stack slot of the procedure a caller's or shadow's file is bound to, from its start. */
  ghost predicate OwnAStack(file: File, req: MapRequest) {
    file.bound && req.off == ASTACK_OFFSET + file.procIndex * ASTACK_SLOT_SIZE && req.len <= ASTACK_SLOT_SIZE
  }

  /** Published code: publishers write it, bound shadows read it. */
  ghost predicate OwnCode(file: File, req: MapRequest) {
    && Within(req, CODE_OFFSET, CODE_SIZE)
    && ((file.role == Publisher && req.write) || (file.role == Shadow && file.bound && !req.write))
  }

  /** The measurement slot of a bound caller's procedure, from its start. */
  ghost predicate OwnBenchSlot(file: File, req: MapRequest) {
    && file.role == Caller && file.bound && req.len <= REMOTE_BENCH_SLOT_SIZE
    && req.off == REMOTE_BENCH_OFFSET + file.procIndex * REMOTE_BENCH_SLOT_SIZE
  }

  ghost predicate SharedData(file: File, req: MapRequest) {
    && (file.role == Publisher || file.role == Shadow)
    && req.off >= DATA_OFFSET && !Within(req, ASTACK_OFFSET, ASTACK_SIZE)
  }

  /** All that a file may map of the BAR. */
  ghost predicate OwnBar(file: File, barSize: nat, req: MapRequest) {
    req.off + req.len <= barSize && (OwnCode(file, req) || OwnBenchSlot(file, req) || SharedData(file, req))
  }

  /**
    mmap grants whole, non-executable pages of the file's own A-stack slot or of what it may map of the BAR, all of
    these and nothing else, and grants exactly what was asked for.
  */
  lemma MapFileGrantsIff(file: File, barSize: nat, req: MapRequest)
    requires FileOk(file)
    ensures var d := MapFile(file, barSize, req);
      && (!d.Refused? <==> WholePages(req) && !req.exec && (OwnAStack(file, req) || OwnBar(file, barSize, req)))
      && (!d.Refused? && OwnAStack(file, req) ==> d == AStackPages(req.len / PAGE_SIZE))
      && (!d.Refused? && !OwnAStack(file, req) ==> d == BarRange(req.off, req.len))
      && (d.Refused? ==> d.rc == if !WholePages(req) || (!Within(req, ASTACK_OFFSET, ASTACK_SIZE) && req.off + req.len > barSize)
                                 then -EINVAL else -EPERM)
  {
  }

  /**
    Where BIND says the A-stack is, it can be mapped: every whole number of pages up to the slot, which is room
    enough for the frame, from the offset BIND returns; any other offset in the A-stack window and any longer
    request there is refused.
  */
  lemma BoundFileMapsItsAStack(file: File, pub: Publication, id: nat, epoch: nat, barSize: nat, req: MapRequest)
    requires FileOk(file) && |pub.proc| == MAX_PROCS && Publishable(pub)
    requires Bind(file, PublishedMeta(pub).(ready := true), id, epoch).1 == 0
    ensures var meta := PublishedMeta(pub).(ready := true);
      var bound, answer := Bind(file, meta, id, epoch).0, BindReply(file, meta, id, epoch);
      && answer.Some? && answer.value.epoch == pub.codeEpoch && FileOk(bound)
      && (exists i :: 0 <= i < pub.numProcs && pub.proc[i].procedureId == id
            && answer.value.entryOffset == pub.proc[i].codeOffset && answer.value.codeSize == pub.proc[i].codeSize
            && answer.value.codeHash == pub.proc[i].codeHash && answer.value.astackSize == pub.proc[i].astackSize)
      && 0 < answer.value.astackSize <= ASTACK_SLOT_SIZE
      && (WholePages(req) && !req.exec && Within(req, ASTACK_OFFSET, ASTACK_SIZE) ==>
            MapFile(bound, barSize, req)
              == if req.off == answer.value.astackOffset && req.len <= ASTACK_SLOT_SIZE
                 then AStackPages(req.len / PAGE_SIZE) else Refused(-EPERM))
  {
    BindFindsPublished(file, pub, id, epoch);
    var meta := PublishedMeta(pub).(ready := true);
    MapFileGrantsIff(Bind(file, meta, id, epoch).0, barSize, req);
    var i := FindProc(meta.proc, meta.numProcs, id, 0);
    assert meta.proc[i] == pub.proc[i] && ProcPublishable(pub.proc[i], pub.imageSize);
  }

  predicate Overlaps(off: nat, len: nat, start: nat, size: nat) {
    off < start + size && start < off + len
  }

  /**
    Everything mmap can hand out.  The BAR clauses are about overlap, not containment: a
    request straddling two windows must not smuggle in a right that either window denies.
  */
  lemma MapFileIsConfined(file: File, barSize: nat, req: MapRequest)
    requires FileOk(file)
    ensures var d := MapFile(file, barSize, req);
      && (!d.Refused? ==> !req.exec)
      && (d.AStackPages? ==>
            && file.bound
            && 0 < d.npages <= ASTACK_NPAGES
            && d.npages * PAGE_SIZE == req.len)
      && (d.BarRange? ==>
            && d.off + d.len <= barSize
            && d.off >= CODE_OFFSET
            && (Overlaps(d.off, d.len, CODE_OFFSET, CODE_SIZE) ==>
                  && d.off + d.len <= CODE_OFFSET + CODE_SIZE
                  && (req.write <==> file.role == Publisher)
                  && (file.role == Publisher || (file.role == Shadow && file.bound)))
            && (Overlaps(d.off, d.len, REMOTE_BENCH_OFFSET, REMOTE_BENCH_SIZE) ==>
                  && file.role == Caller && file.bound
                  && REMOTE_BENCH_OFFSET + file.procIndex * REMOTE_BENCH_SLOT_SIZE <= d.off
                  && d.off + d.len <= REMOTE_BENCH_OFFSET + (file.procIndex + 1) * REMOTE_BENCH_SLOT_SIZE))
  {
  }
}
