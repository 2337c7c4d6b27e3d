/** Constants and records of the UB-LRPC user ABI (include/uapi/linux/ub_lrpc.h). */
module LrpcAbi {
  const ABI_VERSION: nat := 3
  const MAGIC: nat := 0x4350524c4255
  const MAX_PROCS: nat := 16
  const PROC_PUBLISHED_CODE: nat := 1
  const ISA_X86_64: nat := 0x3e

  const PAGE_SIZE: nat := 0x1000
  const CODE_OFFSET: nat := 0x1000
  const CODE_SIZE: nat := 0x100000
  const REMOTE_BENCH_OFFSET: nat := 0x101000
  const REMOTE_BENCH_SIZE: nat := 0x100000
  const REMOTE_BENCH_SLOT_SIZE: nat := 0x10000
  const DATA_OFFSET: nat := 0x201000
  const ASTACK_OFFSET: nat := 0x100000000
  const ASTACK_SIZE: nat := 0x100000
  const ASTACK_SLOT_SIZE: nat := 0x10000
  const ASTACK_NPAGES: nat := 16

  datatype Role = RoleNone | Publisher | Caller | Shadow

  datatype ProcDesc = ProcDesc(procedureId: nat, flags: nat, codeOffset: nat,
                               codeSize: nat, codeHash: nat, astackSize: nat)

  const NO_PROC: ProcDesc := ProcDesc(0, 0, 0, 0, 0, 0)

  datatype Metadata = Metadata(magic: nat, abiVersion: nat, isa: nat, codeEpoch: nat,
                               imageSize: nat, numProcs: nat, ready: bool,
                               proc: seq<ProcDesc>)

  datatype Publication = Publication(codeEpoch: nat, imageSize: nat, numProcs: nat,
                                     proc: seq<ProcDesc>)

  datatype Handoff = Handoff(procedureId: nat, result: int, callerPid: nat, callerCpu: int,
                             callEnterNs: nat, shadowDispatchNs: nat,
                             shadowReturnNs: nat, callerResumeNs: nat)
}
