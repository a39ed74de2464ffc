/**
  Machine integers and the kernel (supervisor call) interface that the
  initial-process bookkeeping consumes. The kernel itself is not modelled:
  what it answers is an input (an oracle) to the operations that query it.
 */
module Svc {

  const U32_LIMIT: int := 0x1_0000_0000
  const U64_LIMIT: int := 0x1_0000_0000_0000_0000

  type u8 = x: int | 0 <= x < 0x100
  type u32 = x: int | 0 <= x < 0x1_0000_0000
  type u64 = x: int | 0 <= x < 0x1_0000_0000_0000_0000

  /** A kernel result code; zero is success, anything else is a failure. */
  type ResultCode = u32

  /** The three kernel queries the identity snapshot is built from. */
  datatype QueryKind =
    | InitialProcessIdRangeMinimum   // GetSystemInfo(InitialProcessIdRange, Minimum)
    | InitialProcessIdRangeMaximum   // GetSystemInfo(InitialProcessIdRange, Maximum)
    | CurrentProcessId               // GetProcessId(CurrentProcess)

  /** What one kernel call reports: its result code and the value it stores in its out parameter. */
  datatype SvcAnswer = SvcAnswer(rc: ResultCode, out: u64) {
    predicate Succeeded() { rc == 0 }
  }

  /** The answer the kernel would give to each of the three queries, if asked. */
  datatype KernelAnswers = KernelAnswers(
    rangeMinimum: SvcAnswer,
    rangeMaximum: SvcAnswer,
    currentProcessId: SvcAnswer)

  /** All three queries, in the order the initialisation issues them. */
  const AllQueries: seq<QueryKind> :=
    [InitialProcessIdRangeMinimum, InitialProcessIdRangeMaximum, CurrentProcessId]
}

/** The fatal-only error model: an operation either returns or aborts the process. */
module Outcomes {
  import opened Svc

  datatype Option<+T> = None | Some(value: T)

  /** Why the process aborted. */
  datatype AbortReason =
    | QueryFailed(query: QueryKind, rc: ResultCode)   // R_ABORT_UNLESS on a kernel result
    | MinimumIsZero                                   // AMS_ABORT_UNLESS(0 < min)
    | MinimumAboveMaximum                             // AMS_ABORT_UNLESS(min <= max)
    | AllocationTooLarge(elementSize: u64, count: u64) // the static allocator's capacity check

  /** The result of an operation that may abort the process instead of returning. */
  datatype Outcome<+T> = Returned(value: T) | Aborted(reason: AbortReason)
}
