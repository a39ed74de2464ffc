/**
  The process-wide state of fssrv_program_info.cpp, updated in place: the
  identity snapshot globals and their flag, the 0x80-byte static buffer and
  its allocator, and the statics of GetProgramInfoForInitialProcess. The two
  lazy initialisations have independent flags (and, in the source,
  independent locks); here every call runs to completion before the next
  one starts, so the locks do nothing and are left out.
 */
module FssrvProgramInfo {
  import opened Svc
  import opened Outcomes
  import opened InitialProcessIds
  import opened AccessControlTables

  // ---------------------------------------------------------------------
  // The identity snapshot globals
  // ---------------------------------------------------------------------

  /** The globals g_initialized, g_initial_process_id_min/max and g_current_process_id. */
  class IdentityCache {
    var initialized: bool
    var initialProcessIdMin: u64
    var initialProcessIdMax: u64
    var currentProcessId: u64
    /** The kernel queries issued so far, in order. */
    ghost var queries: seq<QueryKind>

    /** The flag is set only over a complete, checked snapshot, obtained by one run of the three queries. */
    ghost predicate Valid()
      reads this
    {
      if initialized then
        WellFormed(Snapshot(initialProcessIdMin, initialProcessIdMax, currentProcessId))
        && queries == AllQueries
      else
        queries == []
    }

    /** The abstract state the globals stand for. */
    function State(): (st: IdentityState)
      reads this
    {
      if initialized then Initialized(Snapshot(initialProcessIdMin, initialProcessIdMax, currentProcessId))
      else Uninitialized
    }

    /** The constinit values: not initialised, every id zero. */
    constructor ()
      ensures Valid() && State() == Uninitialized
      ensures initialProcessIdMin == 0 && initialProcessIdMax == 0 && currentProcessId == 0
    {
      initialized := false;
      initialProcessIdMin, initialProcessIdMax, currentProcessId := 0, 0, 0;
      queries := [];
    }

    /**
      InitializeInitialAndCurrentProcessId. On the fast path nothing is read
      from the kernel and nothing changes; otherwise the globals are written
      one query at a time and the flag is set last, so an abort never leaves
      the flag set over a partial snapshot.
     */
    method InitializeInitialAndCurrentProcessId(k: KernelAnswers) returns (r: Outcome<()>)
      requires Valid()
      modifies this
      ensures r.Returned? <==> Initialize(old(State()), k).Returned?
      ensures r.Returned? ==> Valid() && State() == Next(old(State()), k)
      ensures r.Aborted? ==> r.reason == Initialize(old(State()), k).reason && !initialized
      ensures queries == old(queries) + QueriesOf(old(State()), k)
      ensures old(initialized) ==> unchanged(this)
    {
      if !initialized {
        queries := queries + [InitialProcessIdRangeMinimum];
        if !k.rangeMinimum.Succeeded() {
          return Aborted(QueryFailed(InitialProcessIdRangeMinimum, k.rangeMinimum.rc));
        }
        initialProcessIdMin := k.rangeMinimum.out;

        queries := queries + [InitialProcessIdRangeMaximum];
        if !k.rangeMaximum.Succeeded() {
          return Aborted(QueryFailed(InitialProcessIdRangeMaximum, k.rangeMaximum.rc));
        }
        initialProcessIdMax := k.rangeMaximum.out;

        if !(0 < initialProcessIdMin) {
          return Aborted(MinimumIsZero);
        }
        if !(initialProcessIdMin <= initialProcessIdMax) {
          return Aborted(MinimumAboveMaximum);
        }

        queries := queries + [CurrentProcessId];
        if !k.currentProcessId.Succeeded() {
          return Aborted(QueryFailed(CurrentProcessId, k.currentProcessId.rc));
        }
        currentProcessId := k.currentProcessId.out;

        initialized := true;
      }
      return Returned(());
    }

    /**
      IsInitialProgram: initialise if needed, then the closed range check.
      The source re-checks 0 < min before comparing; the invariant shows that
      check can never abort.
     */
    method IsInitialProgram(processId: u64, k: KernelAnswers) returns (r: Outcome<bool>)
      requires Valid()
      modifies this
      ensures r == Respond(old(State()), InitialProgramQuery(processId), k)
      ensures r.Returned? ==> Valid() && State() == Next(old(State()), k)
      ensures r.Aborted? ==> !initialized
      ensures queries == old(queries) + QueriesOf(old(State()), k)
      ensures old(initialized) ==> unchanged(this)
    {
      var init := InitializeInitialAndCurrentProcessId(k);
      if init.Aborted? {
        return Aborted(init.reason);
      }
      assert 0 < initialProcessIdMin;
      return Returned(initialProcessIdMin <= processId && processId <= initialProcessIdMax);
    }

    /** IsCurrentProcess: initialise if needed, then compare with the service's own process id. */
    method IsCurrentProcess(processId: u64, k: KernelAnswers) returns (r: Outcome<bool>)
      requires Valid()
      modifies this
      ensures r == Respond(old(State()), CurrentProcessQuery(processId), k)
      ensures r.Returned? ==> Valid() && State() == Next(old(State()), k)
      ensures r.Aborted? ==> !initialized
      ensures queries == old(queries) + QueriesOf(old(State()), k)
      ensures old(initialized) ==> unchanged(this)
    {
      var init := InitializeInitialAndCurrentProcessId(k);
      if init.Aborted? {
        return Aborted(init.reason);
      }
      return Returned(processId == currentProcessId);
    }
  }

  /**
    The scenario min = 1, max = 10, current = 5 on a fresh process: both
    bounds are initial programs, 11 and 0 are not, 5 is the current process
    and 6 is not; the kernel is queried on the first call only.
   */
  method BandScenario() returns (atMin: bool, atMax: bool, above: bool, zero: bool, current: bool, other: bool)
    ensures atMin && atMax && !above && !zero && current && !other
  {
    var ids := new IdentityCache();
    var k := KernelAnswers(SvcAnswer(0, 1), SvcAnswer(0, 10), SvcAnswer(0, 5));
    // Once initialised, the kernel would not be asked: a failing kernel makes no difference.
    var broken := KernelAnswers(SvcAnswer(1, 0), SvcAnswer(1, 0), SvcAnswer(1, 0));
    var r := ids.IsInitialProgram(1, k);
    atMin := r.value;
    r := ids.IsInitialProgram(10, broken);
    atMax := r.value;
    r := ids.IsInitialProgram(11, broken);
    above := r.value;
    r := ids.IsInitialProgram(0, broken);
    zero := r.value;
    r := ids.IsCurrentProcess(5, broken);
    current := r.value;
    r := ids.IsCurrentProcess(6, broken);
    other := r.value;
    assert ids.queries == AllQueries;
  }

  /** The scenario in which the kernel fails the range-maximum query: the process aborts before any snapshot is published. */
  method MaximumQueryFailureScenario() returns (r: Outcome<bool>, published: bool)
    ensures r == Aborted(QueryFailed(InitialProcessIdRangeMaximum, 7))
    ensures !published
  {
    var ids := new IdentityCache();
    var k := KernelAnswers(SvcAnswer(0, 1), SvcAnswer(7, 0), SvcAnswer(0, 5));
    r := ids.IsInitialProgram(3, k);
    published := ids.initialized;
  }

  // ---------------------------------------------------------------------
  // The static buffer and its allocator
  // ---------------------------------------------------------------------

  /** The size of g_static_buffer_for_program_info_for_initial_process. */
  const StaticBufferSize: nat := 0x80

  /**
    The capacity check of allocate as the source writes it: the product of
    two size_t values, which wraps around modulo 2^64.
   */
  predicate AllocationFitsAsWritten(elementSize: u64, count: u64) {
    (elementSize * count) % U64_LIMIT <= StaticBufferSize
  }

  /** The capacity check as intended: the request, in bytes, fits in the buffer. */
  predicate AllocationFits(elementSize: u64, count: u64) {
    elementSize * count <= StaticBufferSize
  }

  /** The wrapped check admits a request of 2^64 bytes, far beyond the 0x80-byte buffer. */
  lemma WrappedCheckAdmitsOversizeRequest()
    ensures AllocationFitsAsWritten(2, 0x8000_0000_0000_0000)
    ensures !AllocationFits(2, 0x8000_0000_0000_0000)
  {
  }

  /** The two checks agree on every single-element request, the only kind the singleton makes. */
  lemma ChecksAgreeForOneElement(elementSize: u64)
    ensures AllocationFitsAsWritten(elementSize, 1) <==> AllocationFits(elementSize, 1)
  {
  }

  /** StaticAllocatorForProgramInfoForInitialProcess: every copy and rebinding shares the one buffer. */
  class StaticAllocator {
    const buffer: array<u8>

    ghost predicate Valid() {
      buffer.Length == StaticBufferSize
    }

    constructor ()
      ensures Valid() && fresh(buffer)
    {
      buffer := new u8[StaticBufferSize](_ => 0);
    }

    /** allocate(n): abort unless the request fits; otherwise the start of the buffer, whatever n is. */
    method Allocate(elementSize: u64, count: u64) returns (r: Outcome<array<u8>>)
      requires Valid()
      ensures r.Returned? <==> AllocationFits(elementSize, count)
      ensures r.Returned? ==> r.value == buffer && elementSize * count <= r.value.Length
      ensures r.Aborted? ==> r.reason == AllocationTooLarge(elementSize, count)
    {
      if !AllocationFits(elementSize, count) {
        return Aborted(AllocationTooLarge(elementSize, count));
      }
      return Returned(buffer);
    }

    /** deallocate(p, n): nothing is released and nothing changes. */
    method Deallocate(p: array<u8>, count: u64)
      ensures unchanged(this, buffer)
    {
    }
  }

  // ---------------------------------------------------------------------
  // The initial-program ProgramInfo singleton
  // ---------------------------------------------------------------------

  /**
    A ProgramInfo, reduced to what it was built from: the access-control data
    and descriptor tables with the sizes in bytes passed beside them, and the
    storage the object was placed in.
   */
  class ProgramInfo {
    const accessControlData: seq<u32>
    const accessControlDataSize: int
    const accessControlDesc: seq<u32>
    const accessControlDescSize: int
    const storage: array<u8>

    constructor (data: seq<u32>, dataSize: int, desc: seq<u32>, descSize: int, storage: array<u8>)
      ensures accessControlData == data && accessControlDataSize == dataSize
      ensures accessControlDesc == desc && accessControlDescSize == descSize
      ensures this.storage == storage
    {
      accessControlData, accessControlDataSize := data, dataSize;
      accessControlDesc, accessControlDescSize := desc, descSize;
      this.storage := storage;
    }
  }

  /** The statics s_initialized and s_initial_program_info of GetProgramInfoForInitialProcess. */
  class InitialProgramInfoProvider {
    var initialized: bool
    var initialProgramInfo: ProgramInfo?
    const allocator: StaticAllocator
    /** How many times the static buffer has been allocated, and how many ProgramInfo objects built in it. */
    ghost var allocations: nat
    ghost var builds: nat

    /** The object the singleton must be: built from the two tables, in the static buffer. */
    predicate IsInitialProgramInfo(info: ProgramInfo) {
      && info.accessControlData == FileAccessControlForInitialProgram
      && info.accessControlDataSize == 0x1C
      && info.accessControlDesc == FileAccessControlDescForInitialProgram
      && info.accessControlDescSize == 0x2C
      && info.storage == allocator.buffer
    }

    /** The flag is set exactly when the singleton exists, and the singleton is the canonical one. */
    ghost predicate Valid()
      reads this
    {
      && allocator.Valid()
      && (initialized <==> initialProgramInfo != null)
      && (initialized ==> IsInitialProgramInfo(initialProgramInfo))
      && allocations == builds == (if initialized then 1 else 0)
    }

    constructor ()
      ensures Valid() && !initialized && fresh(allocator) && fresh(allocator.buffer)
      ensures allocations == 0 && builds == 0
    {
      initialized := false;
      initialProgramInfo := null;
      allocations, builds := 0, 0;
      allocator := new StaticAllocator();
    }

    /**
      GetProgramInfoForInitialProcess. footprint is the size in bytes of the
      block allocate_shared requests for the object and its control block
      (one element of that size). The first call builds the object in the
      static buffer; every later call returns that same object.
     */
    method GetProgramInfoForInitialProcess(footprint: u64) returns (r: Outcome<ProgramInfo>)
      requires Valid()
      modifies this
      ensures old(initialized) ==> r.Returned? && r.value == old(initialProgramInfo) && unchanged(this)
      ensures !old(initialized) ==> (r.Returned? <==> AllocationFits(footprint, 1))
      ensures !old(initialized) && r.Returned? ==> fresh(r.value)
      ensures r.Returned? ==> Valid() && initialized && r.value == initialProgramInfo && IsInitialProgramInfo(r.value)
      ensures r.Aborted? ==> r.reason == AllocationTooLarge(footprint, 1) && !initialized
      ensures allocations <= 1 && builds <= 1
      ensures old(initialized) ==> allocations == old(allocations) && builds == old(builds)
      ensures r.Returned? ==> allocations == 1 && builds == 1
      ensures r.Aborted? ==> allocations == 1 && builds == 0
    {
      if initialized {
        return Returned(initialProgramInfo);
      }
      var block := allocator.Allocate(footprint, 1);
      allocations := allocations + 1;
      if block.Aborted? {
        return Aborted(block.reason);
      }
      var info := new ProgramInfo(
        FileAccessControlForInitialProgram, 4 * |FileAccessControlForInitialProgram|,
        FileAccessControlDescForInitialProgram, 4 * |FileAccessControlDescForInitialProgram|,
        block.value);
      builds := builds + 1;
      assert IsInitialProgramInfo(info);
      initialProgramInfo, initialized := info, true;
      return Returned(info);
    }
  }

  /**
    On a fresh process, two requests for the initial-program ProgramInfo
    (whose block takes 64 of the 128 bytes) return the same object, built
    from the two tables, each with the size of its memory image.
   */
  method SingletonScenario() returns (first: ProgramInfo, second: ProgramInfo)
    ensures first == second
    ensures first.accessControlData == FileAccessControlForInitialProgram
    ensures first.accessControlDesc == FileAccessControlDescForInitialProgram
    ensures first.accessControlDataSize == |ToBytes(first.accessControlData)| == 0x1C
    ensures first.accessControlDescSize == |ToBytes(first.accessControlDesc)| == 0x2C
  {
    var provider := new InitialProgramInfoProvider();
    var a := provider.GetProgramInfoForInitialProcess(64);
    var b := provider.GetProgramInfoForInitialProcess(64);
    first, second := a.value, b.value;
    TableSizes();
  }
}
