# Initial-process identity and capability bookkeeping of the filesystem service

This project models `fssrv_program_info.cpp`, the part of the Atmosphère
filesystem service that decides whether a process is an *initial program*.
An initial program is a process launched by system bootstrap, and it is
trusted by construction. The file also hands out the fixed `ProgramInfo`
that such processes are granted.

The file holds four pieces of process-wide state. The model keeps three of
them as state updated in place; the tables are constants:

- **The identity snapshot** (`FssrvProgramInfo.IdentityCache`). These are the
  globals `g_initialized`, `g_initial_process_id_min`, `g_initial_process_id_max`
  and `g_current_process_id`. The first call fills them from three kernel
  queries. It aborts the process if a query fails, if `min` is 0, or if
  `min > max`. The flag is set last, so a partial snapshot is never published.
  `IsInitialProgram` and `IsCurrentProcess` initialise the snapshot if needed
  and then make the closed range check or the equality check.
- **The static allocator** (`FssrvProgramInfo.StaticAllocator`). It owns the
  0x80-byte buffer. `allocate` aborts when the request does not fit.
  Otherwise it returns the start of that one buffer, whatever is asked for.
  `deallocate` does nothing.
- **The singleton provider** (`FssrvProgramInfo.InitialProgramInfoProvider`).
  These are the statics `s_initialized` and `s_initial_program_info` of
  `GetProgramInfoForInitialProcess`. The first call builds the `ProgramInfo`
  in the static buffer from the two constant word tables. Every later call
  returns that same object.
- **The constant tables** (`AccessControlTables`). These are the 7-word
  access-control data and the 11-word descriptor. The module also gives the
  size of their little-endian memory images, which is what the `ProgramInfo`
  constructor receives with them: 0x1C and 0x2C bytes.

The class methods are proved against value-level functions in the module
`InitialProcessIds`. `Acquire` is the slow path of the initialisation.
`Initialize` and `Next` describe one entry to it. `Respond` is one
classifier call. `Serve` runs a sequence of classifier calls.

Aborts are not preconditions. Every operation that can abort returns an
`Outcomes.Outcome`, which is either `Returned(value)` or
`Aborted(reason)`. The reason says which check fired. After an abort no
contract promises `Valid()` any more, so nothing more can be called.
This matches a process that has stopped.

The kernel is not modelled. What it would answer to each query is an input,
`Svc.KernelAnswers`, made of a result code and an out value per query.
Result code 0 is success. The ghost field `IdentityCache.queries` logs the
queries actually issued. This log lets the contracts say that the kernel is
consulted once.

The capacity check in `allocate` is `sizeof(T) * n <= 0x80`. The model takes
the element size and the element count as inputs, and `Allocate` compares
their exact product (see Left out and Findings).

## Model

| member | source | states |
|---|---|---|
| `InitialProcessIds.Acquire` | libraries/libstratosphere/source/fssrv/impl/fssrv_program_info.cpp:63-74 | defines the slow path: query the minimum and the maximum, check 0 < min and min <= max, query the current id, abort at the first failure; its properties are the lemmas below |
| `InitialProcessIds.QueriesIssued` | libraries/libstratosphere/source/fssrv/impl/fssrv_program_info.cpp:64-71 | defines the kernel queries the slow path issues before it publishes or aborts |
| `InitialProcessIds.Initialize` | libraries/libstratosphere/source/fssrv/impl/fssrv_program_info.cpp:60-62 | defines one entry to the initialisation: the published snapshot if there is one, otherwise `Acquire` |
| `InitialProcessIds.QueriesOf` | libraries/libstratosphere/source/fssrv/impl/fssrv_program_info.cpp:60-71 | defines the queries one entry issues: none once initialised |
| `InitialProcessIds.Next` | libraries/libstratosphere/source/fssrv/impl/fssrv_program_info.cpp:59-77 | defines the state after one entry: the snapshot is published only when the entry returns |
| `InitialProcessIds.InInitialBand` | libraries/libstratosphere/source/fssrv/impl/fssrv_program_info.cpp:109 | defines the closed range test min <= pid <= max |
| `InitialProcessIds.Classify` | libraries/libstratosphere/source/fssrv/impl/fssrv_program_info.cpp:109-116 | defines the answer to each classifier request from a snapshot: the range test, or equality with the current id |
| `InitialProcessIds.Respond` | libraries/libstratosphere/source/fssrv/impl/fssrv_program_info.cpp:103-117 | defines one classifier call: the initialisation's abort, or `Classify` on its snapshot |
| `InitialProcessIds.Serve` | libraries/libstratosphere/source/fssrv/impl/fssrv_program_info.cpp:103-117 | defines a run of classifier calls, stopping at the first abort |
| `InitialProcessIds.AcquireSucceedsExactly` | libraries/libstratosphere/source/fssrv/impl/fssrv_program_info.cpp:63-74 | the slow path publishes a snapshot iff all three queries succeed and 0 < min <= max; the snapshot published is exactly (min, max, current) as the kernel reported them |
| `InitialProcessIds.AcquireIsWellFormed` | libraries/libstratosphere/source/fssrv/impl/fssrv_program_info.cpp:67-68 | whatever the kernel answers, a published snapshot has 0 < min and min <= max |
| `InitialProcessIds.QueriesIssuedInOrder` | libraries/libstratosphere/source/fssrv/impl/fssrv_program_info.cpp:64-71 | the queries issued are a non-empty prefix of (minimum, maximum, current), all three when the snapshot is published; the current id is asked for only after both range checks pass; a failed maximum query aborts |
| `InitialProcessIds.NextIsReachable` | libraries/libstratosphere/source/fssrv/impl/fssrv_program_info.cpp:59-77 | every entry to the initialisation keeps "initialised implies 0 < min <= max" |
| `InitialProcessIds.InitializeIsIdempotent` | libraries/libstratosphere/source/fssrv/impl/fssrv_program_info.cpp:60-62 | once initialised, a later entry issues no query and returns the same snapshot, whatever the kernel would answer |
| `InitialProcessIds.ZeroIsNeverInitialProgram` | libraries/libstratosphere/source/fssrv/impl/fssrv_program_info.cpp:103-110 | IsInitialProgram(0) never returns true from any reachable state |
| `InitialProcessIds.BandBoundsAreInitial` | libraries/libstratosphere/source/fssrv/impl/fssrv_program_info.cpp:109 | in a well-formed snapshot both min and max are initial programs, so the band is never empty |
| `InitialProcessIds.BandIsContiguous` | libraries/libstratosphere/source/fssrv/impl/fssrv_program_info.cpp:109 | an id between two initial programs is an initial program |
| `InitialProcessIds.OutsideBandIsNotInitial` | libraries/libstratosphere/source/fssrv/impl/fssrv_program_info.cpp:109 | an id below min or above max is not an initial program |
| `InitialProcessIds.ExactlyOneCurrentProcess` | libraries/libstratosphere/source/fssrv/impl/fssrv_program_info.cpp:116 | the snapshot's current id is the current process, and no other id is |
| `InitialProcessIds.ServeWhenInitialized` | libraries/libstratosphere/source/fssrv/impl/fssrv_program_info.cpp:103-117 | after initialisation, any sequence of classifier calls issues no query, never aborts, leaves the snapshot unchanged and answers each call from it |
| `InitialProcessIds.ServeFromUninitialized` | libraries/libstratosphere/source/fssrv/impl/fssrv_program_info.cpp:59-77 | from the uninitialised state, either the first call aborts after the queries it issued and publishes nothing, or the three queries run exactly once over the whole sequence and every call is answered from their snapshot |
| `InitialProcessIds.ServeIgnoresLaterKernelAnswers` | libraries/libstratosphere/source/fssrv/impl/fssrv_program_info.cpp:60-62 | what the kernel would answer after the first call makes no difference to any run |
| `AccessControlTables.WordBytes` | libraries/libstratosphere/source/fssrv/impl/fssrv_program_info.cpp:56-57 | a word's image is four bytes whose little-endian value is the word |
| `AccessControlTables.ToBytes` | libraries/libstratosphere/source/fssrv/impl/fssrv_program_info.cpp:56-57 | the memory image of a word table is four bytes per word, and the bytes at offset 4i are the image of word i |
| `AccessControlTables.TableSizes` | libraries/libstratosphere/source/fssrv/impl/fssrv_program_info.cpp:56-57 | the two tables occupy 0x1C and 0x2C bytes |
| `FssrvProgramInfo.IdentityCache.constructor` | libraries/libstratosphere/source/fssrv/impl/fssrv_program_info.cpp:24-29 | the globals start uninitialised with every id 0 and no query issued |
| `FssrvProgramInfo.IdentityCache.InitializeInitialAndCurrentProcessId` | libraries/libstratosphere/source/fssrv/impl/fssrv_program_info.cpp:59-77 | when already initialised, nothing changes and no query runs; otherwise the globals become the snapshot Acquire computes and the flag is set, or the process aborts with Acquire's reason and the flag stays clear; the query log grows by exactly the queries issued |
| `FssrvProgramInfo.IdentityCache.IsInitialProgram` | libraries/libstratosphere/source/fssrv/impl/fssrv_program_info.cpp:103-110 | the result is Respond on the old state: an abort from initialisation, or min <= pid <= max on the snapshot; the re-check 0 < min never fires |
| `FssrvProgramInfo.IdentityCache.IsCurrentProcess` | libraries/libstratosphere/source/fssrv/impl/fssrv_program_info.cpp:112-117 | the result is Respond on the old state: an abort from initialisation, or pid == current on the snapshot |
| `FssrvProgramInfo.BandScenario` | libraries/libstratosphere/source/fssrv/impl/fssrv_program_info.cpp:103-117 | with min = 1, max = 10, current = 5: 1 and 10 are initial programs, 11 and 0 are not, 5 is the current process, 6 is not, even with a failing kernel after the first call |
| `FssrvProgramInfo.MaximumQueryFailureScenario` | libraries/libstratosphere/source/fssrv/impl/fssrv_program_info.cpp:65 | a failed range-maximum query aborts with that query's result code and leaves the flag clear |
| `FssrvProgramInfo.AllocationFitsAsWritten` | libraries/libstratosphere/source/fssrv/impl/fssrv_program_info.cpp:47 | defines the capacity check as written: the size_t product sizeof(T) * n, taken modulo 2^64, is at most 0x80 |
| `FssrvProgramInfo.AllocationFits` | libraries/libstratosphere/source/fssrv/impl/fssrv_program_info.cpp:47 | defines the capacity check as intended: the exact product is at most 0x80 |
| `FssrvProgramInfo.WrappedCheckAdmitsOversizeRequest` | libraries/libstratosphere/source/fssrv/impl/fssrv_program_info.cpp:47 | the check as written, with size_t wrap-around, accepts 2 * 2^63 bytes, which do not fit |
| `FssrvProgramInfo.ChecksAgreeForOneElement` | libraries/libstratosphere/source/fssrv/impl/fssrv_program_info.cpp:47 | for a single-element request the wrapped and the exact capacity checks agree |
| `FssrvProgramInfo.StaticAllocator.constructor` | libraries/libstratosphere/source/fssrv/impl/fssrv_program_info.cpp:31 | the static buffer is 0x80 bytes |
| `FssrvProgramInfo.StaticAllocator.Allocate` | libraries/libstratosphere/source/fssrv/impl/fssrv_program_info.cpp:46-49 | returns iff the request fits in 0x80 bytes, and then always the one static buffer, which covers the request; otherwise aborts with the size requested |
| `FssrvProgramInfo.StaticAllocator.Deallocate` | libraries/libstratosphere/source/fssrv/impl/fssrv_program_info.cpp:51-53 | nothing changes, not even the buffer's contents |
| `FssrvProgramInfo.ProgramInfo.constructor` | libraries/libstratosphere/source/fssrv/impl/fssrv_program_info.cpp:90-93 | the object records the tables and sizes it was given and the storage it was placed in |
| `FssrvProgramInfo.InitialProgramInfoProvider.constructor` | libraries/libstratosphere/source/fssrv/impl/fssrv_program_info.cpp:82-84 | the statics start with the flag clear and no object; nothing has been allocated or built |
| `FssrvProgramInfo.InitialProgramInfoProvider.GetProgramInfoForInitialProcess` | libraries/libstratosphere/source/fssrv/impl/fssrv_program_info.cpp:81-101 | once initialised, returns the existing object and changes nothing; the first call returns a fresh object iff its block fits the buffer, built from the two tables with sizes 0x1C and 0x2C and placed in the static buffer, and sets the flag; otherwise it aborts and the flag stays clear. The static buffer is allocated at most once and at most one object is built in it: a later call allocates and builds nothing |
| `FssrvProgramInfo.SingletonScenario` | libraries/libstratosphere/source/fssrv/impl/fssrv_program_info.cpp:87-100 | two calls on a fresh process (64-byte block) return the identical object, holding the listed tables with sizes equal to their memory images |

## Left out

- The locks `g_mutex` and `s_mutex`, and double-checked locking. Calls are sequential here, so each lazy initialisation is one test of its flag. Concurrent callers are not modelled.
- The kernel calls `svc::GetSystemInfo` and `svc::GetProcessId`. Their answers are inputs. A failed call is modelled as leaving its global unwritten; this cannot be observed because the process then aborts.
- `std::allocate_shared`, the `shared_ptr` control block and reference counting. The singleton is one heap object. `footprint` stands for the size of the block that `allocate_shared` requests. Placement in the buffer is recorded as the object's `storage` field; the buffer's bytes are not written.
- The `ProgramInfo` constructor and the meaning of the access-control tables. The header `fssrv_program_info.hpp` is not part of this model, so the tables stay opaque words and the constructor only records what it is given.
- Allocator rebinding and copies. Every copy of the allocator shares the one buffer, so a single `StaticAllocator` object stands for all of them.
- `FssrvProgramInfo.StaticAllocator.Allocate` uses the exact capacity check rather than the wrapped one the code has (see Findings).
- The byte images assume a little-endian target. `ProgramInfo` records the tables as words together with the byte sizes passed with them, not as the untyped memory the real constructor receives; the image functions give those sizes and say which bytes that memory holds.
- `fs_code_verification_data.hpp` is left out. It is a data layout whose only content is a size assertion, and its sizes come from a cryptography header that is not part of this model.
- `i2c_select_driver_api.hpp` is left out. It is compile-time board selection with no runtime behaviour.

## Findings

| source | as written | input that shows it | evidently intended | confidence | as-written member | corrected member |
|---|---|---|---|---|---|---|
| libraries/libstratosphere/source/fssrv/impl/fssrv_program_info.cpp:47 | `sizeof(T) * n` is a `size_t` product that wraps modulo 2^64 before it is compared with 0x80 | `sizeof(T) = 2`, `n = 2^63`: the product wraps to 0, the check passes, and the 0x80-byte buffer is returned for a 2^64-byte request | abort whenever the request's true size exceeds 0x80 bytes | low, not executed; the only caller, `allocate_shared`, asks for one element, and for one element the two checks agree | `FssrvProgramInfo.WrappedCheckAdmitsOversizeRequest` | `FssrvProgramInfo.StaticAllocator.Allocate` |
