/**
  The process-identity snapshot of the filesystem service, as values: what the
  one-shot initialisation computes from the kernel's answers, the two
  classifiers that read it, and what a whole sequence of classifier calls
  observes. The class IdentityCache (module FssrvProgramInfo) is proved
  against these functions.
 */
module InitialProcessIds {
  import opened Svc
  import opened Outcomes

  /** The bounds of the initial-process id band and the service's own process id. */
  datatype Snapshot = Snapshot(min: u64, max: u64, current: u64)

  /** The two checks the initialisation makes before it publishes a snapshot. */
  predicate WellFormed(s: Snapshot) {
    0 < s.min && s.min <= s.max
  }

  /** The process-wide state: either not yet initialised, or a published snapshot. */
  datatype IdentityState = Uninitialized | Initialized(snapshot: Snapshot)

  /** Every state the initialisation can publish satisfies the checks. */
  predicate Reachable(st: IdentityState) {
    st.Initialized? ==> WellFormed(st.snapshot)
  }

  /**
    The slow path of the initialisation: query the range minimum, then the
    range maximum, check 0 < min and min <= max, then query the current
    process id. The first failure aborts.
   */
  function Acquire(k: KernelAnswers): (o: Outcome<Snapshot>) {
    if !k.rangeMinimum.Succeeded() then
      Aborted(QueryFailed(InitialProcessIdRangeMinimum, k.rangeMinimum.rc))
    else if !k.rangeMaximum.Succeeded() then
      Aborted(QueryFailed(InitialProcessIdRangeMaximum, k.rangeMaximum.rc))
    else if !(0 < k.rangeMinimum.out) then
      Aborted(MinimumIsZero)
    else if !(k.rangeMinimum.out <= k.rangeMaximum.out) then
      Aborted(MinimumAboveMaximum)
    else if !k.currentProcessId.Succeeded() then
      Aborted(QueryFailed(CurrentProcessId, k.currentProcessId.rc))
    else
      Returned(Snapshot(k.rangeMinimum.out, k.rangeMaximum.out, k.currentProcessId.out))
  }

  /** The kernel queries the slow path issues before it publishes or aborts. */
  function QueriesIssued(k: KernelAnswers): (qs: seq<QueryKind>) {
    if !k.rangeMinimum.Succeeded() then
      [InitialProcessIdRangeMinimum]
    else if !k.rangeMaximum.Succeeded()
         || !(0 < k.rangeMinimum.out)
         || !(k.rangeMinimum.out <= k.rangeMaximum.out) then
      [InitialProcessIdRangeMinimum, InitialProcessIdRangeMaximum]
    else
      AllQueries
  }

  /** One entry to the initialisation: the fast path returns the published snapshot. */
  function Initialize(st: IdentityState, k: KernelAnswers): (o: Outcome<Snapshot>) {
    match st
    case Initialized(s) => Returned(s)
    case Uninitialized => Acquire(k)
  }

  /** The kernel queries one entry to the initialisation issues. */
  function QueriesOf(st: IdentityState, k: KernelAnswers): (qs: seq<QueryKind>) {
    if st.Initialized? then [] else QueriesIssued(k)
  }

  /** The state after one entry that did not abort. */
  function Next(st: IdentityState, k: KernelAnswers): (st': IdentityState) {
    match Initialize(st, k)
    case Returned(s) => Initialized(s)
    case Aborted(_) => st
  }

  /** The closed range check of IsInitialProgram. */
  predicate InInitialBand(s: Snapshot, processId: u64) {
    s.min <= processId && processId <= s.max
  }

  /** A question a client of the service asks about a process id. */
  datatype Request =
    | InitialProgramQuery(processId: u64)   // IsInitialProgram
    | CurrentProcessQuery(processId: u64)   // IsCurrentProcess

  /** The answer to a request once a snapshot is available. */
  predicate Classify(s: Snapshot, req: Request) {
    match req
    case InitialProgramQuery(p) => InInitialBand(s, p)
    case CurrentProcessQuery(p) => p == s.current
  }

  /** A classifier call: initialise if needed, then compare against the snapshot. */
  function Respond(st: IdentityState, req: Request, k: KernelAnswers): (o: Outcome<bool>) {
    match Initialize(st, k)
    case Returned(s) => Returned(Classify(s, req))
    case Aborted(e) => Aborted(e)
  }

  /** What a run of classifier calls observed, and where it stopped. */
  datatype Session = Session(
    answers: seq<bool>,
    queries: seq<QueryKind>,
    final: IdentityState,
    abort: Option<AbortReason>)

  /**
    Runs the requests in order; the i-th call sees the kernel answers ks[i].
    An abort ends the process, so no later request is served.
   */
  function Serve(st: IdentityState, reqs: seq<Request>, ks: seq<KernelAnswers>): (session: Session)
    requires |reqs| == |ks|
    decreases |reqs|
  {
    if reqs == [] then
      Session([], [], st, None)
    else
      match Initialize(st, ks[0])
      case Aborted(e) =>
        Session([], QueriesOf(st, ks[0]), st, Some(e))
      case Returned(s) =>
        var rest := Serve(Initialized(s), reqs[1..], ks[1..]);
        Session([Classify(s, reqs[0])] + rest.answers, QueriesOf(st, ks[0]) + rest.queries,
                rest.final, rest.abort)
  }

  // ---------------------------------------------------------------------
  // The one-shot initialisation
  // ---------------------------------------------------------------------

  /** The slow path publishes a snapshot exactly when every query succeeds and both checks hold, and the snapshot holds the kernel's answers. */
  lemma AcquireSucceedsExactly(k: KernelAnswers)
    ensures Acquire(k).Returned? <==>
      && k.rangeMinimum.Succeeded()
      && k.rangeMaximum.Succeeded()
      && k.currentProcessId.Succeeded()
      && 0 < k.rangeMinimum.out <= k.rangeMaximum.out
    ensures Acquire(k).Returned? ==>
      Acquire(k).value == Snapshot(k.rangeMinimum.out, k.rangeMaximum.out, k.currentProcessId.out)
  {
  }

  /** Whatever the kernel answers, a published snapshot satisfies 0 < min <= max. */
  lemma AcquireIsWellFormed(k: KernelAnswers)
    ensures Acquire(k).Returned? ==> WellFormed(Acquire(k).value)
  {
  }

  /**
    The slow path issues a prefix of the three queries, in order; all three
    exactly when it publishes; the current process id is only asked for once
    the range has passed both checks; and a failed range-maximum query aborts.
   */
  lemma QueriesIssuedInOrder(k: KernelAnswers)
    ensures 1 <= |QueriesIssued(k)| <= 3 && QueriesIssued(k) == AllQueries[..|QueriesIssued(k)|]
    ensures Acquire(k).Returned? ==> QueriesIssued(k) == AllQueries
    ensures CurrentProcessId in QueriesIssued(k) ==>
      k.rangeMinimum.Succeeded() && k.rangeMaximum.Succeeded() && 0 < k.rangeMinimum.out <= k.rangeMaximum.out
    ensures !k.rangeMaximum.Succeeded() ==> Acquire(k).Aborted?
  {
  }

  /** Every entry to the initialisation keeps the state reachable. */
  lemma NextIsReachable(st: IdentityState, k: KernelAnswers)
    requires Reachable(st)
    ensures Reachable(Next(st, k))
    ensures Initialize(st, k).Returned? ==> WellFormed(Initialize(st, k).value)
  {
  }

  /**
    Once initialised, any later entry, whatever the kernel would answer,
    issues no query and returns the snapshot unchanged.
   */
  lemma InitializeIsIdempotent(st: IdentityState, k: KernelAnswers, later: KernelAnswers)
    requires Initialize(st, k).Returned?
    ensures Next(st, k) == Initialized(Initialize(st, k).value)
    ensures Initialize(Next(st, k), later) == Initialize(st, k)
    ensures QueriesOf(Next(st, k), later) == []
    ensures Next(Next(st, k), later) == Next(st, k)
  {
  }

  // ---------------------------------------------------------------------
  // The classifiers
  // ---------------------------------------------------------------------

  /** Process id 0 is never an initial program: the 0 < min check rules it out of every band. */
  lemma ZeroIsNeverInitialProgram(st: IdentityState, k: KernelAnswers)
    requires Reachable(st)
    ensures Respond(st, InitialProgramQuery(0), k) != Returned(true)
  {
  }

  /** The band is never empty: both bounds are initial programs. */
  lemma BandBoundsAreInitial(s: Snapshot)
    requires WellFormed(s)
    ensures Classify(s, InitialProgramQuery(s.min)) && Classify(s, InitialProgramQuery(s.max))
  {
  }

  /** The band is contiguous: an id between two initial programs is one too. */
  lemma BandIsContiguous(s: Snapshot, low: u64, mid: u64, high: u64)
    requires Classify(s, InitialProgramQuery(low)) && Classify(s, InitialProgramQuery(high))
    requires low <= mid <= high
    ensures Classify(s, InitialProgramQuery(mid))
  {
  }

  /** Ids outside [min, max] are not initial programs. */
  lemma OutsideBandIsNotInitial(s: Snapshot, processId: u64)
    requires processId < s.min || s.max < processId
    ensures !Classify(s, InitialProgramQuery(processId))
  {
  }

  /** Exactly one process id is the current process. */
  lemma ExactlyOneCurrentProcess(s: Snapshot, p: u64, q: u64)
    ensures Classify(s, CurrentProcessQuery(s.current))
    ensures Classify(s, CurrentProcessQuery(p)) && Classify(s, CurrentProcessQuery(q)) ==> p == q
  {
  }

  // ---------------------------------------------------------------------
  // Many calls
  // ---------------------------------------------------------------------

  /**
    After initialisation, any run of calls issues no kernel query, never
    aborts, leaves the snapshot as it was, and answers every request from it.
   */
  lemma {:induction false} ServeWhenInitialized(s: Snapshot, reqs: seq<Request>, ks: seq<KernelAnswers>)
    requires |reqs| == |ks|
    ensures Serve(Initialized(s), reqs, ks).queries == []
    ensures Serve(Initialized(s), reqs, ks).abort == None
    ensures Serve(Initialized(s), reqs, ks).final == Initialized(s)
    ensures |Serve(Initialized(s), reqs, ks).answers| == |reqs|
    ensures forall i :: 0 <= i < |reqs| ==> Serve(Initialized(s), reqs, ks).answers[i] == Classify(s, reqs[i])
    decreases |reqs|
  {
    if reqs != [] {
      ServeWhenInitialized(s, reqs[1..], ks[1..]);
      var rest := Serve(Initialized(s), reqs[1..], ks[1..]);
      var r := Serve(Initialized(s), reqs, ks);
      assert r.answers == [Classify(s, reqs[0])] + rest.answers;
      forall i | 0 <= i < |reqs|
        ensures r.answers[i] == Classify(s, reqs[i])
      {
        if i > 0 {
          assert r.answers[i] == rest.answers[i - 1];
          assert reqs[1..][i - 1] == reqs[i];
        }
      }
    }
  }

  /**
    From the uninitialised state, the kernel is consulted on the first call
    only: either that call aborts after the queries it issued, or the three
    queries run once and every call, first or later, is answered from the
    snapshot they produced.
   */
  lemma ServeFromUninitialized(reqs: seq<Request>, ks: seq<KernelAnswers>)
    requires |reqs| == |ks| > 0
    ensures Acquire(ks[0]).Aborted? ==>
      Serve(Uninitialized, reqs, ks) ==
        Session([], QueriesIssued(ks[0]), Uninitialized, Some(Acquire(ks[0]).reason))
    ensures Acquire(ks[0]).Returned? ==>
      var s := Acquire(ks[0]).value;
      var r := Serve(Uninitialized, reqs, ks);
      && WellFormed(s)
      && r.queries == AllQueries
      && r.abort == None
      && r.final == Initialized(s)
      && |r.answers| == |reqs|
      && (forall i :: 0 <= i < |reqs| ==> r.answers[i] == Classify(s, reqs[i]))
  {
    AcquireIsWellFormed(ks[0]);
    QueriesIssuedInOrder(ks[0]);
    if Acquire(ks[0]).Returned? {
      var s := Acquire(ks[0]).value;
      ServeWhenInitialized(s, reqs[1..], ks[1..]);
      var rest := Serve(Initialized(s), reqs[1..], ks[1..]);
      var r := Serve(Uninitialized, reqs, ks);
      forall i | 0 <= i < |reqs|
        ensures r.answers[i] == Classify(s, reqs[i])
      {
        if i > 0 {
          assert r.answers[i] == rest.answers[i - 1];
          assert reqs[1..][i - 1] == reqs[i];
        }
      }
    }
  }

  /** What the kernel would answer after the first call makes no difference to a run. */
  lemma ServeIgnoresLaterKernelAnswers(reqs: seq<Request>, ks: seq<KernelAnswers>, ks': seq<KernelAnswers>)
    requires |reqs| == |ks| == |ks'| > 0
    requires ks[0] == ks'[0]
    ensures Serve(Uninitialized, reqs, ks) == Serve(Uninitialized, reqs, ks')
  {
    ServeFromUninitialized(reqs, ks);
    ServeFromUninitialized(reqs, ks');
    if Acquire(ks[0]).Returned? {
      var a := Serve(Uninitialized, reqs, ks).answers;
      var b := Serve(Uninitialized, reqs, ks').answers;
      assert a == b by {
        assert |a| == |b|;
        forall i | 0 <= i < |a| ensures a[i] == b[i] { }
      }
    }
  }
}
