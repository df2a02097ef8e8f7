/**
 `GenerateListings`: the retry/pacing loop that asks the listing chain for one
 listing per slot, and the class's own copy of `listings_to_documents`.

 The chain is opaque; it is modelled as the outcome of its k-th invocation,
 `chain(k)`, counted from zero over the whole run. Sleeps are counted, not timed.
 */
module ListingGenerator {
  import opened Text
  import opened Listings
  import opened Wrappers
  import ChromaStore

  /** What one `chain.invoke({})` does: return a listing or raise an exception with this text. */
  datatype Outcome = Ok(listing: Listing) | Err(message: string)

  /** The two diagnostic classes the loop logs a failure under. */
  datatype ErrorKind = AccessDenied | Unexpected

  /** One caught failure: the slot, the attempt count after the increment, and whether a retry follows. */
  datatype LoggedFailure = LoggedFailure(slot: nat, attempt: nat, kind: ErrorKind, message: string, retrying: bool)

  /** How a slot ended, and how many invocations it made. */
  datatype SlotEnd = Filled(calls: nat) | Skipped(calls: nat)

  /** Everything observable about a run: the result, the invocation and sleep counts, and the log. */
  datatype Run = Run(listings: seq<Listing>, calls: nat, sleeps: nat, slots: seq<SlotEnd>, log: seq<LoggedFailure>)

  /**
   The access-denied test applied to the exception text: both "403" and
   "Access denied" occur somewhere in it, in either order.
   */
  function Classify(message: string): (kind: ErrorKind)
    ensures kind == AccessDenied <==>
      (exists i: nat :: OccursAt(message, "403", i)) && (exists j: nat :: OccursAt(message, "Access denied", j))
  {
    ContainsOccurs(message, "403");
    ContainsOccurs(message, "Access denied");
    if Contains(message, "403") && Contains(message, "Access denied") then AccessDenied else Unexpected
  }

  /** Number of slots `range(n)` yields. */
  function Slots(n: int): nat {
    if n < 0 then 0 else n
  }

  /** Invocations allowed per slot: `attempts` runs over `0..max_retries`. */
  function Budget(maxRetries: int): nat {
    if maxRetries < 0 then 0 else maxRetries + 1
  }

  // ---------------------------------------------------------------------------
  // Reference definitions: what the loop should do, stated slot by slot.
  // ---------------------------------------------------------------------------

  /**
   Invocations made by a slot whose first invocation is number `start`: up to and
   including the first success, and never more than the budget.
   */
  function SlotCalls(chain: nat -> Outcome, start: nat, budget: nat): (c: nat)
    ensures c <= budget
    ensures budget > 0 ==> c >= 1
    ensures c < budget ==> chain(start + c - 1).Ok?
    decreases budget
  {
    if budget == 0 then 0
    else if chain(start).Ok? then 1
    else 1 + SlotCalls(chain, start + 1, budget - 1)
  }

  /** Invocations made by the first `slots` slots. */
  function TotalCalls(chain: nat -> Outcome, slots: nat, budget: nat): (c: nat)
    ensures budget > 0 ==> c >= slots
  {
    if slots == 0 then 0
    else
      var prev := TotalCalls(chain, slots - 1, budget);
      prev + SlotCalls(chain, prev, budget)
  }

  /** No run makes more than `budget` invocations per slot. */
  lemma {:induction false} TotalCallsBound(chain: nat -> Outcome, slots: nat, budget: nat)
    ensures TotalCalls(chain, slots, budget) <= slots * budget
  {
    if slots > 0 {
      TotalCallsBound(chain, slots - 1, budget);
      MulSucc(slots - 1, budget);
    }
  }

  lemma MulSucc(a: nat, b: nat)
    ensures a * b + b == (a + 1) * b
  {
  }

  /** The listings returned by the first `m` invocations, in invocation order. */
  function Returned(chain: nat -> Outcome, m: nat): (ls: seq<Listing>)
    ensures |ls| <= m
  {
    if m == 0 then []
    else Returned(chain, m - 1) + (if chain(m - 1).Ok? then [chain(m - 1).listing] else [])
  }

  function FilledCount(slots: seq<SlotEnd>): nat {
    if slots == [] then 0 else FilledCount(slots[..|slots| - 1]) + (if slots[|slots| - 1].Filled? then 1 else 0)
  }

  function SlotCallSum(slots: seq<SlotEnd>): nat {
    if slots == [] then 0 else SlotCallSum(slots[..|slots| - 1]) + slots[|slots| - 1].calls
  }

  function RetryCount(log: seq<LoggedFailure>): nat {
    if log == [] then 0 else RetryCount(log[..|log| - 1]) + (if log[|log| - 1].retrying then 1 else 0)
  }

  /** A slot makes at least one and at most `budget` calls when filled, exactly `budget` when skipped. */
  predicate SlotWithinBudget(s: SlotEnd, budget: nat) {
    match s
    case Filled(c) => 1 <= c <= budget
    case Skipped(c) => c == budget
  }

  /** A logged failure is classified by its text, and is retried exactly when budget remains. */
  predicate WellLogged(e: LoggedFailure, slots: nat, budget: nat) {
    && e.slot < slots
    && 1 <= e.attempt <= budget
    && e.kind == Classify(e.message)
    && (e.retrying <==> e.attempt < budget)
  }

  lemma RetryCountAppend(a: seq<LoggedFailure>, b: seq<LoggedFailure>)
    ensures RetryCount(a + b) == RetryCount(a) + RetryCount(b)
    decreases |b|
  {
    if b != [] {
      assert (a + b)[..|a + b| - 1] == a + b[..|b| - 1];
      RetryCountAppend(a, b[..|b| - 1]);
    } else {
      assert a + b == a;
    }
  }

  lemma LogAppend(log: seq<LoggedFailure>, entry: LoggedFailure)
    ensures RetryCount(log + [entry]) == RetryCount(log) + (if entry.retrying then 1 else 0)
    ensures forall e :: e in log + [entry] <==> e in log || e == entry
  {
    assert (log + [entry])[..|log|] == log;
  }

  lemma SlotsAppend(slots: seq<SlotEnd>, end: SlotEnd)
    ensures FilledCount(slots + [end]) == FilledCount(slots) + (if end.Filled? then 1 else 0)
    ensures SlotCallSum(slots + [end]) == SlotCallSum(slots) + end.calls
  {
    assert (slots + [end])[..|slots|] == slots;
  }

  /** The slot's last invocation succeeded: it ends with a listing. */
  predicate SlotFilled(chain: nat -> Outcome, start: nat, budget: nat) {
    var c := SlotCalls(chain, start, budget);
    c > 0 && chain(start + c - 1).Ok?
  }

  /** How the slot ends, and after how many invocations. */
  function SlotEndOf(chain: nat -> Outcome, start: nat, budget: nat): (end: SlotEnd)
    ensures SlotWithinBudget(end, budget)
  {
    var c := SlotCalls(chain, start, budget);
    if SlotFilled(chain, start, budget) then Filled(c) else Skipped(c)
  }

  /** The text of invocation `k`, when it raised. */
  function MessageAt(chain: nat -> Outcome, k: nat): string {
    match chain(k)
    case Err(message) => message
    case Ok(_) => ""
  }

  /** The log entry for the slot's `attempts`-th failure. */
  function FailureEntry(slot: nat, attempts: nat, budget: nat, message: string): LoggedFailure {
    LoggedFailure(slot, attempts, Classify(message), message, attempts < budget)
  }

  /**
   The entries for the first `count` failed invocations of slot `slot`: the
   `j`-th carries attempt number `j + 1` and the text of the slot's `j`-th invocation.
   */
  function FailedEntries(chain: nat -> Outcome, start: nat, slot: nat, budget: nat, count: nat): (log: seq<LoggedFailure>)
    ensures |log| == count
    ensures forall j :: 0 <= j < count ==> log[j] == FailureEntry(slot, j + 1, budget, MessageAt(chain, start + j))
  {
    if count == 0 then []
    else
      var entry := FailureEntry(slot, count, budget, MessageAt(chain, start + count - 1));
      FailedEntries(chain, start, slot, budget, count - 1) + [entry]
  }

  /** Entries within the budget are logged under their slot, classified and flagged as the loop does. */
  lemma FailedEntriesWellLogged(chain: nat -> Outcome, start: nat, slot: nat, budget: nat, count: nat)
    requires count <= budget
    ensures forall e :: e in FailedEntries(chain, start, slot, budget, count) ==> e.slot == slot && WellLogged(e, slot + 1, budget)
  {
    var log := FailedEntries(chain, start, slot, budget, count);
    forall e | e in log ensures e.slot == slot && WellLogged(e, slot + 1, budget) {
      var j :| 0 <= j < |log| && log[j] == e;
    }
  }

  /** The log of slot `slot`: one entry per failed invocation, in invocation order. */
  function SlotLog(chain: nat -> Outcome, start: nat, slot: nat, budget: nat): (log: seq<LoggedFailure>)
    ensures |log| == SlotCalls(chain, start, budget) - (if SlotFilled(chain, start, budget) then 1 else 0)
    ensures forall e :: e in log ==> e.slot == slot && WellLogged(e, slot + 1, budget)
  {
    var failed := SlotCalls(chain, start, budget) - (if SlotFilled(chain, start, budget) then 1 else 0);
    FailedEntriesWellLogged(chain, start, slot, budget, failed);
    FailedEntries(chain, start, slot, budget, failed)
  }

  /**
   What one slot whose first invocation is number `start` does: it makes the
   reference number of invocations, gets at most the one listing those return,
   logs every failed invocation of the slot, and sleeps before every retry.
   */
  ghost predicate SlotReport(chain: nat -> Outcome, start: nat, slot: nat, budget: nat,
                             got: Option<Listing>, made: nat, failures: seq<LoggedFailure>, sleeps: nat) {
    && made == SlotCalls(chain, start, budget)
    && (got.Some? <==> SlotFilled(chain, start, budget))
    && Returned(chain, start + made) == Returned(chain, start) + (if got.Some? then [got.value] else [])
    && (got.Some? ==> 1 <= made <= budget)
    && (got.None? ==> made == budget)
    && failures == SlotLog(chain, start, slot, budget)
    && |failures| == made - (if got.Some? then 1 else 0)
    && (forall e :: e in failures ==> e.slot == slot && WellLogged(e, slot + 1, budget))
    && sleeps == RetryCount(failures)
    && (budget > 0 ==> sleeps == made - 1)
  }

  /**
   The state of a slot after its first `attempts` invocations all failed: they
   were the first `attempts` of the slot's calls and returned nothing, the `j`-th
   was logged under this slot with attempt number `j + 1` and its own text, and
   every one with budget left was followed by a sleep.
   */
  ghost predicate Failing(chain: nat -> Outcome, start: nat, slot: nat, budget: nat,
                          attempts: nat, failures: seq<LoggedFailure>, sleeps: nat) {
    FailedSoFar(chain, start, budget, attempts) && LoggedSoFar(chain, start, slot, budget, attempts, failures, sleeps)
  }

  /** The invocation side of `Failing`. */
  ghost predicate FailedSoFar(chain: nat -> Outcome, start: nat, budget: nat, attempts: nat) {
    && attempts <= budget
    && SlotCalls(chain, start, budget) == attempts + SlotCalls(chain, start + attempts, budget - attempts)
    && Returned(chain, start + attempts) == Returned(chain, start)
    && (attempts > 0 ==> chain(start + attempts - 1).Err?)
  }

  /** The log and sleep side of `Failing`. */
  ghost predicate LoggedSoFar(chain: nat -> Outcome, start: nat, slot: nat, budget: nat,
                              attempts: nat, failures: seq<LoggedFailure>, sleeps: nat) {
    && failures == FailedEntries(chain, start, slot, budget, attempts)
    && sleeps == RetryCount(failures)
    && (budget > 0 ==> sleeps == attempts - (if attempts == budget then 1 else 0))
  }

  /** One more failed invocation is logged, and followed by a sleep when budget remains. */
  lemma FailingStep(chain: nat -> Outcome, start: nat, slot: nat, budget: nat,
                    attempts: nat, failures: seq<LoggedFailure>, sleeps: nat)
    requires Failing(chain, start, slot, budget, attempts, failures, sleeps)
    requires attempts < budget && chain(start + attempts).Err?
    ensures var entry := FailureEntry(slot, attempts + 1, budget, chain(start + attempts).message);
      Failing(chain, start, slot, budget, attempts + 1, failures + [entry],
              sleeps + (if entry.retrying then 1 else 0))
  {
    FailedStep(chain, start, budget, attempts);
    LoggedStep(chain, start, slot, budget, attempts, failures, sleeps);
  }

  lemma FailedStep(chain: nat -> Outcome, start: nat, budget: nat, attempts: nat)
    requires FailedSoFar(chain, start, budget, attempts)
    requires attempts < budget && chain(start + attempts).Err?
    ensures FailedSoFar(chain, start, budget, attempts + 1)
  {
    var k := start + attempts;
    assert SlotCalls(chain, k, budget - attempts) == 1 + SlotCalls(chain, k + 1, budget - attempts - 1);
    assert Returned(chain, k + 1) == Returned(chain, k);
  }

  lemma LoggedStep(chain: nat -> Outcome, start: nat, slot: nat, budget: nat,
                   attempts: nat, failures: seq<LoggedFailure>, sleeps: nat)
    requires LoggedSoFar(chain, start, slot, budget, attempts, failures, sleeps)
    requires attempts < budget && chain(start + attempts).Err?
    ensures var entry := FailureEntry(slot, attempts + 1, budget, chain(start + attempts).message);
      LoggedSoFar(chain, start, slot, budget, attempts + 1, failures + [entry],
                  sleeps + (if entry.retrying then 1 else 0))
  {
    var entry := FailureEntry(slot, attempts + 1, budget, chain(start + attempts).message);
    assert MessageAt(chain, start + attempts) == chain(start + attempts).message;
    assert FailedEntries(chain, start, slot, budget, attempts + 1) == failures + [entry];
    LogAppend(failures, entry);
  }

  /** A success ends the slot with its listing. */
  lemma FailingThenSuccess(chain: nat -> Outcome, start: nat, slot: nat, budget: nat,
                           attempts: nat, failures: seq<LoggedFailure>, sleeps: nat)
    requires Failing(chain, start, slot, budget, attempts, failures, sleeps)
    requires attempts < budget && chain(start + attempts).Ok?
    ensures SlotReport(chain, start, slot, budget, Some(chain(start + attempts).listing), attempts + 1, failures, sleeps)
  {
    SucceedsAt(chain, start, budget, attempts);
    assert failures == SlotLog(chain, start, slot, budget);
  }

  /** The first success of the slot is its last invocation, and its listing is the one returned. */
  lemma SucceedsAt(chain: nat -> Outcome, start: nat, budget: nat, attempts: nat)
    requires FailedSoFar(chain, start, budget, attempts)
    requires attempts < budget && chain(start + attempts).Ok?
    ensures SlotCalls(chain, start, budget) == attempts + 1 && SlotFilled(chain, start, budget)
    ensures Returned(chain, start + attempts + 1) == Returned(chain, start) + [chain(start + attempts).listing]
  {
    var k := start + attempts;
    assert SlotCalls(chain, k, budget - attempts) == 1;
    assert Returned(chain, k + 1) == Returned(chain, k) + [chain(k).listing];
  }

  /** Once the budget is spent the slot ends empty-handed. */
  lemma FailingExhausted(chain: nat -> Outcome, start: nat, slot: nat, budget: nat,
                         failures: seq<LoggedFailure>, sleeps: nat)
    requires Failing(chain, start, slot, budget, budget, failures, sleeps)
    ensures SlotReport(chain, start, slot, budget, None, budget, failures, sleeps)
  {
    assert !SlotFilled(chain, start, budget) by {
      if budget > 0 {
        assert chain(start + budget - 1).Err?;
      }
    }
    assert failures == SlotLog(chain, start, slot, budget);
  }

  /**
   One iteration of the slot loop: the `while attempts <= max_retries` retry loop
   for slot `slot`, whose first invocation is number `start`. A failure is logged
   under its classification, then either retried after a sleep or, once the
   budget is spent, the slot is given up.
   */
  method FillSlot(chain: nat -> Outcome, start: nat, slot: nat, maxRetries: int)
    returns (got: Option<Listing>, made: nat, failures: seq<LoggedFailure>, sleeps: nat)
    ensures SlotReport(chain, start, slot, Budget(maxRetries), got, made, failures, sleeps)
  {
    var budget := Budget(maxRetries);
    var attempts := 0;
    failures := [];
    sleeps := 0;
    while attempts <= maxRetries
      invariant attempts <= budget && (attempts < budget <==> attempts <= maxRetries)
      invariant Failing(chain, start, slot, budget, attempts, failures, sleeps)
    {
      var outcome := chain(start + attempts);
      if outcome.Ok? {
        FailingThenSuccess(chain, start, slot, budget, attempts, failures, sleeps);
        return Some(outcome.listing), attempts + 1, failures, sleeps;
      }
      FailingStep(chain, start, slot, budget, attempts, failures, sleeps);
      attempts := attempts + 1;
      var retrying := attempts <= maxRetries;
      failures := failures + [LoggedFailure(slot, attempts, Classify(outcome.message), outcome.message, retrying)];
      if retrying {
        sleeps := sleeps + 1;
      }
    }
    FailingExhausted(chain, start, slot, budget, failures, sleeps);
    return None, budget, failures, sleeps;
  }

  /** The slot record of a run over the first `i` slots: budgets respected, calls and fills tallied. */
  ghost predicate SlotsAccounted(i: nat, budget: nat, r: Run) {
    && |r.slots| == i
    && (forall s :: s in r.slots ==> SlotWithinBudget(s, budget))
    && SlotCallSum(r.slots) == r.calls
    && |r.listings| == FilledCount(r.slots) <= i
  }

  /** The invocations of a run over the first `i` slots, and the listings they returned. */
  ghost predicate CallsAccounted(chain: nat -> Outcome, i: nat, budget: nat, r: Run) {
    && r.calls == TotalCalls(chain, i, budget)
    && r.listings == Returned(chain, r.calls)
  }

  /** One log entry per failed invocation, one sleep per retry plus one pacing sleep per slot. */
  ghost predicate LogAccounted(i: nat, budget: nat, r: Run) {
    && |r.log| == r.calls - |r.listings|
    && (forall e :: e in r.log ==> WellLogged(e, i, budget))
    && r.sleeps == i + RetryCount(r.log)
    && r.sleeps == if budget == 0 then i else r.calls
  }

  /** How each of the first `slots` slots ends, in slot order. */
  function RunSlots(chain: nat -> Outcome, slots: nat, budget: nat): (ends: seq<SlotEnd>)
    ensures |ends| == slots
  {
    if slots == 0 then []
    else RunSlots(chain, slots - 1, budget) + [SlotEndOf(chain, TotalCalls(chain, slots - 1, budget), budget)]
  }

  /** The logs of the first `slots` slots, concatenated in slot order. */
  function RunLog(chain: nat -> Outcome, slots: nat, budget: nat): seq<LoggedFailure> {
    if slots == 0 then []
    else RunLog(chain, slots - 1, budget) + SlotLog(chain, TotalCalls(chain, slots - 1, budget), slots - 1, budget)
  }

  /** Entry `j` of the slot record is how slot `j` ends, its first invocation following the earlier slots' calls. */
  lemma {:induction false} RunSlotsAt(chain: nat -> Outcome, slots: nat, budget: nat, j: nat)
    requires j < slots
    ensures RunSlots(chain, slots, budget)[j] == SlotEndOf(chain, TotalCalls(chain, j, budget), budget)
  {
    var prev := RunSlots(chain, slots - 1, budget);
    var last := SlotEndOf(chain, TotalCalls(chain, slots - 1, budget), budget);
    assert RunSlots(chain, slots, budget) == prev + [last];
    if j < slots - 1 {
      RunSlotsAt(chain, slots - 1, budget, j);
      assert (prev + [last])[j] == prev[j];
    }
  }

  /** The slot record and the log of a run over the first `i` slots are the reference ones. */
  ghost predicate RecordAccounted(chain: nat -> Outcome, i: nat, budget: nat, r: Run) {
    r.slots == RunSlots(chain, i, budget) && r.log == RunLog(chain, i, budget)
  }

  /** Everything a run over the first `i` slots has accounted for. */
  ghost predicate Accounted(chain: nat -> Outcome, i: nat, budget: nat, r: Run) {
    && SlotsAccounted(i, budget, r) && CallsAccounted(chain, i, budget, r) && LogAccounted(i, budget, r)
    && RecordAccounted(chain, i, budget, r)
  }

  /** The run after one more slot, as `FillSlot` reports it. */
  function AddSlot(r: Run, got: Option<Listing>, made: nat, failures: seq<LoggedFailure>, sleeps: nat): Run {
    Run(
      r.listings + (if got.Some? then [got.value] else []),
      r.calls + made,
      r.sleeps + sleeps + 1,  // one pacing sleep after every slot
      r.slots + [if got.Some? then Filled(made) else Skipped(made)],
      r.log + failures)
  }

  lemma SlotsStep(i: nat, budget: nat, r: Run, got: Option<Listing>, made: nat, failures: seq<LoggedFailure>, sleeps: nat)
    requires SlotsAccounted(i, budget, r)
    requires got.Some? ==> 1 <= made <= budget
    requires got.None? ==> made == budget
    ensures SlotsAccounted(i + 1, budget, AddSlot(r, got, made, failures, sleeps))
  {
    SlotsAppend(r.slots, if got.Some? then Filled(made) else Skipped(made));
  }

  lemma CallsStep(chain: nat -> Outcome, i: nat, budget: nat, r: Run,
                  got: Option<Listing>, made: nat, failures: seq<LoggedFailure>, sleeps: nat)
    requires CallsAccounted(chain, i, budget, r)
    requires made == SlotCalls(chain, r.calls, budget)
    requires Returned(chain, r.calls + made) == Returned(chain, r.calls) + (if got.Some? then [got.value] else [])
    ensures CallsAccounted(chain, i + 1, budget, AddSlot(r, got, made, failures, sleeps))
  {
  }

  lemma LogStep(i: nat, budget: nat, r: Run, got: Option<Listing>, made: nat, failures: seq<LoggedFailure>, sleeps: nat)
    requires LogAccounted(i, budget, r)
    requires |failures| == made - (if got.Some? then 1 else 0)
    requires forall e :: e in failures ==> WellLogged(e, i + 1, budget)
    requires sleeps == RetryCount(failures)
    requires budget > 0 ==> sleeps == made - 1
    requires budget == 0 ==> made == 0 && got.None?
    ensures LogAccounted(i + 1, budget, AddSlot(r, got, made, failures, sleeps))
  {
    RetryCountAppend(r.log, failures);
    var r' := AddSlot(r, got, made, failures, sleeps);
    assert |r'.log| == r'.calls - |r'.listings|;
    forall e | e in r'.log ensures WellLogged(e, i + 1, budget) {
      if e in r.log {
        assert WellLogged(e, i, budget);
      }
    }
  }

  lemma RecordStep(chain: nat -> Outcome, i: nat, budget: nat, r: Run,
                   got: Option<Listing>, made: nat, failures: seq<LoggedFailure>, sleeps: nat)
    requires RecordAccounted(chain, i, budget, r) && r.calls == TotalCalls(chain, i, budget)
    requires SlotReport(chain, r.calls, i, budget, got, made, failures, sleeps)
    ensures RecordAccounted(chain, i + 1, budget, AddSlot(r, got, made, failures, sleeps))
  {
  }

  /** Adding one slot's outcome, exactly as `FillSlot` reports it, keeps the run accounted for. */
  lemma SlotStep(chain: nat -> Outcome, i: nat, maxRetries: int, r: Run,
                 got: Option<Listing>, made: nat, failures: seq<LoggedFailure>, sleeps: nat)
    requires Accounted(chain, i, Budget(maxRetries), r)
    requires SlotReport(chain, r.calls, i, Budget(maxRetries), got, made, failures, sleeps)
    ensures Accounted(chain, i + 1, Budget(maxRetries), AddSlot(r, got, made, failures, sleeps))
  {
    var budget := Budget(maxRetries);
    SlotsStep(i, budget, r, got, made, failures, sleeps);
    CallsStep(chain, i, budget, r, got, made, failures, sleeps);
    LogStep(i, budget, r, got, made, failures, sleeps);
    RecordStep(chain, i, budget, r, got, made, failures, sleeps);
  }

  /**
   `generate_listings(n, chain, pause, max_retries)`. Every exception raised by
   the chain is caught: a slot is either filled with the first listing it gets or
   skipped once the budget is spent. The pause is not a parameter: it is taken to
   be a valid sleep duration, so no sleep raises.
   */
  method GenerateListings(n: int, chain: nat -> Outcome, maxRetries: int) returns (run: Run)
    ensures Accounted(chain, Slots(n), Budget(maxRetries), run)
  {
    run := Run([], 0, 0, [], []);
    EmptyRunAccounted(chain, Budget(maxRetries));
    var i := 0;
    while i < n
      invariant 0 <= i <= Slots(n)
      invariant Accounted(chain, i, Budget(maxRetries), run)
    {
      run := NextSlot(chain, i, maxRetries, run);
      i := i + 1;
    }
    assert i == Slots(n);
  }

  /** Before the first slot nothing has happened. */
  lemma EmptyRunAccounted(chain: nat -> Outcome, budget: nat)
    ensures Accounted(chain, 0, budget, Run([], 0, 0, [], []))
  {
  }

  /** One iteration of `for i in range(n)`: fill slot `i` and add what it did to the run. */
  method NextSlot(chain: nat -> Outcome, i: nat, maxRetries: int, run: Run) returns (next: Run)
    requires Accounted(chain, i, Budget(maxRetries), run)
    ensures Accounted(chain, i + 1, Budget(maxRetries), next)
  {
    var got, made, failures, retrySleeps := FillSlot(chain, run.calls, i, maxRetries);
    SlotStep(chain, i, maxRetries, run, got, made, failures, retrySleeps);
    next := AddSlot(run, got, made, failures, retrySleeps);
  }

  // ---------------------------------------------------------------------------
  // What the accounting implies.
  // ---------------------------------------------------------------------------

  /** Every slot is invoked at least once when the budget allows it, and at most `budget` times. */
  lemma AccountedBounds(chain: nat -> Outcome, slots: nat, budget: nat, r: Run)
    requires Accounted(chain, slots, budget, r)
    ensures r.calls <= slots * budget
    ensures budget > 0 ==> slots <= r.calls
    ensures |r.listings| <= slots
  {
    TotalCallsBound(chain, slots, budget);
  }

  /** Both outcomes succeed with the same listing, or both fail, with any messages. */
  predicate SameSuccess(a: Outcome, b: Outcome) {
    match a
    case Ok(l) => b == Ok(l)
    case Err(_) => b.Err?
  }

  /** Two chains with the same successes, whatever their error messages say. */
  ghost predicate SameSuccesses(c1: nat -> Outcome, c2: nat -> Outcome) {
    forall k :: SameSuccess(c1(k), c2(k))
  }

  lemma {:induction false} SlotCallsSameSuccesses(c1: nat -> Outcome, c2: nat -> Outcome, start: nat, budget: nat)
    requires SameSuccesses(c1, c2)
    ensures SlotCalls(c1, start, budget) == SlotCalls(c2, start, budget)
    decreases budget
  {
    if budget > 0 {
      assert SameSuccess(c1(start), c2(start));
      if c1(start).Ok? {
        assert c2(start).Ok?;
        assert SlotCalls(c1, start, budget) == 1 == SlotCalls(c2, start, budget);
      } else {
        assert c2(start).Err?;
        SlotCallsSameSuccesses(c1, c2, start + 1, budget - 1);
        assert SlotCalls(c1, start, budget) == 1 + SlotCalls(c1, start + 1, budget - 1);
        assert SlotCalls(c2, start, budget) == 1 + SlotCalls(c2, start + 1, budget - 1);
      }
    }
  }

  lemma {:induction false} TotalCallsSameSuccesses(c1: nat -> Outcome, c2: nat -> Outcome, slots: nat, budget: nat)
    requires SameSuccesses(c1, c2)
    ensures TotalCalls(c1, slots, budget) == TotalCalls(c2, slots, budget)
  {
    if slots > 0 {
      TotalCallsSameSuccesses(c1, c2, slots - 1, budget);
      SlotCallsSameSuccesses(c1, c2, TotalCalls(c1, slots - 1, budget), budget);
    }
  }

  lemma {:induction false} ReturnedSameSuccesses(c1: nat -> Outcome, c2: nat -> Outcome, m: nat)
    requires SameSuccesses(c1, c2)
    ensures Returned(c1, m) == Returned(c2, m)
  {
    if m > 0 {
      ReturnedSameSuccesses(c1, c2, m - 1);
      assert SameSuccess(c1(m - 1), c2(m - 1));
    }
  }

  lemma SlotFilledSameSuccesses(c1: nat -> Outcome, c2: nat -> Outcome, start: nat, budget: nat)
    requires SameSuccesses(c1, c2)
    ensures SlotFilled(c1, start, budget) == SlotFilled(c2, start, budget)
  {
    SlotCallsSameSuccesses(c1, c2, start, budget);
    var c := SlotCalls(c1, start, budget);
    if c > 0 {
      assert SameSuccess(c1(start + c - 1), c2(start + c - 1));
    }
  }

  /** Two logs that agree entry by entry on everything but the classification and the text. */
  predicate SameShape(a: seq<LoggedFailure>, b: seq<LoggedFailure>) {
    && |a| == |b|
    && forall j :: 0 <= j < |a| ==>
         a[j].slot == b[j].slot && a[j].attempt == b[j].attempt && a[j].retrying == b[j].retrying
  }

  lemma SameShapeAppend(a1: seq<LoggedFailure>, b1: seq<LoggedFailure>, a2: seq<LoggedFailure>, b2: seq<LoggedFailure>)
    requires SameShape(a1, b1) && SameShape(a2, b2)
    ensures SameShape(a1 + a2, b1 + b2)
  {
  }

  lemma SlotLogSameShape(c1: nat -> Outcome, c2: nat -> Outcome, start: nat, slot: nat, budget: nat)
    requires SameSuccesses(c1, c2)
    ensures SameShape(SlotLog(c1, start, slot, budget), SlotLog(c2, start, slot, budget))
  {
    SlotCallsSameSuccesses(c1, c2, start, budget);
    SlotFilledSameSuccesses(c1, c2, start, budget);
  }

  lemma {:induction false} RunSameSuccesses(c1: nat -> Outcome, c2: nat -> Outcome, slots: nat, budget: nat)
    requires SameSuccesses(c1, c2)
    ensures RunSlots(c1, slots, budget) == RunSlots(c2, slots, budget)
    ensures SameShape(RunLog(c1, slots, budget), RunLog(c2, slots, budget))
  {
    if slots > 0 {
      RunSameSuccesses(c1, c2, slots - 1, budget);
      TotalCallsSameSuccesses(c1, c2, slots - 1, budget);
      var start := TotalCalls(c1, slots - 1, budget);
      SlotCallsSameSuccesses(c1, c2, start, budget);
      SlotFilledSameSuccesses(c1, c2, start, budget);
      SlotLogSameShape(c1, c2, start, slots - 1, budget);
      SameShapeAppend(RunLog(c1, slots - 1, budget), RunLog(c2, slots - 1, budget),
                      SlotLog(c1, start, slots - 1, budget), SlotLog(c2, start, slots - 1, budget));
    }
  }

  /**
   The error classification only decides what is logged: two runs whose chains
   succeed at the same invocations with the same listings return the same
   listings after the same number of invocations and sleeps, end every slot the
   same way, and log failures for the same slots and attempts, with the same
   retry decisions; only each entry's class and text can differ.
   */
  lemma MessagesOnlyReachTheLog(c1: nat -> Outcome, c2: nat -> Outcome, slots: nat, budget: nat, r1: Run, r2: Run)
    requires SameSuccesses(c1, c2)
    requires Accounted(c1, slots, budget, r1) && Accounted(c2, slots, budget, r2)
    ensures r1.listings == r2.listings && r1.calls == r2.calls && r1.sleeps == r2.sleeps
    ensures r1.slots == r2.slots && SameShape(r1.log, r2.log)
  {
    TotalCallsSameSuccesses(c1, c2, slots, budget);
    ReturnedSameSuccesses(c1, c2, r1.calls);
    RunSameSuccesses(c1, c2, slots, budget);
  }

  /** A chain that always raises. */
  ghost predicate AlwaysFails(chain: nat -> Outcome) {
    forall k :: chain(k).Err?
  }

  lemma {:induction false} SlotCallsAlwaysFails(chain: nat -> Outcome, start: nat, budget: nat)
    requires AlwaysFails(chain)
    ensures SlotCalls(chain, start, budget) == budget
    decreases budget
  {
    if budget > 0 {
      assert chain(start).Err?;
      SlotCallsAlwaysFails(chain, start + 1, budget - 1);
    }
  }

  lemma {:induction false} TotalCallsAlwaysFails(chain: nat -> Outcome, slots: nat, budget: nat)
    requires AlwaysFails(chain)
    ensures TotalCalls(chain, slots, budget) == slots * budget
  {
    if slots > 0 {
      TotalCallsAlwaysFails(chain, slots - 1, budget);
      SlotCallsAlwaysFails(chain, TotalCalls(chain, slots - 1, budget), budget);
      MulSucc(slots - 1, budget);
    }
  }

  lemma {:induction false} ReturnedAlwaysFails(chain: nat -> Outcome, m: nat)
    requires AlwaysFails(chain)
    ensures Returned(chain, m) == []
  {
    if m > 0 {
      ReturnedAlwaysFails(chain, m - 1);
      assert chain(m - 1).Err?;
    }
  }

  /**
   A chain that always raises uses up every slot's budget: no listings, one log
   entry per invocation, and every slot skipped.
   */
  lemma AlwaysFailingRun(chain: nat -> Outcome, slots: nat, budget: nat, r: Run)
    requires AlwaysFails(chain) && Accounted(chain, slots, budget, r)
    ensures r.listings == []
    ensures r.calls == slots * budget && |r.log| == slots * budget
    ensures forall s :: s in r.slots ==> s.Skipped?
  {
    TotalCallsAlwaysFails(chain, slots, budget);
    ReturnedAlwaysFails(chain, r.calls);
    forall s | s in r.slots ensures s.Skipped? {
      if s.Filled? {
        FilledCountPositive(r.slots, s);
      }
    }
  }

  lemma {:induction false} FilledCountPositive(slots: seq<SlotEnd>, s: SlotEnd)
    requires s in slots && s.Filled?
    ensures FilledCount(slots) > 0
    decreases |slots|
  {
    var last := |slots| - 1;
    if slots[last] != s {
      assert s in slots[..last] by {
        var j :| 0 <= j < |slots| && slots[j] == s;
        assert slots[..last][j] == s;
      }
      FilledCountPositive(slots[..last], s);
    }
  }

  /** A chain that never raises. */
  ghost predicate NeverFails(chain: nat -> Outcome) {
    forall k :: chain(k).Ok?
  }

  lemma {:induction false} TotalCallsNeverFails(chain: nat -> Outcome, slots: nat, budget: nat)
    requires NeverFails(chain) && budget > 0
    ensures TotalCalls(chain, slots, budget) == slots
  {
    if slots > 0 {
      TotalCallsNeverFails(chain, slots - 1, budget);
      assert chain(slots - 1).Ok?;
    }
  }

  lemma {:induction false} ReturnedNeverFails(chain: nat -> Outcome, m: nat)
    requires NeverFails(chain)
    ensures |Returned(chain, m)| == m
    ensures forall j :: 0 <= j < m ==> Returned(chain, m)[j] == chain(j).listing
  {
    if m > 0 {
      ReturnedNeverFails(chain, m - 1);
      assert chain(m - 1).Ok?;
    }
  }

  /**
   A chain that never raises fills every slot with one invocation: the run
   returns the first `slots` listings in order, logs nothing and sleeps once per slot.
   */
  lemma NeverFailingRun(chain: nat -> Outcome, slots: nat, budget: nat, r: Run)
    requires NeverFails(chain) && budget > 0 && Accounted(chain, slots, budget, r)
    ensures r.calls == slots && |r.listings| == slots
    ensures forall j :: 0 <= j < slots ==> r.listings[j] == chain(j).listing
    ensures r.log == [] && r.sleeps == slots
  {
    TotalCallsNeverFails(chain, slots, budget);
    ReturnedNeverFails(chain, slots);
  }

  /** `ListingGenerator.listings_to_documents`: the generator's own copy of the conversion. */
  method ListingsToDocuments(rawListings: seq<Listing>) returns (docs: seq<Document>)
    ensures docs == ChromaStore.ListingsToDocuments(rawListings)
  {
    docs := [];
    for i := 0 to |rawListings|
      invariant docs == ChromaStore.ListingsToDocuments(rawListings[..i])
    {
      var item := rawListings[i];
      assert rawListings[..i + 1] == rawListings[..i] + [item];
      ChromaStore.ListingsToDocumentsSnoc(rawListings[..i], item);
      docs := docs + [ToDocument(item)];
    }
    assert rawListings[..|rawListings|] == rawListings;
  }
}
