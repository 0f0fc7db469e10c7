/**
 * Monthly sequential invoice numbers `INV-YYYYMM-NNN` allocated against the
 * quotes table, with a placeholder claim, bounded retries with exponential
 * back-off, and timestamped fallbacks.
 *
 * The table is a set of quote numbers (its unique column).  What the database
 * does on each attempt beyond the unique constraint (a failed read, a
 * concurrent writer taking a number, a failed insert or delete) is an
 * `Outcome` chosen by the environment, one per attempt.
 */
module InvoiceSequential {
  import opened Wrappers
  import opened Text

  const MaxRetries: nat := 5

  /** `INV-` followed by the four-digit year and the two-digit month. */
  function PeriodPrefix(year: nat, month: nat): string
  {
    "INV-" + NatToString(year) + PadStart(NatToString(month), 2, '0')
  }

  /** The `LIKE prefix-%` filter of the read. */
  predicate InPeriod(q: string, prefix: string) { StartsWith(q, prefix + "-") }

  // ---------------------------------------------------------------------
  // The order `ORDER BY quote_number DESC` reads the table in: code points,
  // character by character.

  predicate Before(a: string, b: string)
    decreases |a|
  {
    |b| > 0 && (|a| == 0 || a[0] < b[0] || (a[0] == b[0] && Before(a[1..], b[1..])))
  }

  lemma {:induction false} BeforeIrreflexive(a: string)
    ensures !Before(a, a)
    decreases |a|
  {
    if |a| > 0 { BeforeIrreflexive(a[1..]); }
  }

  lemma {:induction false} BeforeTransitive(a: string, b: string, c: string)
    requires Before(a, b) && Before(b, c)
    ensures Before(a, c)
    decreases |a|
  {
    if |a| > 0 && a[0] == b[0] && b[0] == c[0] {
      BeforeTransitive(a[1..], b[1..], c[1..]);
    }
  }

  lemma {:induction false} BeforeTotal(a: string, b: string)
    ensures a == b || Before(a, b) || Before(b, a)
    decreases |a|
  {
    if |a| > 0 && |b| > 0 && a[0] == b[0] {
      BeforeTotal(a[1..], b[1..]);
      if a[1..] == b[1..] {
        assert a == [a[0]] + a[1..] && b == [b[0]] + b[1..];
      }
    }
  }

  /** `m` is the row the read returns: the greatest number of the period. */
  predicate IsLatest(m: string, store: set<string>, prefix: string)
  {
    m in store && InPeriod(m, prefix) &&
    forall q :: q in store && InPeriod(q, prefix) ==> !Before(m, q)
  }

  lemma LatestUnique(a: string, b: string, store: set<string>, prefix: string)
    requires IsLatest(a, store, prefix) && IsLatest(b, store, prefix)
    ensures a == b
  {
    BeforeTotal(a, b);
  }

  /** The row returned by the read, if the period has any. */
  ghost function Latest(store: set<string>, prefix: string): Option<string>
    decreases |store|
  {
    if store == {} then None
    else
      var x :| x in store;
      var r := Latest(store - {x}, prefix);
      if !InPeriod(x, prefix) then r
      else if r.None? || Before(r.value, x) then Some(x)
      else r
  }

  /** The read returns nothing exactly when the period is empty, else its greatest number. */
  lemma {:induction false} LatestSpec(store: set<string>, prefix: string)
    ensures Latest(store, prefix).None? <==> forall q :: q in store ==> !InPeriod(q, prefix)
    ensures Latest(store, prefix).Some? ==> IsLatest(Latest(store, prefix).value, store, prefix)
    decreases |store|
  {
    if store != {} {
      var x :| x in store && Latest(store, prefix) == (
        var r := Latest(store - {x}, prefix);
        if !InPeriod(x, prefix) then r
        else if r.None? || Before(r.value, x) then Some(x)
        else r);
      var rest := store - {x};
      LatestSpec(rest, prefix);
      var r := Latest(rest, prefix);
      assert store == rest + {x};
      if InPeriod(x, prefix) {
        BeforeIrreflexive(x);
        if r.None? {
          assert IsLatest(x, store, prefix);
        } else if Before(r.value, x) {
          forall q | q in store && InPeriod(q, prefix)
            ensures !Before(x, q)
          {
            if q != x && Before(x, q) { BeforeTransitive(r.value, x, q); }
          }
        } else {
          BeforeTotal(r.value, x);
          BeforeIrreflexive(r.value);
        }
      }
    }
  }

  // ---------------------------------------------------------------------
  // The next number

  /** `q.split('-')[2]`, absent when there are fewer than three fields. */
  function ThirdField(q: string): Option<string>
  {
    var parts := Split(q, '-');
    if |parts| >= 3 then Some(parts[2]) else None
  }

  /** The sequence part of a number, when `parseInt` reads one. */
  function SequenceOf(q: string): Option<int>
  {
    match ThirdField(q)
    case None => None
    case Some(f) => ParseInt(f)
  }

  /** One more than the last number read, or 1. */
  function NextSequence(latest: Option<string>): int
  {
    if latest.Some? && SequenceOf(latest.value).Some? then SequenceOf(latest.value).value + 1 else 1
  }

  /** The three-digit (at least) sequence appended to the period prefix. */
  function WithSequence(prefix: string, n: int): string
  {
    prefix + "-" + PadStart(IntToString(n), 3, '0')
  }

  function Candidate(prefix: string, latest: Option<string>): string
  {
    WithSequence(prefix, NextSequence(latest))
  }

  /** What a number of the period contributes to a numeric maximum. */
  function SequenceValue(q: string, prefix: string): int
  {
    if InPeriod(q, prefix) && SequenceOf(q).Some? then SequenceOf(q).value else 0
  }

  function Max(a: int, b: int): int { if a >= b then a else b }

  /** The greatest value `f` takes on `store`, or 0 when that is more. */
  ghost function MaxOver(store: set<string>, f: string -> int): int
    decreases |store|
  {
    if store == {} then 0
    else
      var x :| x in store;
      Max(f(x), MaxOver(store - {x}, f))
  }

  lemma {:induction false} MaxOverBound(store: set<string>, f: string -> int)
    ensures MaxOver(store, f) >= 0
    ensures forall q :: q in store ==> f(q) <= MaxOver(store, f)
    decreases |store|
  {
    if store != {} {
      var x :| x in store && MaxOver(store, f) == Max(f(x), MaxOver(store - {x}, f));
      var rest := MaxOver(store - {x}, f);
      MaxOverBound(store - {x}, f);
      assert Max(f(x), rest) >= rest && Max(f(x), rest) >= f(x);
      forall q | q in store
        ensures f(q) <= MaxOver(store, f)
      {
        if q != x { assert q in store - {x}; }
      }
    }
  }

  /** The greatest sequence the period holds, compared as numbers (0 when none). */
  ghost function MaxSequence(store: set<string>, prefix: string): int
  {
    MaxOver(store, q => SequenceValue(q, prefix))
  }

  /** `50 * Math.pow(2, retryCount)`: the pause, in milliseconds, after `retryCount` failures. */
  function BackoffDelay(retryCount: nat): nat
  {
    if retryCount == 0 then 50 else 2 * BackoffDelay(retryCount - 1)
  }

  /** `Math.floor(Math.random() * 100)`: a whole number from 0 to 99. */
  type Percentile = r: nat | r < 100

  /** What the clock and the random source give the fallbacks. */
  datatype FallbackClock = FallbackClock(nowMs: nat, random: Percentile)

  /** `prefix-T` + last six digits of the clock + a two-digit random number. */
  function TimestampedNumber(prefix: string, clock: FallbackClock): string
  {
    prefix + "-T" + TimestampDigits(clock)
  }

  function TimestampDigits(clock: FallbackClock): string
  {
    TakeLast(NatToString(clock.nowMs), 6) + PadStart(NatToString(clock.random), 2, '0')
  }

  /** `prefix-E` + the clock in milliseconds. */
  function EmergencyNumber(prefix: string, clock: FallbackClock): string
  {
    prefix + "-E" + NatToString(clock.nowMs)
  }

  // ---------------------------------------------------------------------
  // The allocation, attempt by attempt

  /**
   * What happens to one attempt when the number it computed is free:
   * the read fails, a concurrent writer takes the number first, the insert
   * fails for another reason, or the placeholder is inserted and then its
   * delete succeeds or fails.
   */
  datatype Outcome = ReadFails | InsertDuplicate | InsertFails | Inserted(deleteSucceeds: bool)

  datatype Kind = Sequential | Timestamped | Emergency

  datatype Allocation = Allocation(number: string, kind: Kind, store: set<string>, delays: seq<nat>)

  /** The result of one attempt: a number, or the table to try again with. */
  datatype Step = Done(number: string, kind: Kind, store: set<string>) | Again(store: set<string>)

  /**
   * One attempt that computed `candidate` (ignored when the read fails):
   * a taken number is a duplicate and is retried; a claimed placeholder
   * whose delete succeeds ends the allocation; any other failure is retried,
   * or ends in the timestamped number on the last attempt.
   */
  function AttemptStep(store: set<string>, candidate: string, prefix: string, retry: nat,
                       o: Outcome, clock: FallbackClock): Step
  {
    var duplicate := !o.ReadFails? && (candidate in store || o.InsertDuplicate?);
    if duplicate then Again(store)
    else if o.Inserted? && o.deleteSucceeds then Done(candidate, Sequential, store)
    else
      var store' := if o.Inserted? then store + {candidate} else store;
      if retry >= MaxRetries - 1 then Done(TimestampedNumber(prefix, clock), Timestamped, store')
      else Again(store')
  }

  /**
   * The allocation from attempt `retry` on, over table contents `store`,
   * when each attempt computes its number from the table by `next`.
   */
  ghost function AllocateFrom(store: set<string>, prefix: string, retry: nat, outcomes: seq<Outcome>,
                              clock: FallbackClock, next: set<string> -> string): Allocation
    requires |outcomes| >= MaxRetries
    decreases MaxRetries - retry
  {
    if retry >= MaxRetries then Allocation(EmergencyNumber(prefix, clock), Emergency, store, [])
    else match AttemptStep(store, next(store), prefix, retry, outcomes[retry], clock)
      case Done(n, k, s) => Allocation(n, k, s, [])
      case Again(s) =>
        var rest := AllocateFrom(s, prefix, retry + 1, outcomes, clock, next);
        Allocation(rest.number, rest.kind, rest.store, [BackoffDelay(retry + 1)] + rest.delays)
  }

  /** The source's read: one past the greatest number of the period compared as text. */
  ghost function TextOrder(prefix: string): set<string> -> string
  {
    s => Candidate(prefix, Latest(s, prefix))
  }

  /** The read evidently intended: one past the greatest sequence compared as a number. */
  ghost function NumericOrder(prefix: string): set<string> -> string
  {
    s => WithSequence(prefix, MaxSequence(s, prefix) + 1)
  }

  /** `getNextSequentialInvoiceNumber` as written. */
  ghost function Allocate(store: set<string>, year: nat, month: nat,
                          outcomes: seq<Outcome>, clock: FallbackClock): Allocation
    requires |outcomes| >= MaxRetries
  {
    var prefix := PeriodPrefix(year, month);
    AllocateFrom(store, prefix, 0, outcomes, clock, TextOrder(prefix))
  }

  lemma AllocateAgain(store: set<string>, prefix: string, retry: nat, outcomes: seq<Outcome>,
                      clock: FallbackClock, next: set<string> -> string)
    requires |outcomes| >= MaxRetries && retry < MaxRetries
    requires AttemptStep(store, next(store), prefix, retry, outcomes[retry], clock).Again?
    ensures var s := AttemptStep(store, next(store), prefix, retry, outcomes[retry], clock).store;
            var rest := AllocateFrom(s, prefix, retry + 1, outcomes, clock, next);
            AllocateFrom(store, prefix, retry, outcomes, clock, next)
            == Allocation(rest.number, rest.kind, rest.store, [BackoffDelay(retry + 1)] + rest.delays)
  {
  }

  lemma AllocateDone(store: set<string>, prefix: string, retry: nat, outcomes: seq<Outcome>,
                     clock: FallbackClock, next: set<string> -> string)
    requires |outcomes| >= MaxRetries && retry < MaxRetries
    requires AttemptStep(store, next(store), prefix, retry, outcomes[retry], clock).Done?
    ensures var st := AttemptStep(store, next(store), prefix, retry, outcomes[retry], clock);
            AllocateFrom(store, prefix, retry, outcomes, clock, next) == Allocation(st.number, st.kind, st.store, [])
  {
  }

  lemma AppendAssociative(a: seq<nat>, b: seq<nat>, c: seq<nat>)
    ensures a + (b + c) == (a + b) + c
  {
  }

  /** The quotes table, seen through its unique quote-number column. */
  class QuoteStore {
    var numbers: set<string>

    constructor (initial: set<string>)
      ensures numbers == initial
    {
      numbers := initial;
    }

    /** `SELECT … WHERE quote_number LIKE prefix-% ORDER BY quote_number DESC LIMIT 1` */
    method LatestInPeriod(prefix: string) returns (r: Option<string>)
      ensures r == Latest(numbers, prefix)
    {
      r := None;
      var rest := numbers;
      while rest != {}
        invariant rest <= numbers
        invariant r.None? ==> forall q :: q in numbers - rest ==> !InPeriod(q, prefix)
        invariant r.Some? ==> IsLatest(r.value, numbers - rest, prefix)
        decreases |rest|
      {
        var q :| q in rest;
        if InPeriod(q, prefix) && (r.None? || Before(r.value, q)) {
          if r.Some? {
            forall p | p in numbers - rest && InPeriod(p, prefix)
              ensures !Before(q, p)
            {
              if Before(q, p) { BeforeTransitive(r.value, q, p); }
            }
          }
          BeforeIrreflexive(q);
          r := Some(q);
        } else if r.Some? && InPeriod(q, prefix) {
          BeforeTotal(r.value, q);
        }
        rest := rest - {q};
      }
      assert numbers - rest == numbers;
      LatestSpec(numbers, prefix);
      if r.Some? {
        LatestUnique(r.value, Latest(numbers, prefix).value, numbers, prefix);
      }
    }

    /**
     * One pass of the retry loop: read the latest number, insert the next
     * one as a placeholder and delete it again.  A duplicate is handed back
     * for a retry; any other failure too, except on the last attempt, which
     * ends in the timestamped number.
     */
    method Attempt(prefix: string, retryCount: nat, outcome: Outcome, clock: FallbackClock)
      returns (step: Step)
      modifies this
      ensures step == AttemptStep(old(numbers), TextOrder(prefix)(old(numbers)),
                                  prefix, retryCount, outcome, clock)
      ensures numbers == step.store
    {
      var failed := false;
      if outcome.ReadFails? {
        failed := true;
      } else {
        var latest := LatestInPeriod(prefix);
        var candidate := Candidate(prefix, latest);
        if candidate in numbers || outcome.InsertDuplicate? {
          // the unique constraint, or a concurrent writer, rejects the insert
          return Again(numbers);
        } else if outcome.InsertFails? {
          failed := true;
        } else {
          numbers := numbers + {candidate};
          if outcome.deleteSucceeds {
            numbers := numbers - {candidate};
            return Done(candidate, Sequential, numbers);
          }
          failed := true;
        }
      }
      if failed && retryCount >= MaxRetries - 1 {
        return Done(TimestampedNumber(prefix, clock), Timestamped, numbers);
      }
      return Again(numbers);
    }

    /**
     * `getNextSequentialInvoiceNumber`: `outcomes[i]` is what the database
     * does on attempt `i`; `delays` are the pauses taken between attempts.
     */
    method NextSequentialInvoiceNumber(year: nat, month: nat, outcomes: seq<Outcome>, clock: FallbackClock)
      returns (number: string, delays: seq<nat>)
      requires |outcomes| >= MaxRetries
      modifies this
      ensures var a := Allocate(old(numbers), year, month, outcomes, clock);
              number == a.number && numbers == a.store && delays == a.delays
    {
      var prefix := PeriodPrefix(year, month);
      ghost var next := TextOrder(prefix);
      var retryCount: nat := 0;
      delays := [];
      ghost var total := AllocateFrom(numbers, prefix, 0, outcomes, clock, next);
      assert [] + total.delays == total.delays;
      while retryCount < MaxRetries
        invariant retryCount <= MaxRetries
        invariant var rest := AllocateFrom(numbers, prefix, retryCount, outcomes, clock, next);
                  total == Allocation(rest.number, rest.kind, rest.store, delays + rest.delays)
        decreases MaxRetries - retryCount
      {
        ghost var before := numbers;
        var step := Attempt(prefix, retryCount, outcomes[retryCount], clock);
        if step.Done? {
          AllocateDone(before, prefix, retryCount, outcomes, clock, next);
          assert delays + [] == delays;
          return step.number, delays;
        }
        AllocateAgain(before, prefix, retryCount, outcomes, clock, next);
        ghost var rest := AllocateFrom(numbers, prefix, retryCount + 1, outcomes, clock, next);
        AppendAssociative(delays, [BackoffDelay(retryCount + 1)], rest.delays);
        retryCount := retryCount + 1;
        delays := delays + [BackoffDelay(retryCount)];
      }
      assert AllocateFrom(numbers, prefix, retryCount, outcomes, clock, next) ==
        Allocation(EmergencyNumber(prefix, clock), Emergency, numbers, []);
      assert delays + [] == delays;
      number := EmergencyNumber(prefix, clock);
    }
  }

  // ---------------------------------------------------------------------
  // What the allocation guarantees, whatever number an attempt computes

  /** Every number handed out, fallbacks included, belongs to the period. */
  lemma {:induction false} AllocationInPeriod(store: set<string>, prefix: string, retry: nat, outcomes: seq<Outcome>,
                                              clock: FallbackClock, next: set<string> -> string)
    requires |outcomes| >= MaxRetries
    requires forall s :: InPeriod(next(s), prefix)
    ensures InPeriod(AllocateFrom(store, prefix, retry, outcomes, clock, next).number, prefix)
    decreases MaxRetries - retry
  {
    var a := AllocateFrom(store, prefix, retry, outcomes, clock, next);
    if retry < MaxRetries {
      var st := AttemptStep(store, next(store), prefix, retry, outcomes[retry], clock);
      if st.Again? {
        AllocationInPeriod(st.store, prefix, retry + 1, outcomes, clock, next);
      } else if st.kind == Timestamped {
        assert a.number == prefix + "-" + ("T" + TakeLast(NatToString(clock.nowMs), 6) + PadStart(NatToString(clock.random), 2, '0'));
      }
    } else {
      assert a.number == prefix + "-" + ("E" + NatToString(clock.nowMs));
    }
  }

  /**
   * At most five attempts are made, and the pauses between them double
   * from 100 ms: the pause after the `k`-th failed attempt is 50·2^k ms.
   */
  lemma {:induction false} AllocationBackoff(store: set<string>, prefix: string, retry: nat, outcomes: seq<Outcome>,
                                             clock: FallbackClock, next: set<string> -> string)
    requires |outcomes| >= MaxRetries && retry <= MaxRetries
    ensures var a := AllocateFrom(store, prefix, retry, outcomes, clock, next);
            |a.delays| <= MaxRetries - retry &&
            forall k :: 0 <= k < |a.delays| ==> a.delays[k] == BackoffDelay(retry + k + 1)
    decreases MaxRetries - retry
  {
    if retry < MaxRetries {
      var st := AttemptStep(store, next(store), prefix, retry, outcomes[retry], clock);
      if st.Again? {
        AllocationBackoff(st.store, prefix, retry + 1, outcomes, clock, next);
        var a := AllocateFrom(store, prefix, retry, outcomes, clock, next);
        var rest := AllocateFrom(st.store, prefix, retry + 1, outcomes, clock, next);
        assert a.delays == [BackoffDelay(retry + 1)] + rest.delays;
        ShiftedDelays(a.delays, rest.delays, retry);
      }
    }
  }

  lemma ShiftedDelays(delays: seq<nat>, rest: seq<nat>, retry: nat)
    requires delays == [BackoffDelay(retry + 1)] + rest
    requires forall k :: 0 <= k < |rest| ==> rest[k] == BackoffDelay(retry + 1 + k + 1)
    ensures forall k :: 0 <= k < |delays| ==> delays[k] == BackoffDelay(retry + k + 1)
  {
    forall k | 0 <= k < |delays|
      ensures delays[k] == BackoffDelay(retry + k + 1)
    {
      if k > 0 {
        assert delays[k] == rest[k - 1];
      }
    }
  }

  /** No outcome from attempt `retry` on leaves a placeholder behind. */
  predicate NoLeak(outcomes: seq<Outcome>, retry: nat)
  {
    forall k :: retry <= k < |outcomes| ==> outcomes[k] != Inserted(false)
  }

  /**
   * The table only ever gains leaked placeholders; when every delete
   * succeeds, the allocation leaves the table as it found it.
   */
  lemma {:induction false} AllocationStore(store: set<string>, prefix: string, retry: nat, outcomes: seq<Outcome>,
                                           clock: FallbackClock, next: set<string> -> string)
    requires |outcomes| >= MaxRetries
    ensures store <= AllocateFrom(store, prefix, retry, outcomes, clock, next).store
    ensures NoLeak(outcomes, retry) ==> AllocateFrom(store, prefix, retry, outcomes, clock, next).store == store
    decreases MaxRetries - retry
  {
    if retry < MaxRetries {
      var st := AttemptStep(store, next(store), prefix, retry, outcomes[retry], clock);
      if st.Again? { AllocationStore(st.store, prefix, retry + 1, outcomes, clock, next); }
    }
  }

  /**
   * A sequential number is one the table did not hold when the allocation
   * started, and does not hold afterwards (its placeholder is gone).
   */
  lemma {:induction false} SequentialNumberIsFree(store: set<string>, prefix: string, retry: nat, outcomes: seq<Outcome>,
                                                  clock: FallbackClock, next: set<string> -> string)
    requires |outcomes| >= MaxRetries
    ensures var a := AllocateFrom(store, prefix, retry, outcomes, clock, next);
            a.kind == Sequential ==> a.number !in store && a.number !in a.store
    decreases MaxRetries - retry
  {
    if retry < MaxRetries {
      var st := AttemptStep(store, next(store), prefix, retry, outcomes[retry], clock);
      assert store <= st.store;
      if st.Again? {
        SequentialNumberIsFree(st.store, prefix, retry + 1, outcomes, clock, next);
      }
    }
  }

  /**
   * The timestamped fallback is reached only on the fifth attempt, and only
   * when that attempt failed other than by a duplicate number.
   */
  lemma {:induction false} TimestampedOnlyAfterFinalFailure(store: set<string>, prefix: string, retry: nat,
                                                            outcomes: seq<Outcome>, clock: FallbackClock,
                                                            next: set<string> -> string)
    requires |outcomes| >= MaxRetries
    ensures var a := AllocateFrom(store, prefix, retry, outcomes, clock, next);
            a.kind == Timestamped ==>
              retry < MaxRetries && |a.delays| == MaxRetries - 1 - retry &&
              outcomes[MaxRetries - 1] in {ReadFails, InsertFails, Inserted(false)}
    decreases MaxRetries - retry
  {
    if retry < MaxRetries - 1 {
      var st := AttemptStep(store, next(store), prefix, retry, outcomes[retry], clock);
      if st.Again? { TimestampedOnlyAfterFinalFailure(st.store, prefix, retry + 1, outcomes, clock, next); }
    }
  }

  /** Five duplicate numbers in a row end in the emergency number. */
  lemma {:induction false} DuplicatesEndInEmergency(store: set<string>, prefix: string, retry: nat, outcomes: seq<Outcome>,
                                                    clock: FallbackClock, next: set<string> -> string)
    requires |outcomes| >= MaxRetries && retry <= MaxRetries
    requires forall k :: retry <= k < MaxRetries ==> outcomes[k] == InsertDuplicate
    ensures var a := AllocateFrom(store, prefix, retry, outcomes, clock, next);
            a.kind == Emergency && a.number == EmergencyNumber(prefix, clock) &&
            a.store == store && |a.delays| == MaxRetries - retry
    decreases MaxRetries - retry
  {
    if retry < MaxRetries {
      DuplicatesEndInEmergency(store, prefix, retry + 1, outcomes, clock, next);
    }
  }

  /**
   * When the number an attempt computes is already taken, every attempt
   * the database answers is rejected as a duplicate, however healthy the
   * database is, and the allocation ends in the timestamped or emergency
   * fallback.
   */
  lemma {:induction false} TakenNumberNeverAllocates(store: set<string>, prefix: string, retry: nat, outcomes: seq<Outcome>,
                                                     clock: FallbackClock, next: set<string> -> string)
    requires |outcomes| >= MaxRetries
    requires next(store) in store
    ensures AllocateFrom(store, prefix, retry, outcomes, clock, next).kind != Sequential
    ensures (forall k :: retry <= k < MaxRetries ==> outcomes[k] != ReadFails) ==>
            AllocateFrom(store, prefix, retry, outcomes, clock, next).kind == Emergency
    decreases MaxRetries - retry
  {
    if retry < MaxRetries {
      var st := AttemptStep(store, next(store), prefix, retry, outcomes[retry], clock);
      assert st.Again? ==> st.store == store;
      if st.Again? {
        TakenNumberNeverAllocates(store, prefix, retry + 1, outcomes, clock, next);
      }
    }
  }

  /** With a free number and a healthy database the first attempt succeeds. */
  lemma FreeNumberAllocatesAtOnce(store: set<string>, prefix: string, outcomes: seq<Outcome>,
                                  clock: FallbackClock, next: set<string> -> string)
    requires |outcomes| >= MaxRetries && outcomes[0] == Inserted(true)
    requires next(store) !in store
    ensures AllocateFrom(store, prefix, 0, outcomes, clock, next)
            == Allocation(next(store), Sequential, store, [])
  {
  }

  // ---------------------------------------------------------------------
  // The source's allocation, and the numeric read it evidently intends

  lemma WithSequenceInPeriod(prefix: string, n: int)
    ensures InPeriod(WithSequence(prefix, n), prefix)
  {
    assert WithSequence(prefix, n) == (prefix + "-") + PadStart(IntToString(n), 3, '0');
  }

  lemma TextOrderInPeriod(prefix: string)
    ensures forall s :: InPeriod(TextOrder(prefix)(s), prefix)
  {
    forall s ensures InPeriod(TextOrder(prefix)(s), prefix) {
      WithSequenceInPeriod(prefix, NextSequence(Latest(s, prefix)));
    }
  }

  /** The number `getNextSequentialInvoiceNumber` returns always names its month. */
  lemma AllocatedNumberInPeriod(store: set<string>, year: nat, month: nat, outcomes: seq<Outcome>, clock: FallbackClock)
    requires |outcomes| >= MaxRetries
    ensures StartsWith(Allocate(store, year, month, outcomes, clock).number, PeriodPrefix(year, month) + "-")
  {
    TextOrderInPeriod(PeriodPrefix(year, month));
    AllocationInPeriod(store, PeriodPrefix(year, month), 0, outcomes, clock, TextOrder(PeriodPrefix(year, month)));
  }

  /**
   * After `INV-202501-999` and `INV-202501-1000` the read returns `-999`
   * (the character `9` sorts after `1`), so the next number computed is
   * `-1000` again: even on a healthy database January 2025 can never hand
   * out another sequential number.
   */
  lemma StringOrderRepeatsNumber(outcomes: seq<Outcome>, clock: FallbackClock)
    requires |outcomes| >= MaxRetries
    ensures Allocate({"INV-202501-999", "INV-202501-1000"}, 2025, 1, outcomes, clock).kind != Sequential
    ensures (forall k :: 0 <= k < MaxRetries ==> outcomes[k] == Inserted(true)) ==>
            Allocate({"INV-202501-999", "INV-202501-1000"}, 2025, 1, outcomes, clock).kind == Emergency
  {
    var store := {"INV-202501-999", "INV-202501-1000"};
    JanuaryPrefix();
    StringOrderLatest();
    TakenNumberNeverAllocates(store, "INV-202501", 0, outcomes, clock, TextOrder("INV-202501"));
  }

  lemma JanuaryPrefix()
    ensures PeriodPrefix(2025, 1) == "INV-202501"
  {
    assert NatToString(2025) == "2025";
    assert NatToString(1) == "1";
  }

  lemma BeforeAsymmetric(a: string, b: string)
    requires Before(a, b)
    ensures !Before(b, a)
  {
    if Before(b, a) {
      BeforeTransitive(a, b, a);
      BeforeIrreflexive(a);
    }
  }

  lemma StringOrderLatest()
    ensures TextOrder("INV-202501")({"INV-202501-999", "INV-202501-1000"}) == "INV-202501-1000"
  {
    var store := {"INV-202501-999", "INV-202501-1000"};
    var prefix := "INV-202501";
    NineNineNineIsLatest();
    JanuaryPrefix();
    SequenceOfNumber(2025, 1, 999);
    SmallNumbers();
    assert Candidate(prefix, Some("INV-202501-999")) == WithSequence(prefix, 1000);
  }

  lemma SmallNumbers()
    ensures WithSequence("INV-202501", 999) == "INV-202501-999"
    ensures WithSequence("INV-202501", 1000) == "INV-202501-1000"
  {
    assert NatToString(99) == NatToString(9) + "9";
    assert NatToString(999) == NatToString(99) + "9";
    assert NatToString(100) == NatToString(10) + "0";
    assert NatToString(1000) == NatToString(100) + "0";
  }

  lemma NineNineNineIsLatest()
    ensures Latest({"INV-202501-999", "INV-202501-1000"}, "INV-202501") == Some("INV-202501-999")
  {
    TenCharsBefore();
    JanuaryMember("INV-202501-999", "INV-202501", "999");
    LatestOfTwo("INV-202501-999", "INV-202501-1000", "INV-202501");
  }

  lemma JanuaryMember(q: string, prefix: string, tail: string)
    requires q == "INV-202501-999" && prefix == "INV-202501" && tail == "999"
    ensures InPeriod(q, prefix)
  {
    assert q == prefix + "-" + tail;
  }

  lemma LatestOfTwo(hi: string, lo: string, prefix: string)
    requires Before(lo, hi) && InPeriod(hi, prefix)
    ensures Latest({hi, lo}, prefix) == Some(hi)
  {
    var store := {hi, lo};
    BeforeAsymmetric(lo, hi);
    BeforeIrreflexive(hi);
    assert IsLatest(hi, store, prefix);
    LatestSpec(store, prefix);
    LatestUnique(hi, Latest(store, prefix).value, store, prefix);
  }

  lemma TenCharsBefore()
    ensures Before("INV-202501-1000", "INV-202501-999")
  {
    var lo, hi := "INV-202501-1000", "INV-202501-999";
    assert Before(lo[11..], hi[11..]);
    assert lo[..11] == hi[..11];
    CommonPrefixBefore(lo, hi, 11);
  }

  lemma {:induction false} CommonPrefixBefore(a: string, b: string, k: nat)
    requires k <= |a| && k <= |b| && a[..k] == b[..k] && Before(a[k..], b[k..])
    ensures Before(a, b)
    decreases k
  {
    if k > 0 {
      assert a[1..][..k - 1] == b[1..][..k - 1];
      assert a[1..][k - 1..] == a[k..] && b[1..][k - 1..] == b[k..];
      CommonPrefixBefore(a[1..], b[1..], k - 1);
      assert a[0] == a[..k][0] == b[..k][0] == b[0];
    }
  }

  /** The third field of a period number is its padded sequence. */
  lemma SequenceOfNumber(year: nat, month: nat, n: nat)
    ensures SequenceOf(WithSequence(PeriodPrefix(year, month), n)) == Some(n)
  {
    var ym := NatToString(year) + PadStart(NatToString(month), 2, '0');
    var d := PadStart(NatToString(n), 3, '0');
    NumberFields(year, month, n);
    PeriodDigits(year, month);
    NatToStringDigits(n);
    PaddedDigits(NatToString(n), 3);
    ThirdOfThree("INV", ym, d);
    ParsePadded(n, 3);
  }

  /** A period number is "INV", the year and month, and the padded sequence, joined by dashes. */
  lemma NumberFields(year: nat, month: nat, n: nat)
    ensures WithSequence(PeriodPrefix(year, month), n) ==
      "INV" + ['-'] + ((NatToString(year) + PadStart(NatToString(month), 2, '0')) + ['-'] + PadStart(NatToString(n), 3, '0'))
  {
  }

  lemma PeriodDigits(year: nat, month: nat)
    ensures AllDigits(NatToString(year) + PadStart(NatToString(month), 2, '0'))
  {
    NatToStringDigits(year);
    NatToStringDigits(month);
    PaddedDigits(NatToString(month), 2);
  }

  /** Three dash-free fields joined by dashes: the third is the last one. */
  lemma ThirdOfThree(a: string, b: string, d: string)
    requires forall i :: 0 <= i < |a| ==> a[i] != '-'
    requires forall i :: 0 <= i < |b| ==> b[i] != '-'
    requires forall i :: 0 <= i < |d| ==> d[i] != '-'
    ensures ThirdField(a + ['-'] + (b + ['-'] + d)) == Some(d)
  {
    SplitConcat(a, '-', b + ['-'] + d);
    SplitConcat(b, '-', d);
    SplitWithout(a, '-');
    SplitWithout(b, '-');
    SplitWithout(d, '-');
  }

  lemma PaddedDigits(s: string, w: nat)
    requires AllDigits(s)
    ensures AllDigits(PadStart(s, w, '0'))
  {
    ZeroPadValue(s, w);
  }

  /** A field that starts with a letter is NaN to `parseInt`. */
  lemma LetterFieldUnread(f: string)
    requires |f| > 0 && IsLetter(f[0])
    ensures ParseInt(f) == None
  {
    assert TrimStart(f) == f;
    assert LeadingDigits(f) == [];
  }

  /** The digits of the clock and of the random number the fallbacks append. */
  lemma FallbackDigits(clock: FallbackClock)
    ensures AllDigits(TimestampDigits(clock))
    ensures AllDigits(NatToString(clock.nowMs))
  {
    NatToStringDigits(clock.nowMs);
    NatToStringDigits(clock.random);
    PaddedDigits(NatToString(clock.random), 2);
    TakeLastDigits(NatToString(clock.nowMs), 6);
    DigitsConcat(TakeLast(NatToString(clock.nowMs), 6), PadStart(NatToString(clock.random), 2, '0'));
  }

  lemma TakeLastDigits(d: string, n: nat)
    requires AllDigits(d)
    ensures AllDigits(TakeLast(d, n))
  {
    var t := TakeLast(d, n);
    forall i | 0 <= i < |t| ensures IsDigit(t[i]) {
      assert t[i] == d[|d| - |t| + i];
    }
  }

  /** A fallback number of the period: its prefix, a dash, a letter and digits. */
  lemma FallbackFieldUnread(q: string, year: nat, month: nat, marker: string, digits: string)
    requires |marker| == 2 && marker[0] == '-' && IsUpper(marker[1]) && AllDigits(digits)
    requires q == PeriodPrefix(year, month) + marker + digits
    ensures SequenceOf(q) == None
  {
    var ym := NatToString(year) + PadStart(NatToString(month), 2, '0');
    var f := marker[1..] + digits;
    PeriodDigits(year, month);
    assert q == "INV" + ['-'] + (ym + ['-'] + f);
    forall i | 0 <= i < |f| ensures f[i] != '-' {
      if i > 0 { assert f[i] == digits[i - 1]; }
    }
    ThirdOfThree("INV", ym, f);
    LetterFieldUnread(f);
  }

  /**
   * The timestamped and emergency numbers have no sequence `parseInt` can
   * read: after either, the next number computed is the month's first.
   */
  lemma FallbackRestartsSequence(year: nat, month: nat, clock: FallbackClock)
    ensures var prefix := PeriodPrefix(year, month);
      SequenceOf(TimestampedNumber(prefix, clock)) == None &&
      SequenceOf(EmergencyNumber(prefix, clock)) == None &&
      Candidate(prefix, Some(TimestampedNumber(prefix, clock))) == prefix + "-001" &&
      Candidate(prefix, Some(EmergencyNumber(prefix, clock))) == prefix + "-001"
  {
    var prefix := PeriodPrefix(year, month);
    TimestampedUnread(year, month, clock);
    EmergencyUnread(year, month, clock);
    FirstNumber(prefix);
    assert NextSequence(Some(TimestampedNumber(prefix, clock))) == 1;
    assert NextSequence(Some(EmergencyNumber(prefix, clock))) == 1;
  }

  lemma TimestampedUnread(year: nat, month: nat, clock: FallbackClock)
    ensures SequenceOf(TimestampedNumber(PeriodPrefix(year, month), clock)) == None
  {
    var prefix, d := PeriodPrefix(year, month), TimestampDigits(clock);
    FallbackDigits(clock);
    FallbackFieldUnread(prefix + "-T" + d, year, month, "-T", d);
  }

  lemma EmergencyUnread(year: nat, month: nat, clock: FallbackClock)
    ensures SequenceOf(EmergencyNumber(PeriodPrefix(year, month), clock)) == None
  {
    var prefix, d := PeriodPrefix(year, month), NatToString(clock.nowMs);
    FallbackDigits(clock);
    FallbackFieldUnread(prefix + "-E" + d, year, month, "-E", d);
  }

  /** The month's first number, which the read computes when it finds nothing it can parse. */
  lemma FirstNumber(prefix: string)
    ensures WithSequence(prefix, 1) == prefix + "-001"
  {
    assert NatToString(1) == "1";
    assert PadStart("1", 3, '0') == "001";
  }

  /**
   * Once a fallback number is the greatest of the month in text order
   * (`T` and `E` sort after every digit) and `-001` exists, the number
   * computed is `-001`, which is taken: every later allocation of the
   * month fails over, and on a database that answers every read it ends in
   * the emergency number.
   */
  lemma FallbackLatestNeverAllocates(store: set<string>, year: nat, month: nat, outcomes: seq<Outcome>,
                                     clock: FallbackClock, earlier: FallbackClock)
    requires |outcomes| >= MaxRetries
    requires var prefix := PeriodPrefix(year, month);
      Latest(store, prefix) == Some(TimestampedNumber(prefix, earlier)) ||
      Latest(store, prefix) == Some(EmergencyNumber(prefix, earlier))
    requires PeriodPrefix(year, month) + "-001" in store
    ensures Allocate(store, year, month, outcomes, clock).kind != Sequential
    ensures (forall k :: 0 <= k < MaxRetries ==> outcomes[k] != ReadFails) ==>
            Allocate(store, year, month, outcomes, clock).kind == Emergency
  {
    var prefix := PeriodPrefix(year, month);
    FallbackRestartsSequence(year, month, earlier);
    assert TextOrder(prefix)(store) == prefix + "-001";
    TakenNumberNeverAllocates(store, prefix, 0, outcomes, clock, TextOrder(prefix));
  }

  /**
   * A month after one timestamped fallback: the table holds `-001` and
   * `-T…`, and no sequential number is handed out again that month.
   */
  lemma TimestampedNumberBlocksMonth(store: set<string>, year: nat, month: nat, outcomes: seq<Outcome>,
                                     clock: FallbackClock, earlier: FallbackClock)
    requires store == {PeriodPrefix(year, month) + "-001", TimestampedNumber(PeriodPrefix(year, month), earlier)}
    requires |outcomes| >= MaxRetries
    ensures Allocate(store, year, month, outcomes, clock).kind != Sequential
    ensures (forall k :: 0 <= k < MaxRetries ==> outcomes[k] == Inserted(true)) ==>
            Allocate(store, year, month, outcomes, clock).kind == Emergency
  {
    var prefix := PeriodPrefix(year, month);
    FallbackIsLatest(store, prefix, prefix + "-001", TimestampedNumber(prefix, earlier), TimestampDigits(earlier));
    FallbackLatestNeverAllocates(store, year, month, outcomes, clock, earlier);
  }

  lemma DigitsConcat(a: string, b: string)
    requires AllDigits(a) && AllDigits(b)
    ensures AllDigits(a + b)
  {
    forall i | 0 <= i < |a + b| ensures IsDigit((a + b)[i]) {
      if i >= |a| { assert (a + b)[i] == b[i - |a|]; }
    }
  }

  /** In text order the `-T…` number is the greater of the two. */
  lemma FallbackIsLatest(store: set<string>, prefix: string, lo: string, hi: string, tail: string)
    requires lo == prefix + "-001" && hi == prefix + "-T" + tail && store == {lo, hi}
    ensures Latest(store, prefix) == Some(hi)
  {
    FirstBeforeFallback(lo, hi, prefix, tail);
    LatestOfTwo(hi, lo, prefix);
    assert store == {hi, lo};
  }

  /** `-001` sorts before any `-T…` number of the same month. */
  lemma FirstBeforeFallback(lo: string, hi: string, prefix: string, tail: string)
    requires lo == prefix + "-001" && hi == prefix + "-T" + tail
    ensures Before(lo, hi) && InPeriod(hi, prefix)
  {
    var k := |prefix| + 1;
    assert hi[..k] == prefix + "-" == lo[..k];
    assert lo[k..] == "001" && hi[k] == 'T';
    assert Before(lo[k..], hi[k..]);
    CommonPrefixBefore(lo, hi, k);
  }

  /**
   * Read as numbers, the period's greatest sequence plus one is never a
   * number the table already holds.
   */
  lemma NumericNumberIsFree(store: set<string>, year: nat, month: nat)
    ensures NumericOrder(PeriodPrefix(year, month))(store) !in store
  {
    var prefix := PeriodPrefix(year, month);
    var n := MaxSequence(store, prefix) + 1;
    MaxOverBound(store, q => SequenceValue(q, prefix));
    var c := WithSequence(prefix, n);
    SequenceOfNumber(year, month, n);
    WithSequenceInPeriod(prefix, n);
    assert SequenceValue(c, prefix) == n;
  }

  /**
   * With the numeric read a healthy database hands out a fresh sequential
   * number on the first attempt, whatever the table holds.
   */
  lemma NumericOrderAllocatesAtOnce(store: set<string>, year: nat, month: nat,
                                    outcomes: seq<Outcome>, clock: FallbackClock)
    requires |outcomes| >= MaxRetries && outcomes[0] == Inserted(true)
    ensures var a := AllocateFrom(store, PeriodPrefix(year, month), 0, outcomes, clock, NumericOrder(PeriodPrefix(year, month)));
            a.kind == Sequential && a.number !in store && a.store == store && a.delays == []
  {
    NumericNumberIsFree(store, year, month);
    FreeNumberAllocatesAtOnce(store, PeriodPrefix(year, month), outcomes, clock, NumericOrder(PeriodPrefix(year, month)));
  }
}
