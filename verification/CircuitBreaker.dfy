/** The circuit breaker with each method one step (go-ingestion/internal/resilience/circuit_breaker.go)
    and the ingester it guards (go-ingestion/internal/worker/ingester/resilient.go).
    BreakerInterleaving takes the same methods apart into their atomic operations. */
module CircuitBreaker {
  datatype State = Closed | Open | HalfOpen

  const SUCCESS_TARGET := 3

  // ----- The breaker as a value -----

  /** timer says whether a timer goroutine is waiting. */
  datatype Breaker = Breaker(state: State, failures: int, successes: int, timer: bool)

  datatype Event = Failure | Success | Fire

  const FRESH := Breaker(Closed, 0, 0, false)
  const TRIPPED := Breaker(Open, 0, 0, true)

  function Step(threshold: int, b: Breaker, e: Event): Breaker {
    match (e, b.state)
    case (Failure, Closed) => if b.failures + 1 >= threshold then TRIPPED else b.(failures := b.failures + 1)
    case (Failure, HalfOpen) => TRIPPED
    case (Success, Closed) => if b.failures > 0 then b.(failures := b.failures - 1) else b
    case (Success, HalfOpen) => if b.successes + 1 >= SUCCESS_TARGET then FRESH else b.(successes := b.successes + 1)
    case (Fire, _) => if b.timer then b.(state := HalfOpen, timer := false) else b
    case (_, Open) => b
  }

  function Run(threshold: int, es: seq<Event>): Breaker {
    if es == [] then FRESH else Step(threshold, Run(threshold, es[..|es| - 1]), es[|es| - 1])
  }

  /** A run that can happen: a timer fires only where one is waiting. */
  ghost predicate Possible(threshold: int, es: seq<Event>) {
    forall i :: 0 <= i < |es| && es[i] == Fire ==> Run(threshold, es[..i]).timer
  }

  // ----- The breaker as an object -----

  class CircuitBreaker {
    var failures: int
    var successes: int
    const threshold: int
    var state: State
    var stopCh: int        // the current channel, 0 for nil
    var lastCh: int        // channels made so far
    var waiting: set<int>  // the channels whose timer goroutine is still in its select

    constructor (threshold: int)
      ensures Valid() && this.threshold == threshold && Value() == FRESH
    {
      this.threshold := threshold;
      failures, successes, state := 0, 0, Closed;
      stopCh, lastCh, waiting := 0, 0, {};
    }

    /** Exactly the open breaker has a timer, it has exactly one, and stopCh is its channel. */
    ghost predicate Valid()
      reads this
    {
      && 0 <= stopCh <= lastCh
      && waiting == (if state == Open then {stopCh} else {})
      && (state == Open ==> stopCh > 0 && failures == successes == 0)
      && (state == HalfOpen ==> failures == 0 && 0 <= successes < SUCCESS_TARGET)
      && (state == Closed ==> failures >= 0 && successes == 0)
    }

    ghost function Value(): Breaker
      reads this
    {
      Breaker(state, failures, successes, waiting != {})
    }

    method Allow() returns (allowed: bool)
      ensures allowed <==> state != Open
    {
      match state
      case Open => allowed := false;
      case HalfOpen => allowed := true;
      case Closed => allowed := true;
    }

    method StopTimer()
      modifies this`stopCh, this`waiting
      ensures stopCh == 0
      ensures waiting == if old(stopCh) != 0 then old(waiting) - {old(stopCh)} else old(waiting)
    {
      if stopCh != 0 {
        waiting := waiting - {stopCh};
        stopCh := 0;
      }
    }

    method StartTimer()
      modifies this`stopCh, this`lastCh, this`waiting
      ensures stopCh == lastCh == old(lastCh) + 1 && waiting == old(waiting) + {stopCh}
    {
      lastCh := lastCh + 1;
      stopCh := lastCh;
      waiting := waiting + {stopCh};
    }

    method RecordFailure()
      requires Valid()
      modifies this
      ensures Valid() && Value() == Step(threshold, old(Value()), Failure)
    {
      match state {
        case Open =>
        case HalfOpen =>
          StopTimer();
          state := Open;
          successes, failures := 0, 0;
          StartTimer();
        case Closed =>
          failures := failures + 1;
          if failures >= threshold {
            state := Open;
            successes, failures := 0, 0;
            StopTimer();
            StartTimer();
          }
      }
    }

    method RecordSuccess()
      requires Valid()
      modifies this
      ensures Valid() && Value() == Step(threshold, old(Value()), Success)
    {
      if state == HalfOpen {
        successes := successes + 1;
        if successes >= SUCCESS_TARGET {
          state := Closed;
          successes, failures := 0, 0;
        }
        return;
      }
      if state == Closed && failures > 0 {
        failures := failures - 1;
      }
    }

    /** The timer goroutine's second select branch. */
    method TimerFires(ch: int)
      requires Valid() && ch in waiting
      modifies this
      ensures Valid() && Value() == Step(threshold, old(Value()), Fire)
    {
      waiting := waiting - {ch};
      state := HalfOpen;
    }
  }

  // ----- When the breaker opens -----

  /** Failures minus successes. */
  function Balance(os: seq<Event>): int {
    if os == [] then 0
    else Balance(os[..|os| - 1]) + (match os[|os| - 1] case Failure => 1 case Success => -1 case Fire => 0)
  }

  ghost predicate OutcomesOnly(os: seq<Event>) {
    forall i :: 0 <= i < |os| ==> os[i] != Fire
  }

  /** Some contiguous stretch of outcomes, ending in a failure, is bad enough. */
  ghost predicate BadStretch(threshold: int, os: seq<Event>) {
    exists i, j :: 0 <= i < j <= |os| && os[j - 1] == Failure && Balance(os[i..j]) >= threshold
  }

  function RunFrom(threshold: int, b: Breaker, es: seq<Event>): Breaker {
    if es == [] then b else Step(threshold, RunFrom(threshold, b, es[..|es| - 1]), es[|es| - 1])
  }

  lemma SuffixBalance(init: seq<Event>, o: Event, i: nat)
    requires i <= |init|
    ensures Balance((init + [o])[i..]) == Balance(init[i..]) + Balance([o])
  {
    var s := (init + [o])[i..];
    assert s[..|s| - 1] == init[i..];
  }

  /** The largest balance of any stretch, possibly empty, that ends now. */
  ghost function WorstSuffix(os: seq<Event>): nat {
    if os == [] then 0
    else
      var w := WorstSuffix(os[..|os| - 1]) + Balance([os[|os| - 1]]);
      if w < 0 then 0 else w
  }

  lemma {:induction false} WorstSuffixBounds(os: seq<Event>, i: nat)
    requires i <= |os|
    ensures Balance(os[i..]) <= WorstSuffix(os)
  {
    if i < |os| {
      var init, o := os[..|os| - 1], os[|os| - 1];
      WorstSuffixBounds(init, i);
      assert os == init + [o];
      SuffixBalance(init, o, i);
    }
  }

  lemma {:induction false} WorstSuffixAttained(os: seq<Event>) returns (i: nat)
    ensures i <= |os| && Balance(os[i..]) == WorstSuffix(os)
  {
    i := |os|;
    if WorstSuffix(os) > 0 {
      var init, o := os[..|os| - 1], os[|os| - 1];
      i := WorstSuffixAttained(init);
      assert os == init + [o];
      SuffixBalance(init, o, i);
    }
  }

  /** While closed, the failure counter is the largest balance of any stretch ending now. */
  lemma {:induction false} CounterIsWorstSuffix(threshold: int, os: seq<Event>)
    requires OutcomesOnly(os) && RunFrom(threshold, FRESH, os).state == Closed
    ensures RunFrom(threshold, FRESH, os) == FRESH.(failures := WorstSuffix(os))
  {
    if os != [] {
      var init, o := os[..|os| - 1], os[|os| - 1];
      StaysTripped(threshold, init, o);
      CounterIsWorstSuffix(threshold, init);
      assert Balance([o]) == if o == Failure then 1 else -1;
    }
  }

  /** An outcome never closes the breaker it finds freshly opened. */
  lemma {:induction false} StaysTripped(threshold: int, os: seq<Event>, o: Event)
    requires OutcomesOnly(os) && o != Fire
    ensures RunFrom(threshold, FRESH, os).state in {Closed, Open}
    ensures RunFrom(threshold, FRESH, os).state == Open ==>
        Step(threshold, RunFrom(threshold, FRESH, os), o).state == Open
  {
    if os != [] {
      StaysTripped(threshold, os[..|os| - 1], os[|os| - 1]);
    }
  }

  /** The last outcome is a failure that ends a bad enough stretch. */
  ghost predicate EndsBadStretch(threshold: int, os: seq<Event>) {
    os != [] && os[|os| - 1] == Failure && exists i :: 0 <= i < |os| && Balance(os[i..]) >= threshold
  }

  lemma BadStretchWasOrEnds(threshold: int, os: seq<Event>)
    requires BadStretch(threshold, os)
    ensures os != [] && (BadStretch(threshold, os[..|os| - 1]) || EndsBadStretch(threshold, os))
  {
    var init := os[..|os| - 1];
    var i, j :| 0 <= i < j <= |os| && os[j - 1] == Failure && Balance(os[i..j]) >= threshold;
    if j < |os| {
      assert init[i..j] == os[i..j] && init[j - 1] == Failure;
    } else {
      assert os[i..j] == os[i..];
    }
  }

  lemma BadStretchStays(threshold: int, os: seq<Event>)
    requires os != [] && (BadStretch(threshold, os[..|os| - 1]) || EndsBadStretch(threshold, os))
    ensures BadStretch(threshold, os)
  {
    var n := |os|;
    var init := os[..n - 1];
    if EndsBadStretch(threshold, os) {
      var i :| 0 <= i < n && Balance(os[i..]) >= threshold;
      assert os[i..n] == os[i..];
    } else {
      var i, j :| 0 <= i < j <= |init| && init[j - 1] == Failure && Balance(init[i..j]) >= threshold;
      assert os[i..j] == init[i..j] && os[j - 1] == Failure;
    }
  }

  /** A failure met while closed opens the breaker exactly when it ends a bad enough stretch. */
  lemma OpensNow(threshold: int, init: seq<Event>, o: Event)
    requires OutcomesOnly(init) && o != Fire && RunFrom(threshold, FRESH, init).state == Closed
    ensures Step(threshold, RunFrom(threshold, FRESH, init), o).state ==
            (if EndsBadStretch(threshold, init + [o]) then Open else Closed)
  {
    CounterIsWorstSuffix(threshold, init);
    var os := init + [o];
    assert os[..|os| - 1] == init;
    assert Balance([o]) == if o == Failure then 1 else -1;
    if EndsBadStretch(threshold, os) {
      var i :| 0 <= i < |os| && Balance(os[i..]) >= threshold;
      WorstSuffixBounds(os, i);
    } else {
      var i := WorstSuffixAttained(init);
      SuffixBalance(init, o, i);
      assert i < |os| && Balance(os[i..]) == WorstSuffix(init) + Balance([o]);
    }
  }

  /** From a fresh breaker, the outcomes open it exactly when some stretch was bad enough. */
  lemma {:induction false} OpensOnBadStretch(threshold: int, os: seq<Event>)
    requires OutcomesOnly(os)
    ensures RunFrom(threshold, FRESH, os).state == (if BadStretch(threshold, os) then Open else Closed)
  {
    if os != [] {
      var init, o := os[..|os| - 1], os[|os| - 1];
      StaysTripped(threshold, init, o);
      OpensOnBadStretch(threshold, init);
      if BadStretch(threshold, os) {
        BadStretchWasOrEnds(threshold, os);
      } else if BadStretch(threshold, init) || EndsBadStretch(threshold, os) {
        BadStretchStays(threshold, os);
      }
      assert os == init + [o];
      if RunFrom(threshold, FRESH, init).state == Closed {
        OpensNow(threshold, init, o);
      }
    }
  }

  lemma {:induction false} RunSplits(threshold: int, es: seq<Event>, k: nat)
    requires k <= |es|
    ensures Run(threshold, es) == RunFrom(threshold, Run(threshold, es[..k]), es[k..])
  {
    if k == |es| {
      assert es[..k] == es;
    } else {
      var init := es[..|es| - 1];
      RunSplits(threshold, init, k);
      assert init[..k] == es[..k];
      assert es[k..][..|es[k..]| - 1] == init[k..];
    }
  }

  // ----- What every run keeps -----

  /** In every possible run the timer waits exactly while the breaker is open, and the counters fit the state. */
  lemma {:induction false} RunInvariant(threshold: int, es: seq<Event>)
    ensures var b := Run(threshold, es);
            && (b.timer <==> b.state == Open)
            && (b.state == Open ==> b == TRIPPED)
            && (b.state == HalfOpen ==> b.failures == 0 && 0 <= b.successes < SUCCESS_TARGET)
            && (b.state == Closed ==> b.successes == 0 && b.failures >= 0)
  {
    if es != [] {
      RunInvariant(threshold, es[..|es| - 1]);
    }
  }

  ghost predicate JustClosed(threshold: int, es: seq<Event>, k: nat)
    requires k <= |es|
  {
    k == 0 || (Run(threshold, es[..k]).state == Closed && Run(threshold, es[..k - 1]).state != Closed)
  }

  /** Over a whole run: since the moment k it last closed, with no timer firing after it, the breaker is
      open exactly when the outcomes since k contain a stretch whose failures exceed its successes by
      the threshold. Taken at every prefix, this pins the failure at which it opens. */
  lemma OpensExactly(threshold: int, es: seq<Event>, k: nat)
    requires k <= |es| && JustClosed(threshold, es, k) && OutcomesOnly(es[k..])
    ensures Run(threshold, es).state == (if BadStretch(threshold, es[k..]) then Open else Closed)
  {
    if k > 0 {
      assert es[..k][..k - 1] == es[..k - 1];
      ClosingIsFresh(threshold, es[..k]);
    }
    RunSplits(threshold, es, k);
    OpensOnBadStretch(threshold, es[k..]);
  }

  lemma ClosingIsFresh(threshold: int, es: seq<Event>)
    requires es != [] && Run(threshold, es).state == Closed && Run(threshold, es[..|es| - 1]).state != Closed
    ensures Run(threshold, es) == FRESH
  {
  }

  // ----- When it closes again -----

  lemma PossiblePrefix(threshold: int, es: seq<Event>, k: nat)
    requires Possible(threshold, es) && k <= |es|
    ensures Possible(threshold, es[..k])
  {
    forall i | 0 <= i < k && es[..k][i] == Fire
      ensures Run(threshold, es[..k][..i]).timer
    {
      assert es[..k][..i] == es[..i];
      assert es[i] == Fire;
    }
  }

  /** A half-open breaker with n successes got there by a firing timer and n successes since. */
  lemma {:induction false} HalfOpenHistory(threshold: int, es: seq<Event>)
    requires Possible(threshold, es) && Run(threshold, es).state == HalfOpen
    ensures var n := Run(threshold, es).successes;
            0 <= n < |es| && es[|es| - 1 - n] == Fire && forall i :: |es| - n <= i < |es| ==> es[i] == Success
  {
    var init := es[..|es| - 1];
    RunInvariant(threshold, init);
    if Run(threshold, init).state == HalfOpen {
      PossiblePrefix(threshold, es, |es| - 1);
      HalfOpenHistory(threshold, init);
    }
  }

  lemma RunAppend(threshold: int, es: seq<Event>, e: Event)
    ensures Run(threshold, es + [e]) == Step(threshold, Run(threshold, es), e)
  {
    assert (es + [e])[..|es|] == es;
  }

  lemma ThreeSuccessesClose(threshold: int, es: seq<Event>)
    requires Run(threshold, es) == TRIPPED
    ensures Run(threshold, es + [Fire, Success, Success]).state == HalfOpen
    ensures Run(threshold, es + [Fire, Success, Success, Success]) == FRESH
  {
    RunAppend(threshold, es, Fire);
    RunAppend(threshold, es + [Fire], Success);
    RunAppend(threshold, es + [Fire, Success], Success);
    RunAppend(threshold, es + [Fire, Success, Success], Success);
    assert es + [Fire] + [Success] == es + [Fire, Success];
    assert es + [Fire, Success] + [Success] == es + [Fire, Success, Success];
    assert es + [Fire, Success, Success] + [Success] == es + [Fire, Success, Success, Success];
  }

  lemma ClosingHistory(threshold: int, es: seq<Event>)
    requires es != [] && Possible(threshold, es)
    requires Run(threshold, es).state == Closed && Run(threshold, es[..|es| - 1]).state != Closed
    ensures |es| >= 4 && es[|es| - 4..] == [Fire, Success, Success, Success]
  {
    var n := |es|;
    var init := es[..n - 1];
    RunInvariant(threshold, init);
    assert Run(threshold, init).state == HalfOpen && es[n - 1] == Success && Run(threshold, init).successes == 2;
    PossiblePrefix(threshold, es, n - 1);
    HalfOpenHistory(threshold, init);
    assert init[n - 4] == Fire && init[n - 3] == Success && init[n - 2] == Success;
  }

  lemma HistoryCloses(threshold: int, es: seq<Event>)
    requires Possible(threshold, es + [Fire, Success, Success, Success])
    ensures Run(threshold, es + [Fire, Success, Success]).state == HalfOpen
    ensures Run(threshold, es + [Fire, Success, Success, Success]) == FRESH
  {
    var all := es + [Fire, Success, Success, Success];
    assert all[|es|] == Fire && all[..|es|] == es;
    RunInvariant(threshold, es);
    ThreeSuccessesClose(threshold, es);
  }

  /** The breaker closes exactly on the third success in a row after a timer fired. */
  lemma ClosesExactly(threshold: int, es: seq<Event>)
    requires es != [] && Possible(threshold, es)
    ensures Run(threshold, es).state == Closed && Run(threshold, es[..|es| - 1]).state != Closed
            <==> |es| >= 4 && es[|es| - 4..] == [Fire, Success, Success, Success]
  {
    var n := |es|;
    if Run(threshold, es).state == Closed && Run(threshold, es[..n - 1]).state != Closed {
      ClosingHistory(threshold, es);
    } else if n >= 4 && es[n - 4..] == [Fire, Success, Success, Success] {
      assert es == es[..n - 4] + [Fire, Success, Success, Success];
      assert es[..n - 1] == es[..n - 4] + [Fire, Success, Success];
      HistoryCloses(threshold, es[..n - 4]);
    }
  }

  // ----- The guarded ingester -----

  datatype IngestResult = Ingested | AlreadySeen | Constraint(code: string) | OtherError

  datatype GuardedResult = RejectedOpen | Passed(result: IngestResult)

  predicate IsValidation(r: IngestResult) {
    r.Constraint? && (r.code == "23505" || r.code == "23503")
  }

  class ResilientIngester {
    const cb: CircuitBreaker

    constructor (cb: CircuitBreaker)
      ensures this.cb == cb
    {
      this.cb := cb;
    }

    /** next stands for what the wrapped ingester returns when it is called. An open breaker is left as
        it is; duplicates and constraint violations are not counted; anything else is one outcome. */
    method Ingest(next: IngestResult) returns (r: GuardedResult)
      requires cb.Valid()
      modifies cb
      ensures cb.Valid()
      ensures r.RejectedOpen? <==> old(cb.state) == Open
      ensures r.Passed? ==> r.result == next
      ensures cb.Value() == (
                if old(cb.state) == Open || next.AlreadySeen? || IsValidation(next) then old(cb.Value())
                else Step(cb.threshold, old(cb.Value()), if next.Ingested? then Success else Failure))
      ensures old(cb.state) != Open ==>
                match next
                case Ingested => cb.Value() == Step(cb.threshold, old(cb.Value()), Success)
                case AlreadySeen => cb.Value() == old(cb.Value())
                case Constraint(code) =>
                  cb.Value() == (if code == "23505" || code == "23503" then old(cb.Value())
                                 else Step(cb.threshold, old(cb.Value()), Failure))
                case OtherError => cb.Value() == Step(cb.threshold, old(cb.Value()), Failure)
    {
      var allowed := cb.Allow();
      if !allowed {
        return RejectedOpen;
      }
      if !next.Ingested? {
        if !next.AlreadySeen? && !IsValidation(next) {
          cb.RecordFailure();
        }
        return Passed(next);
      }
      cb.RecordSuccess();
      return Passed(next);
    }
  }
}
