/** The circuit breaker taken apart: each atomic load, add, store, compare-and-swap and each section under
    the mutex is one step, and any number of goroutines interleave
    (go-ingestion/internal/resilience/circuit_breaker.go). */
module BreakerInterleaving {
  import opened CircuitBreaker

  /** Where a goroutine stands inside RecordFailure or RecordSuccess. */
  datatype Pc =
    | Idle
    // RecordFailure
    | LoadForFailure
    | HalfStop | HalfSwap | HalfZeroSuccesses | HalfZeroFailures | HalfStart
    | AddFailure | ClosedSwap | OpenZeroSuccesses | OpenZeroFailures | OpenStop | OpenStart
    // RecordSuccess
    | LoadForSuccess
    | AddSuccess | CloseSwap | CloseZeroSuccesses | CloseZeroFailures
    | LoadFailures | DecFailures(cur: int)

  /** A timer goroutine waits in its select, or has taken the timeout branch and is about to store. */
  datatype TimerPc = Waiting | TimedOut

  datatype World = World(
    state: State, failures: int, successes: int,
    stopCh: nat,       // the current channel, 0 for nil
    lastCh: nat,       // channels made so far
    closed: set<nat>,  // channels that have been closed
    threads: map<nat, Pc>,
    timers: map<nat, TimerPc>)  // timer goroutines that have not returned, by channel

  datatype Action =
    | CallFailure(t: nat) | CallSuccess(t: nat)
    | Move(t: nat)          // the goroutine's next atomic operation
    | TimeOut(ch: nat)      // the select takes the timeout branch
    | StoreHalfOpen(ch: nat)
    | Exit(ch: nat)         // the select takes the closed channel

  ghost predicate Enabled(w: World, a: Action) {
    match a
    case CallFailure(t) => t !in w.threads || w.threads[t] == Idle
    case CallSuccess(t) => t !in w.threads || w.threads[t] == Idle
    case Move(t) => t in w.threads && w.threads[t] != Idle
    case TimeOut(ch) => ch in w.timers && w.timers[ch] == Waiting
    case StoreHalfOpen(ch) => ch in w.timers && w.timers[ch] == TimedOut
    case Exit(ch) => ch in w.timers && w.timers[ch] == Waiting && ch in w.closed
  }

  ghost function At(w: World, t: nat, pc: Pc): World {
    w.(threads := w.threads[t := pc])
  }

  /** The stopTimer section. */
  ghost function StopTimer(w: World): World {
    if w.stopCh == 0 then w else w.(closed := w.closed + {w.stopCh}, stopCh := 0)
  }

  /** The startTimer section. */
  ghost function StartTimer(w: World): World {
    var ch := w.lastCh + 1;
    w.(stopCh := ch, lastCh := ch, timers := w.timers[ch := Waiting])
  }

  ghost function Advance(threshold: int, w: World, t: nat): World
    requires t in w.threads
  {
    match w.threads[t]
    case Idle => w
    case LoadForFailure =>
      At(w, t, match w.state case Open => Idle case HalfOpen => HalfStop case Closed => AddFailure)
    case HalfStop => At(StopTimer(w), t, HalfSwap)
    case HalfSwap =>
      if w.state == HalfOpen then At(w.(state := Open), t, HalfZeroSuccesses) else At(w, t, Idle)
    case HalfZeroSuccesses => At(w.(successes := 0), t, HalfZeroFailures)
    case HalfZeroFailures => At(w.(failures := 0), t, HalfStart)
    case HalfStart => At(StartTimer(w), t, Idle)
    case AddFailure =>
      At(w.(failures := w.failures + 1), t, if w.failures + 1 >= threshold then ClosedSwap else Idle)
    case ClosedSwap =>
      if w.state == Closed then At(w.(state := Open), t, OpenZeroSuccesses) else At(w, t, Idle)
    case OpenZeroSuccesses => At(w.(successes := 0), t, OpenZeroFailures)
    case OpenZeroFailures => At(w.(failures := 0), t, OpenStop)
    case OpenStop => At(StopTimer(w), t, OpenStart)
    case OpenStart => At(StartTimer(w), t, Idle)
    case LoadForSuccess =>
      At(w, t, match w.state case Open => Idle case HalfOpen => AddSuccess case Closed => LoadFailures)
    case AddSuccess =>
      At(w.(successes := w.successes + 1), t, if w.successes + 1 >= SUCCESS_TARGET then CloseSwap else Idle)
    case CloseSwap =>
      if w.state == HalfOpen then At(w.(state := Closed), t, CloseZeroSuccesses) else At(w, t, Idle)
    case CloseZeroSuccesses => At(w.(successes := 0), t, CloseZeroFailures)
    case CloseZeroFailures => At(w.(failures := 0), t, Idle)
    case LoadFailures => At(w, t, if w.failures <= 0 then Idle else DecFailures(w.failures))
    case DecFailures(cur) =>
      if w.failures == cur then At(w.(failures := cur - 1), t, Idle) else At(w, t, LoadFailures)
  }

  ghost function Next(threshold: int, w: World, a: Action): World
    requires Enabled(w, a)
  {
    match a
    case CallFailure(t) => At(w, t, LoadForFailure)
    case CallSuccess(t) => At(w, t, LoadForSuccess)
    case Move(t) => Advance(threshold, w, t)
    case TimeOut(ch) => w.(timers := w.timers[ch := TimedOut])
    case StoreHalfOpen(ch) => w.(state := HalfOpen, timers := w.timers - {ch})
    case Exit(ch) => w.(timers := w.timers - {ch})
  }

  const INIT := World(Closed, 0, 0, 0, 0, {}, map[], map[])

  /** w is where some run of enabled actions from the new breaker ends. */
  ghost predicate Reaches(threshold: int, run: seq<Action>, w: World) {
    if run == [] then w == INIT
    else
      var a := run[|run| - 1];
      exists v :: Reaches(threshold, run[..|run| - 1], v) && Enabled(v, a) && w == Next(threshold, v, a)
  }

  // ----- The timer invariant -----

  /** Between winning a swap to open and starting the timer. */
  ghost predicate Starting(pc: Pc) {
    pc.HalfZeroSuccesses? || pc.HalfZeroFailures? || pc.HalfStart?
    || pc.OpenZeroSuccesses? || pc.OpenZeroFailures? || pc.OpenStop? || pc.OpenStart?
  }

  /** Goroutines that still owe a timer start. */
  ghost function Starters(w: World): set<nat> {
    set t | t in w.threads && Starting(w.threads[t])
  }

  ghost predicate Inv(w: World) {
    Tokens(w) && Channels(w)
  }

  ghost predicate Tokens(w: World) {
    && |Starters(w)| + |w.timers| <= 1
    && (w.state != Open ==> Starters(w) == {} && w.timers == map[])
  }

  /** A timer waits on the current channel unless its channel has been closed. */
  ghost predicate Channels(w: World) {
    && w.stopCh <= w.lastCh
    && w.stopCh !in w.closed
    && (forall ch :: ch in w.timers ==> 0 < ch <= w.lastCh && (ch in w.closed || ch == w.stopCh))
    && (forall ch :: ch in w.closed ==> 0 < ch <= w.lastCh)
  }

  lemma StartersMove(w: World, v: World, t: nat, pc: Pc)
    requires v.threads == w.threads[t := pc]
    ensures Starters(v) == if Starting(pc) then Starters(w) + {t} else Starters(w) - {t}
  {
  }

  lemma OneStarter(w: World, t: nat)
    requires Inv(w) && t in Starters(w)
    ensures Starters(w) == {t} && w.timers == map[] && w.state == Open
  {
    assert Starters(w) == {t} by {
      if u :| u in Starters(w) && u != t {
        assert {t, u} <= Starters(w);
        CardinalityGrows({t, u}, Starters(w));
      }
    }
  }

  lemma {:induction false} CardinalityGrows(a: set<nat>, b: set<nat>)
    requires a <= b
    ensures |a| <= |b|
  {
    if a != {} {
      var x :| x in a;
      CardinalityGrows(a - {x}, b - {x});
    }
  }

  lemma OneTimer(w: World, ch: nat)
    requires Inv(w) && ch in w.timers
    ensures Starters(w) == {} && w.timers.Keys == {ch} && w.state == Open
  {
    CardinalityGrows({ch}, w.timers.Keys);
    assert w.timers.Keys == {ch} by {
      if c :| c in w.timers && c != ch {
        CardinalityGrows({ch, c}, w.timers.Keys);
      }
    }
  }

  /** Any move that wins no swap and starts no timer. */
  lemma OrdinaryMove(w: World, v: World, t: nat, pc: Pc)
    requires Tokens(w) && t in w.threads && v.threads == w.threads[t := pc]
    requires Starting(w.threads[t]) <==> Starting(pc)
    requires v.timers == w.timers && (v.state == w.state || (w.state != Open && v.state != Open))
    ensures Tokens(v) && Starters(v) == Starters(w)
  {
    StartersMove(w, v, t, pc);
    assert Starters(v) == Starters(w);
  }

  lemma WinningMove(w: World, v: World, t: nat, pc: Pc)
    requires Tokens(w) && t in w.threads && v.threads == w.threads[t := pc]
    requires w.state != Open && v.state == Open && v.timers == w.timers && Starting(pc)
    ensures Tokens(v) && Starters(v) == {t}
  {
    StartersMove(w, v, t, pc);
  }

  lemma StartingMove(w: World, v: World, t: nat, ch: nat)
    requires Inv(w) && t in Starters(w) && v.threads == w.threads[t := Idle]
    requires v.timers == w.timers[ch := Waiting] && v.state == w.state
    ensures Tokens(v)
  {
    OneStarter(w, t);
    StartersMove(w, v, t, Idle);
    assert v.timers.Keys == {ch};
  }

  lemma MoveKeepsTokens(threshold: int, w: World, t: nat)
    requires Inv(w) && Enabled(w, Move(t))
    ensures Tokens(Next(threshold, w, Move(t)))
  {
    var v := Next(threshold, w, Move(t));
    var pc := w.threads[t];
    if pc.HalfStart? || pc.OpenStart? {
      StartingMove(w, v, t, w.lastCh + 1);
    } else if v.state == Open && w.state != Open {
      WinningMove(w, v, t, v.threads[t]);
    } else {
      LosingMoveShape(threshold, w, t);
      OrdinaryMove(w, v, t, v.threads[t]);
    }
  }

  lemma LosingMoveShape(threshold: int, w: World, t: nat)
    requires Enabled(w, Move(t)) && !w.threads[t].HalfStart? && !w.threads[t].OpenStart?
    ensures var v := Advance(threshold, w, t);
            && t in v.threads && v.threads == w.threads[t := v.threads[t]] && v.timers == w.timers
            && (w.state != Open && v.state == Open ==> Starting(v.threads[t]))
            && ((w.state != Open && v.state == Open) || (Starting(w.threads[t]) <==> Starting(v.threads[t])))
            && (w.state == Open ==> v.state == Open)
            && v.closed == (if w.threads[t].HalfStop? || w.threads[t].OpenStop? then StopTimer(w).closed else w.closed)
  {
  }

  lemma MoveKeepsChannels(threshold: int, w: World, t: nat)
    requires Inv(w) && Enabled(w, Move(t))
    ensures Channels(Next(threshold, w, Move(t)))
  {
    var pc := w.threads[t];
    if pc.HalfStart? || pc.OpenStart? {
      assert t in Starters(w);
      OneStarter(w, t);
    }
  }

  lemma TimerKeepsInv(threshold: int, w: World, a: Action)
    requires Inv(w) && Enabled(w, a) && (a.TimeOut? || a.StoreHalfOpen? || a.Exit?)
    ensures Inv(Next(threshold, w, a))
  {
    var v := Next(threshold, w, a);
    OneTimer(w, a.ch);
    assert Starters(v) == Starters(w);
    if a.TimeOut? {
      assert v.timers.Keys == {a.ch};
    } else {
      assert v.timers.Keys == {};
    }
  }

  lemma CallKeepsInv(w: World, t: nat, pc: Pc)
    requires Inv(w) && (t !in w.threads || w.threads[t] == Idle) && !Starting(pc)
    ensures Inv(At(w, t, pc)) && Starters(At(w, t, pc)) == Starters(w)
  {
    StartersMove(w, At(w, t, pc), t, pc);
    assert t !in Starters(w);
  }

  lemma StepKeepsInv(threshold: int, w: World, a: Action)
    requires Inv(w) && Enabled(w, a)
    ensures Inv(Next(threshold, w, a))
  {
    match a
    case CallFailure(t) => CallKeepsInv(w, t, LoadForFailure);
    case CallSuccess(t) => CallKeepsInv(w, t, LoadForSuccess);
    case Move(t) =>
      MoveKeepsTokens(threshold, w, t);
      MoveKeepsChannels(threshold, w, t);
    case TimeOut(_) => TimerKeepsInv(threshold, w, a);
    case StoreHalfOpen(_) => TimerKeepsInv(threshold, w, a);
    case Exit(_) => TimerKeepsInv(threshold, w, a);
  }

  /** Under any interleaving, live timers plus owed timer starts are at most one, and none unless open. */
  lemma {:induction false} AtMostOneTimer(threshold: int, run: seq<Action>, w: World)
    requires Reaches(threshold, run, w)
    ensures Inv(w)
  {
    if run == [] {
      assert Starters(INIT) == {};
    } else {
      var a := run[|run| - 1];
      var v :| Reaches(threshold, run[..|run| - 1], v) && Enabled(v, a) && w == Next(threshold, v, a);
      AtMostOneTimer(threshold, run[..|run| - 1], v);
      StepKeepsInv(threshold, v, a);
    }
  }

  ghost predicate AllowedEdge(s: State, s': State, a: Action) {
    || s' == s
    || (s == Closed && s' == Open && a.Move?)
    || (s == Open && s' == HalfOpen && a.StoreHalfOpen?)
    || (s == HalfOpen && s' == Open && a.Move?)
    || (s == HalfOpen && s' == Closed && a.Move?)
  }

  lemma MoveEdges(threshold: int, w: World, t: nat)
    requires Enabled(w, Move(t))
    ensures AllowedEdge(w.state, Next(threshold, w, Move(t)).state, Move(t))
  {
  }

  /** The state moves along four edges only, and a timer stores half-open only over open. */
  lemma StateMoves(threshold: int, run: seq<Action>, w: World, a: Action)
    requires Reaches(threshold, run, w) && Enabled(w, a)
    ensures AllowedEdge(w.state, Next(threshold, w, a).state, a)
    ensures a.StoreHalfOpen? ==> w.state == Open
  {
    AtMostOneTimer(threshold, run, w);
    match a
    case Move(t) => MoveEdges(threshold, w, t);
    case StoreHalfOpen(ch) => OneTimer(w, ch);
    case _ =>
  }

  // ----- When an open breaker can get stuck -----

  /** Someone will take the breaker out of open: a start is owed, or a timer waits on a channel nobody closed. */
  ghost predicate Recovering(w: World) {
    w.state == Open ==>
      Starters(w) != {} || exists ch :: ch in w.timers && (ch !in w.closed || w.timers[ch] == TimedOut)
  }

  /** A goroutine that read half-open earlier stops the timer a later opening started. */
  ghost predicate StaleStop(w: World, a: Action) {
    a.Move? && a.t in w.threads && w.threads[a.t] == HalfStop
    && w.stopCh in w.timers && w.timers[w.stopCh] == Waiting
  }

  /** Exactly the stale stop leaves an open breaker that had a way out without one. */
  lemma RecoveringExactly(threshold: int, run: seq<Action>, w: World, a: Action)
    requires Reaches(threshold, run, w) && Enabled(w, a) && Recovering(w)
    ensures Recovering(Next(threshold, w, a)) <==> !StaleStop(w, a)
  {
    AtMostOneTimer(threshold, run, w);
    var v := Next(threshold, w, a);
    StepKeepsInv(threshold, w, a);
    match a {
      case CallFailure(t) => CallKeepsInv(w, t, LoadForFailure);
      case CallSuccess(t) => CallKeepsInv(w, t, LoadForSuccess);
      case Move(t) => MoveRecovering(threshold, w, t);
      case TimeOut(ch) =>
        assert v.timers[ch] == TimedOut;
      case StoreHalfOpen(ch) =>
      case Exit(ch) =>
        OneTimer(w, ch);
        assert false;
    }
  }

  lemma MoveRecovering(threshold: int, w: World, t: nat)
    requires Inv(w) && Enabled(w, Move(t)) && Recovering(w)
    ensures Recovering(Next(threshold, w, Move(t))) <==> !StaleStop(w, Move(t))
  {
    hide Advance;
    var v := Next(threshold, w, Move(t));
    var pc := w.threads[t];
    if pc.HalfStart? || pc.OpenStart? {
      StartRecovers(threshold, w, t);
      return;
    }
    LosingMoveShape(threshold, w, t);
    if v.state == Open && w.state != Open {
      WinningMove(w, v, t, v.threads[t]);
      assert t in Starters(v);
    } else {
      OrdinaryMove(w, v, t, v.threads[t]);
      if w.state == Open {
        OpenMoveRecovering(w, v, t);
      }
    }
  }

  lemma StartRecovers(threshold: int, w: World, t: nat)
    requires Inv(w) && Enabled(w, Move(t)) && (w.threads[t].HalfStart? || w.threads[t].OpenStart?)
    ensures Recovering(Next(threshold, w, Move(t))) && !StaleStop(w, Move(t))
  {
    var v := Next(threshold, w, Move(t));
    assert t in Starters(w);
    OneStarter(w, t);
    assert w.lastCh + 1 in v.timers && w.lastCh + 1 !in v.closed;
  }

  /** While open, the only ordinary moves that touch a channel are the two stopTimer sections. */
  lemma OpenMoveRecovering(w: World, v: World, t: nat)
    requires Inv(w) && Recovering(w) && t in w.threads
    requires w.state == v.state == Open && Starters(v) == Starters(w) && v.timers == w.timers
    requires v.closed == if w.threads[t].HalfStop? || w.threads[t].OpenStop? then StopTimer(w).closed else w.closed
    ensures Recovering(v) <==> !StaleStop(w, Move(t))
  {
    if w.threads[t].OpenStop? {
      assert t in Starters(w);
    }
    if StaleStop(w, Move(t)) {
      OneTimer(w, w.stopCh);
    } else if Starters(w) == {} {
      var ch :| ch in w.timers && (ch !in w.closed || w.timers[ch] == TimedOut);
      assert ch in v.timers && (ch !in v.closed || v.timers[ch] == TimedOut);
    }
  }

  ghost predicate Stuck(w: World) {
    w.state == Open && Starters(w) == {} && w.timers == map[]
  }

  /** Stuck is for ever: whatever the goroutines do, the breaker stays open and no timer ever starts. */
  lemma StuckForever(threshold: int, w: World, a: Action)
    requires Stuck(w) && Enabled(w, a)
    ensures Stuck(Next(threshold, w, a))
  {
    assert Tokens(w);
    match a
    case CallFailure(t) => StartersMove(w, Next(threshold, w, a), t, LoadForFailure);
    case CallSuccess(t) => StartersMove(w, Next(threshold, w, a), t, LoadForSuccess);
    case Move(t) =>
      var v := Next(threshold, w, a);
      assert t !in Starters(w);
      OrdinaryMove(w, v, t, v.threads[t]);
    case _ =>
  }

  /** A set of worlds that no enabled step (with threshold 1) leaves. */
  ghost predicate StepClosed(inside: World -> bool) {
    forall w, a :: inside(w) && Enabled(w, a) ==> inside(Next(1, w, a))
  }

  ghost function Thread1(w: World, pc: Pc): World {
    w.(threads := w.threads[1 := pc])
  }

  /** Goroutine 1 goes on from pc in w to pc' in the shared state of v. */
  lemma DoThread1(inside: World -> bool, w: World, pc: Pc, v: World, pc': Pc)
    requires StepClosed(inside) && inside(Thread1(w, pc)) && pc != Idle
    requires v.threads == w.threads
    requires Advance(1, Thread1(w, pc), 1) == At(v.(threads := w.threads[1 := pc]), 1, pc')
    ensures inside(Thread1(v, pc'))
  {
    assert w.threads[1 := pc][1 := pc'] == w.threads[1 := pc'];
    assert inside(Next(1, Thread1(w, pc), Move(1)));
  }

  /** One failure trips a closed breaker whose threshold is 1 and starts a timer. */
  lemma DoTrip(inside: World -> bool, w: World)
    requires StepClosed(inside) && inside(w) && Enabled(w, CallFailure(1))
    requires w.state == Closed && w.failures == w.successes == 0
    ensures inside(Thread1(StartTimer(StopTimer(w.(state := Open))), Idle))
  {
    assert inside(Next(1, w, CallFailure(1)));
    DoThread1(inside, w, LoadForFailure, w, AddFailure);
    var w1 := w.(failures := 1);
    DoThread1(inside, w, AddFailure, w1, ClosedSwap);
    DoThread1(inside, w1, ClosedSwap, w1.(state := Open), OpenZeroSuccesses);
    DoTripEnd(inside, w1.(state := Open));
    assert w1.(state := Open, failures := 0, successes := 0) == w.(state := Open);
  }

  lemma DoTripEnd(inside: World -> bool, w: World)
    requires StepClosed(inside) && inside(Thread1(w, OpenZeroSuccesses))
    ensures inside(Thread1(StartTimer(StopTimer(w.(failures := 0, successes := 0))), Idle))
  {
    var w1 := w.(successes := 0);
    DoThread1(inside, w, OpenZeroSuccesses, w1, OpenZeroFailures);
    var w2 := w1.(failures := 0);
    DoThread1(inside, w1, OpenZeroFailures, w2, OpenStop);
    DoRestart(inside, w2);
  }

  lemma DoRestart(inside: World -> bool, w: World)
    requires StepClosed(inside) && inside(Thread1(w, OpenStop))
    ensures inside(Thread1(StartTimer(StopTimer(w)), Idle))
  {
    var w1 := StopTimer(w);
    DoThread1(inside, w, OpenStop, w1, OpenStart);
    DoThread1(inside, w1, OpenStart, StartTimer(w1), Idle);
  }

  /** A success recorded in half-open that does not reach the target. */
  lemma DoSuccess(inside: World -> bool, w: World)
    requires StepClosed(inside) && inside(w) && Enabled(w, CallSuccess(1))
    requires w.state == HalfOpen && w.successes + 1 < SUCCESS_TARGET
    ensures inside(Thread1(w.(successes := w.successes + 1), Idle))
  {
    assert inside(Next(1, w, CallSuccess(1)));
    DoThread1(inside, w, LoadForSuccess, w, AddSuccess);
    DoThread1(inside, w, AddSuccess, w.(successes := w.successes + 1), Idle);
  }

  /** The success that reaches the target. */
  lemma DoClose(inside: World -> bool, w: World)
    requires StepClosed(inside) && inside(w) && Enabled(w, CallSuccess(1))
    requires w.state == HalfOpen && w.successes + 1 == SUCCESS_TARGET
    ensures inside(Thread1(w.(state := Closed, failures := 0, successes := 0), Idle))
  {
    assert inside(Next(1, w, CallSuccess(1)));
    DoThread1(inside, w, LoadForSuccess, w, AddSuccess);
    var w1 := w.(successes := w.successes + 1);
    DoThread1(inside, w, AddSuccess, w1, CloseSwap);
    DoThread1(inside, w1, CloseSwap, w1.(state := Closed), CloseZeroSuccesses);
    DoCloseEnd(inside, w1.(state := Closed));
  }

  lemma DoCloseEnd(inside: World -> bool, w: World)
    requires StepClosed(inside) && inside(Thread1(w, CloseZeroSuccesses))
    ensures inside(Thread1(w.(failures := 0, successes := 0), Idle))
  {
    var w1 := w.(successes := 0);
    DoThread1(inside, w, CloseZeroSuccesses, w1, CloseZeroFailures);
    DoThread1(inside, w1, CloseZeroFailures, w1.(failures := 0), Idle);
  }

  /** Goroutine 2 reads half-open after the first trip and stalls. */
  lemma StallInHalfOpen(inside: World -> bool)
    requires StepClosed(inside) && inside(INIT)
    ensures inside(World(HalfOpen, 0, 0, 1, 1, {}, map[1 := Idle, 2 := HalfStop], map[]))
  {
    DoTrip(inside, INIT);
    var w1 := World(Open, 0, 0, 1, 1, {}, map[1 := Idle], map[1 := Waiting]);
    assert inside(w1);
    assert inside(Next(1, w1, TimeOut(1)));
    var w2 := w1.(timers := map[1 := TimedOut]);
    assert Next(1, w1, TimeOut(1)) == w2;
    assert inside(Next(1, w2, StoreHalfOpen(1)));
    var w3 := World(HalfOpen, 0, 0, 1, 1, {}, map[1 := Idle], map[]);
    assert Next(1, w2, StoreHalfOpen(1)) == w3;
    assert inside(Next(1, w3, CallFailure(2)));
    var w4 := w3.(threads := map[1 := Idle, 2 := LoadForFailure]);
    assert Next(1, w3, CallFailure(2)) == w4;
    assert inside(Next(1, w4, Move(2)));
    assert Next(1, w4, Move(2)).threads == map[1 := Idle, 2 := HalfStop];
  }

  /** Three successes close the breaker, a failure opens it again, and only then goroutine 2 stops the timer. */
  lemma StopAfterReopening(inside: World -> bool) returns (w: World)
    requires StepClosed(inside) && inside(World(HalfOpen, 0, 0, 1, 1, {}, map[1 := Idle, 2 := HalfStop], map[]))
    ensures inside(w) && Stuck(w) && forall t :: t in w.threads ==> w.threads[t] == Idle
  {
    var threads := map[1 := Idle, 2 := HalfStop];
    assert threads[1 := Idle] == threads;
    var half := World(HalfOpen, 0, 0, 1, 1, {}, threads, map[]);
    DoSuccess(inside, half);
    DoSuccess(inside, half.(successes := 1));
    DoClose(inside, half.(successes := 2));
    DoTrip(inside, half.(state := Closed));
    var open := World(Open, 0, 0, 2, 2, {1}, threads, map[2 := Waiting]);
    assert Thread1(StartTimer(StopTimer(half.(state := Open))), Idle) == open;
    w := StaleStopSticks(inside, open);
  }

  lemma StaleStopSticks(inside: World -> bool, open: World) returns (w: World)
    requires StepClosed(inside) && inside(open)
    requires open == World(Open, 0, 0, 2, 2, {1}, map[1 := Idle, 2 := HalfStop], map[2 := Waiting])
    ensures inside(w) && Stuck(w) && forall t :: t in w.threads ==> w.threads[t] == Idle
  {
    var w1 := Next(1, open, Move(2));
    assert inside(w1);
    var w2 := Next(1, w1, Exit(2));
    assert inside(w2);
    w := Next(1, w2, Move(2));
    assert inside(w);
    assert w.threads == map[1 := Idle, 2 := Idle];
    assert Starters(w) == {};
  }

  lemma ReachableIsStepClosed()
    ensures StepClosed((w: World) => exists run :: Reaches(1, run, w))
  {
    forall w, a | (exists run :: Reaches(1, run, w)) && Enabled(w, a)
      ensures exists run :: Reaches(1, run, Next(1, w, a))
    {
      var run :| Reaches(1, run, w);
      var longer := run + [a];
      assert longer[..|longer| - 1] == run && longer[|longer| - 1] == a;
      assert Reaches(1, longer[..|longer| - 1], w) && Enabled(w, longer[|longer| - 1]);
      assert Reaches(1, longer, Next(1, w, a));
    }
  }

  /** The code can get stuck: some run of the two calls ends open, with no timer and no call in progress. */
  lemma StuckRun() returns (run: seq<Action>, w: World)
    ensures Reaches(1, run, w) && Stuck(w) && forall t :: t in w.threads ==> w.threads[t] == Idle
  {
    var inside := (w: World) => exists run :: Reaches(1, run, w);
    ReachableIsStepClosed();
    assert Reaches(1, [], INIT);
    StallInHalfOpen(inside);
    w := StopAfterReopening(inside);
    run :| Reaches(1, run, w);
  }

  // ----- A call without interruption -----

  /** A goroutine goes on alone until it is idle again. */
  ghost function Finish(threshold: int, w: World, t: nat, fuel: nat): World
    requires t in w.threads
    decreases fuel
  {
    if fuel == 0 || w.threads[t] == Idle then w else Finish(threshold, Advance(threshold, w, t), t, fuel - 1)
  }

  /** The shared fields are those of the breaker, and an open one has just got a timer. */
  ghost predicate Matches(w: World, b: Breaker) {
    w.state == b.state && w.failures == b.failures && w.successes == b.successes
  }

  ghost predicate JustStarted(w: World, v: World) {
    v.lastCh == w.lastCh + 1 == v.stopCh && v.stopCh in v.timers && v.timers[v.stopCh] == Waiting
  }

  lemma FinishOpening(threshold: int, w: World, t: nat, fuel: nat)
    requires t in w.threads && w.threads[t] == OpenZeroSuccesses && fuel >= 4
    ensures var v := Finish(threshold, w, t, fuel);
            && t in v.threads && v.threads[t] == Idle && JustStarted(w, v)
            && v.state == w.state && v.failures == v.successes == 0
  {
    var w1 := Advance(threshold, w, t);
    var w2 := Advance(threshold, w1, t);
    var w3 := Advance(threshold, w2, t);
    var w4 := Advance(threshold, w3, t);
    assert w4.threads[t] == Idle;
    assert Finish(threshold, w, t, fuel) == Finish(threshold, w2, t, fuel - 2) == Finish(threshold, w4, t, fuel - 4);
  }

  lemma FinishReopening(threshold: int, w: World, t: nat, fuel: nat)
    requires t in w.threads && w.threads[t] == HalfStop && w.state == HalfOpen && fuel >= 5
    ensures var v := Finish(threshold, w, t, fuel);
            && t in v.threads && v.threads[t] == Idle && JustStarted(w, v)
            && v.state == Open && v.failures == v.successes == 0
  {
    var w1 := Advance(threshold, w, t);
    var w2 := Advance(threshold, w1, t);
    var w3 := Advance(threshold, w2, t);
    var w4 := Advance(threshold, w3, t);
    var w5 := Advance(threshold, w4, t);
    assert w5.threads[t] == Idle;
    assert Finish(threshold, w, t, fuel) == Finish(threshold, w2, t, fuel - 2) == Finish(threshold, w4, t, fuel - 4);
    assert Finish(threshold, w4, t, fuel - 4) == Finish(threshold, w5, t, fuel - 5);
  }

  /** RecordFailure alone is one step of the breaker. */
  lemma FailureAlone(threshold: int, w: World, t: nat, timer: bool)
    requires Enabled(w, CallFailure(t))
    ensures var v := Finish(threshold, Next(threshold, w, CallFailure(t)), t, 8);
            var b := Step(threshold, Breaker(w.state, w.failures, w.successes, timer), Failure);
            && t in v.threads && v.threads[t] == Idle && Matches(v, b)
            && (w.state != Open && b.state == Open ==> JustStarted(w, v))
  {
    var w1 := Next(threshold, w, CallFailure(t));
    var w2 := Advance(threshold, w1, t);
    assert Finish(threshold, w1, t, 8) == Finish(threshold, w2, t, 7);
    match w.state
    case Open =>
    case HalfOpen => FinishReopening(threshold, w2, t, 7);
    case Closed =>
      var w3 := Advance(threshold, w2, t);
      assert Finish(threshold, w2, t, 7) == Finish(threshold, w3, t, 6);
      if w.failures + 1 >= threshold {
        var w4 := Advance(threshold, w3, t);
        assert Finish(threshold, w3, t, 6) == Finish(threshold, w4, t, 5);
        FinishOpening(threshold, w4, t, 5);
      }
  }

  lemma FinishHalfOpen(threshold: int, w: World, t: nat, fuel: nat)
    requires t in w.threads && w.threads[t] == AddSuccess && w.state == HalfOpen && fuel >= 4
    ensures var v := Finish(threshold, w, t, fuel);
            && t in v.threads && v.threads[t] == Idle && v.timers == w.timers && v.stopCh == w.stopCh
            && if w.successes + 1 >= SUCCESS_TARGET then v.state == Closed && v.failures == v.successes == 0
               else v.state == HalfOpen && v.failures == w.failures && v.successes == w.successes + 1
  {
    var w1 := Advance(threshold, w, t);
    if w.successes + 1 >= SUCCESS_TARGET {
      var w2 := Advance(threshold, w1, t);
      var w3 := Advance(threshold, w2, t);
      var w4 := Advance(threshold, w3, t);
      assert w4.threads[t] == Idle;
      assert Finish(threshold, w, t, fuel) == Finish(threshold, w2, t, fuel - 2) == Finish(threshold, w4, t, fuel - 4);
    } else {
      assert Finish(threshold, w, t, fuel) == Finish(threshold, w1, t, fuel - 1);
    }
  }

  lemma FinishDecrement(threshold: int, w: World, t: nat, fuel: nat)
    requires t in w.threads && w.threads[t] == LoadFailures && fuel >= 2
    ensures var v := Finish(threshold, w, t, fuel);
            && t in v.threads && v.threads[t] == Idle && v.timers == w.timers && v.stopCh == w.stopCh
            && v.state == w.state && v.successes == w.successes
            && v.failures == if w.failures > 0 then w.failures - 1 else w.failures
  {
    var w1 := Advance(threshold, w, t);
    assert Finish(threshold, w, t, fuel) == Finish(threshold, w1, t, fuel - 1);
    if w.failures > 0 {
      assert Finish(threshold, w1, t, fuel - 1) == Finish(threshold, Advance(threshold, w1, t), t, fuel - 2);
    }
  }

  /** So is RecordSuccess alone. */
  lemma SuccessAlone(threshold: int, w: World, t: nat, timer: bool)
    requires Enabled(w, CallSuccess(t))
    ensures var v := Finish(threshold, Next(threshold, w, CallSuccess(t)), t, 8);
            && t in v.threads && v.threads[t] == Idle
            && Matches(v, Step(threshold, Breaker(w.state, w.failures, w.successes, timer), Success))
            && v.timers == w.timers && v.stopCh == w.stopCh
  {
    var w1 := Next(threshold, w, CallSuccess(t));
    var w2 := Advance(threshold, w1, t);
    assert Finish(threshold, w1, t, 8) == Finish(threshold, w2, t, 7);
    match w.state
    case Open =>
    case HalfOpen => FinishHalfOpen(threshold, w2, t, 7);
    case Closed => FinishDecrement(threshold, w2, t, 7);
  }

  /** And so is a timer that runs out where it is the one waiting. */
  lemma TimerAlone(threshold: int, w: World, ch: nat)
    requires Enabled(w, TimeOut(ch))
    ensures var v := Next(threshold, w, TimeOut(ch));
            && Enabled(v, StoreHalfOpen(ch))
            && var u := Next(threshold, v, StoreHalfOpen(ch));
               && Matches(u, Step(threshold, Breaker(w.state, w.failures, w.successes, true), Fire))
               && u.timers == w.timers - {ch} && u.threads == w.threads
  {
  }
}
