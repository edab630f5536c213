/** One enrichment run over the sorted sources (go-ingestion/internal/enrich/runner.go, Run and runOne).
    The gate and the sources themselves are the parameters behave and cancelled. */
module EnrichRunner {
  import opened DependencySort

  datatype GateAnswer = GateError | Skip | Go

  /** How the gate and the source react when their turn comes. */
  datatype Behaviour = Behaviour(gate: GateAnswer, succeeds: bool)

  datatype Event = Asked(name: string) | Started(source: Source) | Recorded(name: string, success: bool)

  datatype RunError = NotWired | Cancelled | GateFailed(name: string) | CriticalFailed(name: string)

  datatype Outcome = Completed | Stopped(error: RunError)

  function EventsOf(s: Source, b: Behaviour): seq<Event> {
    if b.gate.Go? then [Asked(s.name), Started(s), Recorded(s.name, b.succeeds)] else [Asked(s.name)]
  }

  function Trace(sources: seq<Source>, behave: Source -> Behaviour): seq<Event> {
    if sources == [] then []
    else Trace(sources[..|sources| - 1], behave) + EventsOf(sources[|sources| - 1], behave(sources[|sources| - 1]))
  }

  /** Only a failing gate check or the failure of a critical source ends the run. */
  function Halts(s: Source, b: Behaviour): Outcome {
    if b.gate.GateError? then Stopped(GateFailed(s.name))
    else if b.gate.Go? && !b.succeeds && s.critical then Stopped(CriticalFailed(s.name))
    else Completed
  }

  /** A turn stops the run exactly on a gate error or the failure of a critical source. The gate is always asked,
      and first; the source starts, once, exactly if the gate says go, and then its success or failure is recorded,
      last. */
  method RunOne(s: Source, b: Behaviour) returns (outcome: Outcome, log: seq<Event>)
    ensures outcome.Stopped? <==> b.gate.GateError? || (b.gate.Go? && !b.succeeds && s.critical)
    ensures outcome == Stopped(GateFailed(s.name)) <==> b.gate.GateError?
    ensures log != [] && log[0] == Asked(s.name)
    ensures Started(s) in log <==> b.gate.Go?
    ensures forall i, j :: 0 <= i < j < |log| ==> log[i] != log[j]
    ensures forall success :: Recorded(s.name, success) in log <==> b.gate.Go? && success == b.succeeds
    ensures b.gate.Go? ==> log[|log| - 1] == Recorded(s.name, b.succeeds)
    ensures outcome == Halts(s, b) && log == EventsOf(s, b)
  {
    log := [Asked(s.name)];
    if b.gate.GateError? {
      return Stopped(GateFailed(s.name)), log;
    }
    if b.gate.Skip? {
      return Completed, log;
    }
    log := log + [Started(s)];
    if !b.succeeds {
      log := log + [Recorded(s.name, false)];
      if s.critical {
        return Stopped(CriticalFailed(s.name)), log;
      }
      return Completed, log;
    }
    log := log + [Recorded(s.name, true)];
    return Completed, log;
  }

  /** Runs sources in order; turn is the number of sources whose turn came. */
  method Run(wired: bool, sources: seq<Source>, behave: Source -> Behaviour, cancelled: nat -> bool)
    returns (outcome: Outcome, log: seq<Event>, turn: nat)
    ensures outcome.Completed? <==>
            wired && forall i :: 0 <= i < |sources| ==>
              !cancelled(i) && Halts(sources[i], behave(sources[i])).Completed?
    ensures turn <= |sources| && log == Trace(sources[..turn], behave)
    ensures outcome.Completed? ==> turn == |sources|
    ensures (!wired ==> turn == 0 && outcome == Stopped(NotWired)) && forall i :: 0 <= i < turn ==> !cancelled(i)
    ensures forall i :: 0 <= i < turn - 1 ==> Halts(sources[i], behave(sources[i])).Completed?
    ensures outcome.Stopped? && wired ==>
              || (turn < |sources| && cancelled(turn) && outcome.error == Cancelled)
              || (0 < turn && outcome == Halts(sources[turn - 1], behave(sources[turn - 1])))
  {
    log, turn := [], 0;
    if !wired {
      return Stopped(NotWired), log, turn;
    }
    while turn < |sources|
      invariant turn <= |sources| && log == Trace(sources[..turn], behave)
      invariant forall i :: 0 <= i < turn ==> !cancelled(i) && Halts(sources[i], behave(sources[i])).Completed?
    {
      if cancelled(turn) {
        return Stopped(Cancelled), log, turn;
      }
      var o, events := RunOne(sources[turn], behave(sources[turn]));
      assert sources[..turn + 1][..turn] == sources[..turn];
      log, turn := log + events, turn + 1;
      if o.Stopped? {
        return o, log, turn;
      }
    }
    return Completed, log, turn;
  }

  lemma {:induction false} TraceHasAsked(sources: seq<Source>, behave: Source -> Behaviour, name: string)
    requires name in Names(sources)
    ensures Asked(name) in Trace(sources, behave)
  {
    var init, last := sources[..|sources| - 1], sources[|sources| - 1];
    if name in Names(init) {
      TraceHasAsked(init, behave, name);
    } else {
      assert EventsOf(last, behave(last))[0] == Asked(name);
    }
  }

  /** On a list sorted by dependencies, a source starts only after every dependency had its turn. */
  lemma {:induction false} StartsAfterDependencies(sources: seq<Source>, behave: Source -> Behaviour, k: nat)
    requires DependenciesFirst(sources)
    requires k < |Trace(sources, behave)| && Trace(sources, behave)[k].Started?
    ensures forall dep :: dep in Trace(sources, behave)[k].source.deps ==> Asked(dep) in Trace(sources, behave)[..k]
  {
    var n := |sources|;
    var init, last := sources[..n - 1], sources[n - 1];
    var before := Trace(init, behave);
    var all := Trace(sources, behave);
    if k < |before| {
      forall i, dep | 0 <= i < |init| && dep in init[i].deps
        ensures dep in Names(init[..i])
      {
        assert init[..i] == sources[..i];
        assert sources[i] == init[i];
      }
      StartsAfterDependencies(init, behave, k);
      assert before[..k] == all[..k];
    } else {
      assert all[k] == EventsOf(last, behave(last))[k - |before|];
      forall dep | dep in last.deps
        ensures Asked(dep) in all[..k]
      {
        TraceHasAsked(init, behave, dep);
        assert before == all[..k][..|before|];
      }
    }
  }
}
