/** The migration runner (go-core/migrator/runner.go). Runs stop, fail or crash anywhere; a crash is a process
    that ends, its open transaction rolled back and its advisory lock gone with its session. What a script
    does to the schema is left to a parameter exec, which may refuse. */
module Migrator {
  import opened Decimal
  import opened MigrationFiles

  const MAX_INT4 := 0x7fff_ffff

  /** log is no table: it lists the committed transactions, oldest first. */
  datatype Db<S> = Db(state: S, applied: map<nat, string>, log: seq<Migration>)

  /** A process that holds its lock: before loading, in the loop, or after an error. */
  datatype Process =
    | Locked(lockId: int)
    | Working(lockId: int, migs: seq<Migration>, snapshot: set<nat>, next: nat)
    | Failed(lockId: int)

  datatype World<S> = World(db: Db<S>, procs: map<nat, Process>)

  datatype Event =
    | Lock(p: nat, lockId: int)
    | Load(p: nat, migs: seq<Migration>)
    | Skip(p: nat)
    | Apply(p: nat, committed: bool, reported: bool) // committed without being reported: the answer to COMMIT is lost
    | End(p: nat)

  /** The script runs and the version fits the table's INT column. */
  ghost predicate CanCommit<S>(exec: (S, string) -> Option<S>, db: Db<S>, m: Migration) {
    exec(db.state, m.sql).Some? && m.version <= MAX_INT4
  }

  ghost function Committed<S>(exec: (S, string) -> Option<S>, db: Db<S>, m: Migration): Db<S>
    requires CanCommit(exec, db, m)
  {
    Db(exec(db.state, m.sql).value,
       if m.version in db.applied then db.applied else db.applied[m.version := m.filename],
       db.log + [m])
  }

  ghost predicate Turn(procs: map<nat, Process>, p: nat) {
    p in procs && procs[p].Working? && procs[p].next < |procs[p].migs|
  }

  ghost predicate Enabled<S>(exec: (S, string) -> Option<S>, w: World<S>, e: Event) {
    match e
    case Lock(p, lockId) => p !in w.procs && forall q :: q in w.procs ==> w.procs[q].lockId != lockId
    case Load(p, migs) => p in w.procs && w.procs[p].Locked? && Rising(migs)
    case Skip(p) => Turn(w.procs, p) && w.procs[p].migs[w.procs[p].next].version in w.procs[p].snapshot
    case Apply(p, committed, reported) =>
      && Turn(w.procs, p) && w.procs[p].migs[w.procs[p].next].version !in w.procs[p].snapshot
      && (committed ==> CanCommit(exec, w.db, w.procs[p].migs[w.procs[p].next]))
      && (reported ==> committed)
    case End(p) => p in w.procs
  }

  ghost function After<S>(exec: (S, string) -> Option<S>, w: World<S>, e: Event): World<S>
    requires Enabled(exec, w, e)
  {
    match e
    case Lock(p, lockId) => w.(procs := w.procs[p := Locked(lockId)])
    case Load(p, migs) => w.(procs := w.procs[p := Working(w.procs[p].lockId, migs, w.db.applied.Keys, 0)])
    case Skip(p) => w.(procs := w.procs[p := w.procs[p].(next := w.procs[p].next + 1)])
    case Apply(p, committed, reported) =>
      var proc := w.procs[p];
      World(if committed then Committed(exec, w.db, proc.migs[proc.next]) else w.db,
            w.procs[p := if reported then proc.(next := proc.next + 1) else Failed(proc.lockId)])
    case End(p) => w.(procs := w.procs - {p})
  }

  /** Where events lead from w; None if one was not possible. */
  ghost function Run<S>(exec: (S, string) -> Option<S>, w: World<S>, es: seq<Event>): Option<World<S>> {
    if es == [] then Some(w)
    else
      match Run(exec, w, es[..|es| - 1])
      case None => None
      case Some(v) => if Enabled(exec, v, es[|es| - 1]) then Some(After(exec, v, es[|es| - 1])) else None
  }

  ghost function Fresh<S>(state: S): World<S> {
    World(Db(state, map[], []), map[])
  }

  /** The scripts run one after the other. */
  ghost function Fold<S>(exec: (S, string) -> Option<S>, state: S, migs: seq<Migration>): Option<S> {
    if migs == [] then Some(state)
    else
      match Fold(exec, state, migs[..|migs| - 1])
      case None => None
      case Some(s) => exec(s, migs[|migs| - 1].sql)
  }

  ghost function Versions(migs: seq<Migration>): set<nat> {
    set i | 0 <= i < |migs| :: migs[i].version
  }

  // ----- With any files -----

  /** All processes compute the same lock ID: their DSNs are spelled alike. */
  ghost predicate SameLock(es: seq<Event>, lockId: int) {
    forall i :: 0 <= i < |es| && es[i].Lock? ==> es[i].lockId == lockId
  }

  ghost predicate SnapshotFits<S>(db: Db<S>, proc: Process) {
    proc.Working? ==>
      && Rising(proc.migs) && proc.next <= |proc.migs|
      && forall v :: v in db.applied ==> v in proc.snapshot || v in Versions(proc.migs[..proc.next])
  }

  ghost predicate Recorded<S>(exec: (S, string) -> Option<S>, start: S, db: Db<S>) {
    && DistinctVersions(db.log) && db.applied.Keys == Versions(db.log)
    && (forall i :: 0 <= i < |db.log| ==>
          db.log[i].version in db.applied && db.applied[db.log[i].version] == db.log[i].filename)
    && Fold(exec, start, db.log) == Some(db.state)
  }

  ghost predicate Alone<S>(w: World<S>, lockId: int) {
    && (forall p :: p in w.procs ==> w.procs[p].lockId == lockId)
    && (forall p, q :: p in w.procs && q in w.procs ==> p == q)
  }

  ghost predicate Inv<S>(exec: (S, string) -> Option<S>, start: S, lockId: int, w: World<S>) {
    && Alone(w, lockId) && Recorded(exec, start, w.db)
    && forall p :: p in w.procs ==> SnapshotFits(w.db, w.procs[p])
  }

  lemma VersionsAppend(migs: seq<Migration>, m: Migration)
    ensures Versions(migs + [m]) == Versions(migs) + {m.version}
  {
    forall v | v in Versions(migs) + {m.version}
      ensures v in Versions(migs + [m])
    {
      if v == m.version {
        assert (migs + [m])[|migs|].version == v;
      } else {
        var i :| 0 <= i < |migs| && migs[i].version == v;
        assert (migs + [m])[i].version == v;
      }
    }
  }

  lemma NextIsNew<S>(db: Db<S>, proc: Process)
    requires SnapshotFits(db, proc) && proc.Working? && proc.next < |proc.migs|
    requires proc.migs[proc.next].version !in proc.snapshot
    ensures proc.migs[proc.next].version !in db.applied
  {
  }

  lemma CommitRecords<S>(exec: (S, string) -> Option<S>, start: S, db: Db<S>, m: Migration)
    requires Recorded(exec, start, db) && CanCommit(exec, db, m) && m.version !in db.applied
    ensures Recorded(exec, start, Committed(exec, db, m))
  {
    VersionsAppend(db.log, m);
    assert (db.log + [m])[..|db.log|] == db.log;
    forall i | 0 <= i < |db.log|
      ensures db.log[i].version != m.version
    {
      assert db.log[i].version in Versions(db.log);
    }
  }

  lemma NextFits<S>(db: Db<S>, db': Db<S>, proc: Process)
    requires SnapshotFits(db, proc) && proc.Working? && proc.next < |proc.migs|
    requires db'.applied.Keys <= db.applied.Keys + {proc.migs[proc.next].version}
    ensures SnapshotFits(db', proc.(next := proc.next + 1))
  {
    assert proc.migs[..proc.next + 1] == proc.migs[..proc.next] + [proc.migs[proc.next]];
    VersionsAppend(proc.migs[..proc.next], proc.migs[proc.next]);
  }

  lemma StepKeepsInv<S>(exec: (S, string) -> Option<S>, start: S, lockId: int, w: World<S>, e: Event)
    requires Inv(exec, start, lockId, w) && Enabled(exec, w, e) && (e.Lock? ==> e.lockId == lockId)
    ensures Inv(exec, start, lockId, After(exec, w, e))
  {
    hide Recorded, Versions;
    match e
    case Lock(p, _) =>
    case Load(p, migs) =>
    case Skip(p) => NextFits(w.db, w.db, w.procs[p]);
    case Apply(p, committed, reported) =>
      var proc := w.procs[p];
      NextIsNew(w.db, proc);
      if committed {
        CommitRecords(exec, start, w.db, proc.migs[proc.next]);
        NextFits(w.db, Committed(exec, w.db, proc.migs[proc.next]), proc);
      }
    case End(p) =>
  }

  lemma {:induction false} RunKeepsInv<S>(exec: (S, string) -> Option<S>, start: S, lockId: int, es: seq<Event>)
    requires Run(exec, Fresh(start), es).Some? && SameLock(es, lockId)
    ensures Inv(exec, start, lockId, Run(exec, Fresh(start), es).value)
  {
    if es != [] {
      RunKeepsInv(exec, start, lockId, es[..|es| - 1]);
      StepKeepsInv(exec, start, lockId, Run(exec, Fresh(start), es[..|es| - 1]).value, es[|es| - 1]);
    }
  }

  /** Whatever files the runs are given, no version is applied twice, the table holds exactly the versions
      that were, and the schema is what their scripts make of the first one, in the order of commits. */
  lemma AtMostOnce<S>(exec: (S, string) -> Option<S>, start: S, lockId: int, es: seq<Event>)
    requires Run(exec, Fresh(start), es).Some? && SameLock(es, lockId)
    ensures Recorded(exec, start, Run(exec, Fresh(start), es).value.db)
  {
    RunKeepsInv(exec, start, lockId, es);
  }

  // ----- With one fixed set of files -----

  ghost predicate SameFiles(es: seq<Event>, files: seq<Migration>) {
    forall i :: 0 <= i < |es| && es[i].Load? ==> es[i].migs == files
  }

  /** Everything before next is committed, and the snapshot holds of the rest just what is. */
  ghost predicate AtPlace(files: seq<Migration>, done: nat, proc: Process) {
    proc.Working? ==>
      && proc.migs == files && proc.next <= done
      && (forall i :: 0 <= i < |files| && proc.next <= i < done ==> files[i].version in proc.snapshot)
      && (forall i :: done <= i < |files| ==> files[i].version !in proc.snapshot)
  }

  ghost predicate PrefixInv<S>(files: seq<Migration>, w: World<S>) {
    && w.db.log <= files
    && forall p :: p in w.procs ==> AtPlace(files, |w.db.log|, w.procs[p])
  }

  lemma LoadedAtPlace(files: seq<Migration>, done: nat, lockId: int, snapshot: set<nat>)
    requires Rising(files) && done <= |files| && snapshot == Versions(files[..done])
    ensures AtPlace(files, done, Working(lockId, files, snapshot, 0))
  {
    forall i | 0 <= i < done
      ensures files[i].version in snapshot
    {
      assert files[..done][i].version in Versions(files[..done]);
    }
    forall i | done <= i < |files|
      ensures files[i].version !in snapshot
    {
      forall j | 0 <= j < done
        ensures files[..done][j].version != files[i].version
      {
        assert files[j].version < files[i].version;
      }
    }
  }

  lemma StepKeepsPrefix<S>(exec: (S, string) -> Option<S>, start: S, lockId: int, files: seq<Migration>, w: World<S>,
      e: Event)
    requires Inv(exec, start, lockId, w) && PrefixInv(files, w) && Enabled(exec, w, e)
    requires e.Load? ==> e.migs == files
    ensures PrefixInv(files, After(exec, w, e))
    ensures |w.db.log| <= |After(exec, w, e).db.log|
  {
    hide Versions, Fold;
    if e.Load? {
      assert files[..|w.db.log|] == w.db.log;
      LoadedAtPlace(files, |w.db.log|, w.procs[e.p].lockId, w.db.applied.Keys);
    } else if e.Skip? || e.Apply? {
      assert AtPlace(files, |w.db.log|, w.procs[e.p]);
    }
  }

  lemma {:induction false} RunKeepsPrefix<S>(exec: (S, string) -> Option<S>, start: S, lockId: int,
      files: seq<Migration>, es: seq<Event>)
    requires Run(exec, Fresh(start), es).Some? && SameLock(es, lockId) && SameFiles(es, files)
    ensures PrefixInv(files, Run(exec, Fresh(start), es).value)
  {
    if es != [] {
      RunKeepsPrefix(exec, start, lockId, files, es[..|es| - 1]);
      RunKeepsInv(exec, start, lockId, es[..|es| - 1]);
      StepKeepsPrefix(exec, start, lockId, files, Run(exec, Fresh(start), es[..|es| - 1]).value, es[|es| - 1]);
    }
  }

  /** After any number of runs over one set of files, the committed migrations are a prefix of the sorted list,
      each applied once, and the schema is the fold of that prefix. */
  lemma PrefixAlways<S>(exec: (S, string) -> Option<S>, start: S, lockId: int, files: seq<Migration>, es: seq<Event>)
    requires Run(exec, Fresh(start), es).Some? && SameLock(es, lockId) && SameFiles(es, files)
    ensures var db := Run(exec, Fresh(start), es).value.db;
            && db.log <= files
            && db.applied.Keys == Versions(db.log)
            && (forall i :: 0 <= i < |db.log| ==>
                  db.log[i].version in db.applied && db.applied[db.log[i].version] == db.log[i].filename)
            && Fold(exec, start, db.log) == Some(db.state)
  {
    RunKeepsPrefix(exec, start, lockId, files, es);
    RunKeepsInv(exec, start, lockId, es);
  }

  /** A run that reaches the end of its list has all of it applied. */
  lemma SuccessMeansAll<S>(exec: (S, string) -> Option<S>, start: S, lockId: int, files: seq<Migration>,
      es: seq<Event>, p: nat)
    requires Run(exec, Fresh(start), es).Some? && SameLock(es, lockId) && SameFiles(es, files)
    requires var w := Run(exec, Fresh(start), es).value;
             p in w.procs && w.procs[p].Working? && w.procs[p].next == |w.procs[p].migs|
    ensures Run(exec, Fresh(start), es).value.db.log == files
  {
    RunKeepsPrefix(exec, start, lockId, files, es);
    var w := Run(exec, Fresh(start), es).value;
    assert AtPlace(files, |w.db.log|, w.procs[p]);
  }

  lemma {:induction false} RunSplits<S>(exec: (S, string) -> Option<S>, w: World<S>, es: seq<Event>, more: seq<Event>)
    ensures Run(exec, w, es + more) ==
              match Run(exec, w, es) { case None => None case Some(v) => Run(exec, v, more) }
  {
    if more == [] {
      assert es + more == es;
    } else {
      RunSplits(exec, w, es, more[..|more| - 1]);
      assert (es + more)[..|es + more| - 1] == es + more[..|more| - 1];
    }
  }

  /** Once all is applied, later runs over the same files change nothing. */
  lemma {:induction false} NothingAfterSuccess<S>(exec: (S, string) -> Option<S>, start: S, lockId: int,
      files: seq<Migration>,
                                                  es: seq<Event>, more: seq<Event>)
    requires Run(exec, Fresh(start), es + more).Some? && SameLock(es + more, lockId) && SameFiles(es + more, files)
    requires Run(exec, Fresh(start), es).Some? && Run(exec, Fresh(start), es).value.db.log == files
    ensures Run(exec, Fresh(start), es + more).value.db == Run(exec, Fresh(start), es).value.db
  {
    if more == [] {
      assert es + more == es;
    } else {
      var shorter := es + more[..|more| - 1];
      var e := more[|more| - 1];
      assert (es + more)[..|es + more| - 1] == shorter;
      assert (es + more)[|es + more| - 1] == e;
      NothingAfterSuccess(exec, start, lockId, files, es, more[..|more| - 1]);
      RunKeepsPrefix(exec, start, lockId, files, es + more);
    }
  }

  // ----- The lock is needed -----

  lemma Extend<S>(exec: (S, string) -> Option<S>, start: World<S>, es: seq<Event>, w: World<S>, e: Event)
    requires Run(exec, start, es) == Some(w) && Enabled(exec, w, e)
    ensures Run(exec, start, es + [e]) == Some(After(exec, w, e))
  {
    assert (es + [e])[..|es|] == es;
  }

  /** Every process computes one of two lock IDs. */
  ghost predicate TwoLocks(es: seq<Event>, a: int, b: int) {
    forall i :: 0 <= i < |es| && es[i].Lock? ==> es[i].lockId == a || es[i].lockId == b
  }

  /** Two DSN spellings of one database give two locks: a migration whose script can run twice then does. */
  lemma TwoLocksApplyTwice<S>(exec: (S, string) -> Option<S>, start: S, m: Migration, a: int,
      b: int) returns (es: seq<Event>)
    requires a != b && m.version <= MAX_INT4
    requires exec(start, m.sql).Some? && exec(exec(start, m.sql).value, m.sql).Some?
    ensures Run(exec, Fresh(start), es).Some? && TwoLocks(es, a, b)
    ensures Run(exec, Fresh(start), es).value.db.log == [m, m]
  {
    es := [];
    var w := Fresh(start);
    var steps := [Lock(1, a), Load(1, [m]), Lock(2, b), Load(2, [m])];
    for i := 0 to 4
      invariant Run(exec, Fresh(start), es) == Some(w) && w.db == Db(start, map[], []) && TwoLocks(es, a, b)
      invariant i == 0 ==> w.procs == map[]
      invariant i == 1 ==> w.procs == map[1 := Locked(a)]
      invariant i == 2 ==> w.procs == map[1 := Working(a, [m], {}, 0)]
      invariant i == 3 ==> w.procs == map[1 := Working(a, [m], {}, 0), 2 := Locked(b)]
      invariant i == 4 ==> w.procs == map[1 := Working(a, [m], {}, 0), 2 := Working(b, [m], {}, 0)]
    {
      assert w.db.applied.Keys == {};
      Extend(exec, Fresh(start), es, w, steps[i]);
      es, w := es + [steps[i]], After(exec, w, steps[i]);
    }
    Extend(exec, Fresh(start), es, w, Apply(1, true, true));
    es, w := es + [Apply(1, true, true)], After(exec, w, Apply(1, true, true));
    Extend(exec, Fresh(start), es, w, Apply(2, true, true));
    es, w := es + [Apply(2, true, true)], After(exec, w, Apply(2, true, true));
  }

  /** With a script that can run twice, no run of processes under two lock IDs applies anything twice exactly if
      these are the same. */
  lemma LocksExcludeExactly<S(!new)>(exec: (S, string) -> Option<S>, start: S, m: Migration, a: int, b: int)
    requires m.version <= MAX_INT4
    requires exec(start, m.sql).Some? && exec(exec(start, m.sql).value, m.sql).Some?
    ensures (forall es :: Run(exec, Fresh(start), es).Some? && TwoLocks(es, a, b) ==>
               Recorded(exec, start, Run(exec, Fresh(start), es).value.db))
            <==> a == b
  {
    if a == b {
      forall es | Run(exec, Fresh(start), es).Some? && TwoLocks(es, a, b)
        ensures Recorded(exec, start, Run(exec, Fresh(start), es).value.db)
      {
        AtMostOnce(exec, start, a, es);
      }
    } else {
      var es := TwoLocksApplyTwice(exec, start, m, a, b);
      var log := Run(exec, Fresh(start), es).value.db.log;
      assert log[0].version == log[1].version;
    }
  }

  // ----- The loop itself -----

  /** The migrations whose versions are not applied yet, in order. */
  ghost function Unapplied(migs: seq<Migration>, applied: set<nat>): seq<Migration> {
    if migs == [] then []
    else
      Unapplied(migs[..|migs| - 1], applied)
        + if migs[|migs| - 1].version in applied then [] else [migs[|migs| - 1]]
  }

  lemma UnappliedNext(migs: seq<Migration>, i: nat, applied: set<nat>)
    requires i < |migs|
    ensures Unapplied(migs[..i + 1], applied) ==
              Unapplied(migs[..i], applied) + if migs[i].version in applied then [] else [migs[i]]
  {
    assert migs[..i + 1][..i] == migs[..i];
  }

  /** What the loop has done after i of its migrations. */
  ghost predicate Advanced<S>(before: Db<S>, migs: seq<Migration>, i: nat, now: Db<S>, pending: nat)
    requires i <= |migs|
  {
    && now.log == before.log + Unapplied(migs[..i], before.applied.Keys) && |now.log| == |before.log| + pending
    && before.applied.Keys <= now.applied.Keys && forall k :: 0 <= k < i ==> migs[k].version in now.applied
  }

  lemma AdvancedNext<S>(before: Db<S>, migs: seq<Migration>, i: nat, now: Db<S>, pending: nat, v: Db<S>, applied: bool)
    requires i < |migs| && Advanced(before, migs, i, now, pending)
    requires applied <==> migs[i].version !in before.applied
    requires applied ==> v.log == now.log + [migs[i]] && v.applied.Keys == now.applied.Keys + {migs[i].version}
    requires !applied ==> v == now
    ensures Advanced(before, migs, i + 1, v, if applied then pending + 1 else pending)
  {
    UnappliedNext(migs, i, before.applied.Keys);
  }

  lemma AdvancedMeans<S>(before: Db<S>, migs: seq<Migration>, i: nat, now: Db<S>, pending: nat)
    requires i <= |migs| && Advanced(before, migs, i, now, pending)
    ensures now.log == before.log + Unapplied(migs[..i], before.applied.Keys) && |now.log| == |before.log| + pending
    ensures forall k :: 0 <= k < i ==> migs[k].version in now.applied
  {
  }

  lemma OneMoreEvent(es: seq<Event>, e: Event, lockId: int, files: seq<Migration>)
    requires SameLock(es, lockId) && SameFiles(es, files) && !e.Lock? && (e.Load? ==> e.migs == files)
    ensures SameLock(es + [e], lockId) && SameFiles(es + [e], files)
  {
  }

  /** The migration is the first that fails: the transaction rolls back, the script or the version is refused, or the
      answer to COMMIT is lost. */
  ghost predicate StopsAt<S>(exec: (S, string) -> Option<S>, before: seq<Migration>, m: Migration, outcome: Outcome,
      log: seq<Migration>, state: S) {
    || (log == before && (outcome == RollsBack || exec(state, m.sql).None? || m.version > 0x7fff_ffff))
    || (log == before + [m] && outcome == CommitsUnreported)
  }

  /** How the database answers one apply: the transaction commits, is rolled back, or commits with the answer lost. */
  datatype Outcome = Commits | RollsBack | CommitsUnreported

  datatype Result = Done(applied: nat) | LoadFailed(error: LoadError) | ApplyFailed(m: Migration)

  ghost function One<S>(db: Db<S>, p: nat, proc: Process): World<S> {
    World(db, map[p := proc])
  }

  lemma ThenLock<S>(exec: (S, string) -> Option<S>, db: Db<S>, p: nat, lockId: int)
    ensures Run(exec, World(db, map[]), [Lock(p, lockId)]) == Some(One(db, p, Locked(lockId)))
  {
    Extend(exec, World(db, map[]), [], World(db, map[]), Lock(p, lockId));
    assert [] + [Lock(p, lockId)] == [Lock(p, lockId)];
  }

  /** One step of the only process. */
  lemma ThenOne<S>(exec: (S, string) -> Option<S>, start: World<S>, es: seq<Event>, db: Db<S>, p: nat, proc: Process,
                   e: Event, db': Db<S>, proc': Process)
    requires Run(exec, start, es) == Some(One(db, p, proc)) && Enabled(exec, One(db, p, proc), e)
    requires After(exec, One(db, p, proc), e) == World(db', map[p := proc][p := proc'])
    ensures Run(exec, start, es + [e]) == Some(One(db', p, proc'))
  {
    Extend(exec, start, es, One(db, p, proc), e);
    assert map[p := proc][p := proc'] == map[p := proc'];
  }

  lemma ThenLoad<S>(exec: (S, string) -> Option<S>, start: World<S>, es: seq<Event>, db: Db<S>, p: nat, lockId: int,
      migs: seq<Migration>)
    requires Run(exec, start, es) == Some(One(db, p, Locked(lockId))) && Rising(migs)
    ensures Run(exec, start, es + [Load(p, migs)]) == Some(One(db, p, Working(lockId, migs, db.applied.Keys, 0)))
  {
    ThenOne(exec, start, es, db, p, Locked(lockId), Load(p, migs), db, Working(lockId, migs, db.applied.Keys, 0));
  }

  lemma ThenSkip<S>(exec: (S, string) -> Option<S>, start: World<S>, es: seq<Event>, db: Db<S>, p: nat, proc: Process)
    requires Run(exec, start, es) == Some(One(db, p, proc)) && proc.Working? && proc.next < |proc.migs|
    requires proc.migs[proc.next].version in proc.snapshot
    ensures Run(exec, start, es + [Skip(p)]) == Some(One(db, p, proc.(next := proc.next + 1)))
  {
    ThenOne(exec, start, es, db, p, proc, Skip(p), db, proc.(next := proc.next + 1));
  }

  lemma ThenApply<S>(exec: (S, string) -> Option<S>, start: World<S>, es: seq<Event>, db: Db<S>, p: nat, proc: Process,
                     committed: bool, reported: bool)
    requires Run(exec, start, es) == Some(One(db, p, proc)) && proc.Working? && proc.next < |proc.migs|
    requires proc.migs[proc.next].version !in proc.snapshot
    requires (committed ==> CanCommit(exec, db, proc.migs[proc.next])) && (reported ==> committed)
    ensures Run(exec, start, es + [Apply(p, committed, reported)]) ==
              Some(One(if committed then Committed(exec, db, proc.migs[proc.next]) else db, p,
                       if reported then proc.(next := proc.next + 1) else Failed(proc.lockId)))
  {
    var e := Event.Apply(p, committed, reported);
    var w := One(db, p, proc);
    assert Enabled(exec, w, e);
    ThenOne(exec, start, es, db, p, proc, e, After(exec, w, e).db,
            if reported then proc.(next := proc.next + 1) else Failed(proc.lockId));
  }

  class Database<S> {
    var state: S
    var applied: map<nat, string>
    ghost var log: seq<Migration>
    const exec: (S, string) -> Option<S>

    constructor (exec: (S, string) -> Option<S>, state: S)
      ensures this.exec == exec && Value() == Db(state, map[], [])
    {
      this.exec, this.state, applied, log := exec, state, map[], [];
    }

    ghost function Value(): Db<S>
      reads this
    {
      Db(state, applied, log)
    }

    /** One transaction: the script, the row, the commit. */
    method Apply(m: Migration, outcome: Outcome) returns (committed: bool, reported: bool)
      modifies this
      ensures reported ==> committed
      ensures committed <==> outcome != RollsBack && CanCommit(exec, old(Value()), m)
      ensures reported <==> committed && outcome == Commits
      ensures applied.Keys == old(applied.Keys) + if committed then {m.version} else {}
      ensures log == old(log) + if committed then [m] else []
      ensures committed ==> exec(old(state), m.sql) == Some(state) && m.version <= 0x7fff_ffff
      ensures !committed ==> state == old(state)
      ensures !reported ==> StopsAt(exec, old(log), m, outcome, log, state)
      ensures forall v :: v in old(applied) ==> v in applied && applied[v] == old(applied)[v]
      ensures committed && m.version !in old(applied) ==> applied[m.version] == m.filename
      ensures Value() == if committed then Committed(exec, old(Value()), m) else old(Value())
    {
      var result := exec(state, m.sql);
      if result.None? || m.version > MAX_INT4 || outcome == RollsBack {
        return false, false;
      }
      state := result.value;
      if m.version !in applied {
        applied := applied[m.version := m.filename];
      }
      log := log + [m];
      return true, outcome == Commits;
    }

    /** Run, with the lock taken: a run of the step protocol from beginning to end. */
    method RunMigrations(entries: seq<DirEntry>, outcomes: nat -> Outcome, ghost p: nat, ghost lockId: int)
      returns (r: Result, ghost files: seq<Migration>, ghost es: seq<Event>)
      modifies this
      ensures Run(exec, World(old(Value()), map[]), es) == Some(World(Value(), map[]))
      ensures SameLock(es, lockId)
      ensures r.LoadFailed? <==> !(AllGood(entries) && DistinctVersions(Found(entries)))
      ensures r.LoadFailed? ==> Value() == old(Value())
      ensures !r.LoadFailed? ==> Rising(files) && multiset(files) == multiset(Found(entries)) && SameFiles(es, files)
      ensures r.Done? ==> forall i :: 0 <= i < |files| ==> files[i].version in applied
      ensures r.Done? ==> |log| == |old(log)| + r.applied
      ensures r.ApplyFailed? ==> r.m in Found(entries)
      ensures r.Done? ==> log == old(log) + Unapplied(files, old(applied.Keys))
      ensures r.ApplyFailed? ==>
                exists i :: 0 <= i < |files| && files[i] == r.m && r.m.version !in old(applied.Keys)
                  && StopsAt(exec, old(log) + Unapplied(files[..i], old(applied.Keys)), r.m, outcomes(i), log, state)
    {
      hide After, Enabled, Run, Committed, CanCommit, AllGood, DistinctVersions, Found, StopsAt, Rising;
      ghost var start := World(Value(), map[]);
      ThenLock(exec, Value(), p, lockId);
      es, files := [Lock(p, lockId)], [];
      var loaded := LoadMigrations(entries);
      if loaded.Err? {
        Ends(exec, start, es, Value(), p, Locked(lockId));
        es := es + [End(p)];
        r := LoadFailed(loaded.error);
        return;
      }
      var migs := loaded.migs;
      files := migs;
      var snapshot := applied.Keys;
      ThenLoad(exec, start, es, Value(), p, lockId, migs);
      es := es + [Load(p, migs)];
      var pending := 0;
      ghost var db := Value();
      assert Advanced(db, migs, 0, db, 0);
      hide Unapplied, SameLock, SameFiles, Advanced;
      for i := 0 to |migs|
        invariant Run(exec, start, es) == Some(One(Value(), p, Working(lockId, migs, snapshot, i)))
        invariant SameLock(es, lockId) && SameFiles(es, migs)
        invariant Advanced(db, migs, i, Value(), pending)
      {
        ghost var proc := Working(lockId, migs, snapshot, i);
        ghost var before := Value();
        AdvancedMeans(db, migs, i, before, pending);
        if migs[i].version in snapshot {
          AdvancedNext(db, migs, i, before, pending, before, false);
          ThenSkip(exec, start, es, before, p, proc);
          OneMoreEvent(es, Skip(p), lockId, migs);
          es := es + [Skip(p)];
        } else {
          var committed, reported := Apply(migs[i], outcomes(i));
          ThenApply(exec, start, es, before, p, proc, committed, reported);
          OneMoreEvent(es, Event.Apply(p, committed, reported), lockId, migs);
          es := es + [Event.Apply(p, committed, reported)];
          if !reported {
            Ends(exec, start, es, Value(), p, Failed(lockId));
            OneMoreEvent(es, End(p), lockId, migs);
            es := es + [End(p)];
            assert migs[i] in multiset(migs);
            r := ApplyFailed(migs[i]);
            return;
          }
          AdvancedNext(db, migs, i, before, pending, Value(), true);
          pending := pending + 1;
        }
      }
      assert migs[..|migs|] == migs;
      AdvancedMeans(db, migs, |migs|, Value(), pending);
      Ends(exec, start, es, Value(), p, Working(lockId, migs, snapshot, |migs|));
      OneMoreEvent(es, End(p), lockId, migs);
      es := es + [End(p)];
      r := Done(pending);
    }
  }

  lemma Ends<S>(exec: (S, string) -> Option<S>, start: World<S>, es: seq<Event>, db: Db<S>, p: nat, proc: Process)
    requires Run(exec, start, es) == Some(One(db, p, proc))
    ensures Run(exec, start, es + [End(p)]) == Some(World(db, map[]))
  {
    Extend(exec, start, es, One(db, p, proc), End(p));
    assert map[p := proc] - {p} == map[];
  }
}
