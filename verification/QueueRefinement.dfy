/** Used without crashes or claims and with synchronous retries, the Redis-streams queue behaves as the
    in-memory queue does: the same calls leave the same pending order, tasks in flight, retry counts and DLQ.
    IDs differ; callers only hand back tasks they got, so a call names a task by when it was popped. */
module QueueRefinement {
  import opened Decimal
  import opened QueueTypes
  import opened MessageCodec
  import opened RedisStreams
  import M = InMemQueue

  /** Ack and Retry name the task that came as number h out of all pops; it need not be in flight any more. */
  datatype Call<P> = Publish(msg: Message<P>) | Pop(n: nat) | Ack(h: nat) | Retry(h: nat, reason: string)

  datatype MemSide<P> = MemSide(q: M.Mem<P>, taken: seq<Task<P>>)

  datatype RedisSide<P(==)> = RedisSide(db: Redis<P>, got: seq<Task<P>>)

  ghost function MemAfter<P>(maxRetries: int, m: MemSide<P>, c: Call<P>): Option<MemSide<P>> {
    match c
    case Publish(msg) => Some(m.(q := M.Published(m.q, msg)))
    case Pop(n) =>
      if n == 0 then None
      else
        var k := if n > |m.q.pending| then |m.q.pending| else n;
        Some(MemSide(M.Popped(m.q, k), m.taken + m.q.pending[..k]))
    case Ack(h) => if h < |m.taken| then Some(m.(q := M.Acked(m.q, m.taken[h].id))) else None
    case Retry(h, _) => if h < |m.taken| then Some(m.(q := M.Retried(maxRetries, m.q, m.taken[h]))) else None
  }

  ghost function RedisAfter<P>(cfg: Config<P>, r: RedisSide<P>, c: Call<P>): Option<RedisSide<P>> {
    match c
    case Publish(msg) => Some(r.(db := XAdd(r.db, Encoded(msg.payload, 0, msg.headers))))
    case Pop(n) =>
      if n == 0 then None
      else
        var ids := Take(Undelivered(r.db), n);
        var entries := EntriesOf(r.db, ids);
        Some(RedisSide(SiftedOf(cfg, XReadNew(r.db, ids, cfg.consumer), entries), r.got + TasksOf(entries)))
    case Ack(h) => if h < |r.got| then Some(r.(db := AckOf(cfg, r.db, r.got[h].id))) else None
    case Retry(h, reason) => if h < |r.got| then Some(r.(db := RetriedOf(cfg, r.db, r.got[h], reason, 0))) else None
  }

  ghost function MemRun<P>(maxRetries: int, calls: seq<Call<P>>): Option<MemSide<P>> {
    if calls == [] then Some(MemSide(M.EmptyMem(), []))
    else
      match MemRun(maxRetries, calls[..|calls| - 1])
      case None => None
      case Some(m) => MemAfter(maxRetries, m, calls[|calls| - 1])
  }

  /** The queue is built on a server whose stream may already hold old entries. */
  ghost function RedisRun<P>(cfg: Config<P>, start: Redis<P>, calls: seq<Call<P>>): Option<RedisSide<P>> {
    if calls == [] then Some(RedisSide(XGroupCreate(start), []))
    else
      match RedisRun(cfg, start, calls[..|calls| - 1])
      case None => None
      case Some(r) => RedisAfter(cfg, r, calls[|calls| - 1])
  }

  ghost predicate Unused<P>(start: Redis<P>) {
    && !start.grouped && start.pel == map[] && start.dlq == map[] && start.dlqLastId == 0
    && forall id :: id in start.stream ==> id <= start.lastId
  }

  // ----- The relation between the two -----

  /** The fields decode to the task, whatever ID they are stored under. */
  ghost predicate Stores<P>(fields: Fields<P>, t: Task<P>) {
    Decode(t.id, fields) == Ok(t)
  }

  ghost predicate SamePending<P>(pending: seq<Task<P>>, db: Redis<P>) {
    var ids := Undelivered(db);
    |pending| == |ids| && forall i :: 0 <= i < |ids| ==> Stores(db.stream[ids[i]], pending[i])
  }

  ghost predicate SameTaken<P>(taken: seq<Task<P>>, got: seq<Task<P>>) {
    |taken| == |got| && forall i :: 0 <= i < |got| ==> taken[i] == got[i].(id := taken[i].id)
  }

  ghost predicate Taken<P>(ts: seq<Task<P>>, id: nat) {
    exists i :: 0 <= i < |ts| && ts[i].id == id
  }

  /** What is pending is still stored. */
  ghost predicate Kept<P>(db: Redis<P>, got: seq<Task<P>>) {
    forall i :: 0 <= i < |got| && got[i].id in db.pel ==> got[i].id in db.stream && Stores(db.stream[got[i].id], got[i])
  }

  /** A task under its two IDs. */
  ghost predicate FlightAt<P>(inFlight: map<nat, Task<P>>, t: Task<P>, pel: map<nat, string>, g: Task<P>) {
    (t.id in inFlight <==> g.id in pel) && (t.id in inFlight ==> inFlight[t.id] == t)
  }

  ghost predicate SameFlight<P>(inFlight: map<nat, Task<P>>, taken: seq<Task<P>>, pel: map<nat, string>,
      got: seq<Task<P>>)
    requires |taken| == |got|
  {
    && (forall i :: 0 <= i < |got| ==> FlightAt(inFlight, taken[i], pel, got[i]))
    && (forall id :: id in inFlight ==> Taken(taken, id))
    && (forall id :: id in pel ==> Taken(got, id))
  }

  ghost predicate SameDead<P>(dead: seq<Task<P>>, db: Redis<P>) {
    && db.dlqLastId == |dead|
    && (forall k :: k in db.dlq <==> 1 <= k <= |dead|)
    && (forall k :: 0 <= k < |dead| ==> Stores(db.dlq[k + 1], dead[k]))
  }

  /** Same pending order, same tasks in flight, same DLQ, and the same tasks handed out so far; payloads,
      headers and retry counts are equal throughout. */
  ghost predicate Same<P>(m: MemSide<P>, r: RedisSide<P>) {
    && SamePending(m.q.pending, r.db)
    && SameTaken(m.taken, r.got)
    && SameFlight(m.q.inFlight, m.taken, r.db.pel, r.got)
    && Kept(r.db, r.got)
    && SameDead(m.q.dlq, r.db)
  }

  ghost predicate Rising<P>(ts: seq<Task<P>>) {
    forall i, j :: 0 <= i < j < |ts| ==> ts[i].id < ts[j].id
  }

  ghost predicate MemIds<P>(m: MemSide<P>) {
    && Rising(m.taken + m.q.pending)
    && forall i :: 0 <= i < |m.taken + m.q.pending| ==> 0 < (m.taken + m.q.pending)[i].id <= m.q.seqNo
  }

  ghost predicate RedisIds<P>(r: RedisSide<P>) {
    && Rising(r.got)
    && (forall i :: 0 <= i < |r.got| ==> 0 < r.got[i].id <= r.db.delivered)
    && r.db.delivered <= r.db.lastId
    && (forall id :: id in r.db.stream ==> id <= r.db.lastId)
  }

  ghost predicate Related<P>(m: MemSide<P>, r: RedisSide<P>) {
    MemIds(m) && RedisIds(r) && Same(m, r)
  }

  // ----- What is left to deliver -----

  lemma {:induction false} IdsInSame(keys: set<nat>, others: set<nat>, lo: nat, hi: nat)
    requires forall id :: lo < id <= hi ==> (id in keys <==> id in others)
    ensures IdsIn(keys, lo, hi) == IdsIn(others, lo, hi)
  {
    if hi > lo {
      IdsInSame(keys, others, lo, hi - 1);
    }
  }

  lemma {:induction false} IdsInAbove(keys: set<nat>, lo: nat, hi: nat, n: nat)
    requires 0 < n <= |IdsIn(keys, lo, hi)|
    ensures IdsIn(keys, IdsIn(keys, lo, hi)[n - 1], hi) == IdsIn(keys, lo, hi)[n..]
  {
    var ids := IdsIn(keys, lo, hi);
    var init := IdsIn(keys, lo, hi - 1);
    if n <= |init| {
      IdsInAbove(keys, lo, hi - 1, n);
      assert ids[n - 1] == init[n - 1];
      assert ids[n..] == init[n..] + ids[|init|..];
    } else {
      assert ids[n - 1] == hi;
    }
  }

  lemma UndeliveredAfterAdd<P>(db: Redis<P>, fields: Fields<P>)
    requires db.delivered <= db.lastId
    ensures Undelivered(XAdd(db, fields)) == Undelivered(db) + [db.lastId + 1]
  {
    IdsInSame(XAdd(db, fields).stream.Keys, db.stream.Keys, db.delivered, db.lastId);
  }

  lemma UndeliveredAfterRead<P>(db: Redis<P>, n: nat, consumer: string)
    requires n <= |Undelivered(db)|
    ensures Undelivered(XReadNew(db, Undelivered(db)[..n], consumer)) == Undelivered(db)[n..]
  {
    if n > 0 {
      IdsInAbove(db.stream.Keys, db.delivered, db.lastId, n);
    }
  }

  lemma UndeliveredAfterDel<P>(db: Redis<P>, db': Redis<P>, id: nat)
    requires id <= db.delivered && db'.delivered == db.delivered && db'.lastId == db.lastId
    requires db'.stream == db.stream || db'.stream == db.stream - {id}
    ensures Undelivered(db') == Undelivered(db)
  {
    IdsInSame(db'.stream.Keys, db.stream.Keys, db.delivered, db.lastId);
  }

  // ----- Adding an entry -----

  lemma AddIds<P>(m: MemSide<P>, t: Task<P>)
    requires MemIds(m) && t.id == m.q.seqNo + 1
    ensures MemIds(m.(q := m.q.(pending := m.q.pending + [t], seqNo := t.id)))
  {
    var all := m.taken + m.q.pending;
    assert m.taken + (m.q.pending + [t]) == all + [t];
    forall i, j | 0 <= i < j < |all + [t]|
      ensures (all + [t])[i].id < (all + [t])[j].id
    {
      if j < |all| {
        assert all[i].id < all[j].id;
      } else {
        assert all[i].id <= m.q.seqNo;
      }
    }
  }

  lemma AddPending<P>(pending: seq<Task<P>>, db: Redis<P>, t: Task<P>, fields: Fields<P>)
    requires SamePending(pending, db) && Stores(fields, t) && db.delivered <= db.lastId
    requires forall id :: id in db.stream ==> id <= db.lastId
    ensures SamePending(pending + [t], XAdd(db, fields))
  {
    UndeliveredAfterAdd(db, fields);
    var ids := Undelivered(db);
    forall i | 0 <= i < |ids|
      ensures ids[i] in db.stream && XAdd(db, fields).stream[ids[i]] == db.stream[ids[i]]
    {
    }
  }

  lemma KeptStays<P>(db: Redis<P>, db': Redis<P>, got: seq<Task<P>>)
    requires Kept(db, got)
    requires forall id :: id in db'.pel ==> id in db.pel
    requires forall id :: id in db'.pel && id in db.stream ==> id in db'.stream && db'.stream[id] == db.stream[id]
    ensures Kept(db', got)
  {
  }

  lemma AddRelated<P>(m: MemSide<P>, r: RedisSide<P>, t: Task<P>, fields: Fields<P>)
    requires Related(m, r) && t.id == m.q.seqNo + 1 && Stores(fields, t)
    ensures Related(m.(q := m.q.(pending := m.q.pending + [t], seqNo := t.id)), r.(db := XAdd(r.db, fields)))
  {
    hide Stores;
    AddIds(m, t);
    AddPending(m.q.pending, r.db, t, fields);
    KeptStays(r.db, XAdd(r.db, fields), r.got);
  }

  // ----- Taking a task out of flight -----

  /** Removing a popped task's pending entry, and possibly its stream entry too. */
  lemma OutRelated<P>(m: MemSide<P>, r: RedisSide<P>, h: nat, db': Redis<P>)
    requires Related(m, r) && h < |m.taken|
    requires db' == XAck(r.db, r.got[h].id) || db' == XDel(XAck(r.db, r.got[h].id), r.got[h].id)
    ensures Related(m.(q := M.Acked(m.q, m.taken[h].id)), r.(db := db'))
  {
    hide Stores, FlightAt, Taken, SameFlight, Kept, SameDead;
    DeadStays(m.q.dlq, r.db, db');
    UndeliveredAfterDel(r.db, db', r.got[h].id);
    RisingPart(m.taken, m.q.pending);
    OutFlight(m.q.inFlight, m.taken, r.db.pel, r.got, h, m.taken[h].id, r.got[h].id);
    KeptStays(r.db, db', r.got);
  }

  lemma RisingPart<P>(a: seq<Task<P>>, b: seq<Task<P>>)
    requires Rising(a + b)
    ensures Rising(a)
  {
    assert forall i :: 0 <= i < |a| ==> (a + b)[i] == a[i];
  }

  lemma RisingDistinct<P>(ts: seq<Task<P>>, i: nat, h: nat)
    requires Rising(ts) && i < |ts| && h < |ts| && i != h
    ensures ts[i].id != ts[h].id
  {
    if i < h {
      assert ts[i].id < ts[h].id;
    } else {
      assert ts[h].id < ts[i].id;
    }
  }

  lemma OutAt<P>(inFlight: map<nat, Task<P>>, t: Task<P>, pel: map<nat, string>, g: Task<P>, a: nat, b: nat)
    requires FlightAt(inFlight, t, pel, g) && (t.id == a <==> g.id == b)
    ensures FlightAt(inFlight - {a}, t, pel - {b}, g)
  {
  }

  lemma OutFlight<P>(inFlight: map<nat, Task<P>>, taken: seq<Task<P>>, pel: map<nat, string>, got: seq<Task<P>>,
      h: nat, a: nat, b: nat)
    requires |taken| == |got| && h < |got| && Rising(taken) && Rising(got) && a == taken[h].id && b == got[h].id
    requires SameFlight(inFlight, taken, pel, got)
    ensures SameFlight(inFlight - {a}, taken, pel - {b}, got)
  {
    var f, p := inFlight - {a}, pel - {b};
    forall i | 0 <= i < |got|
      ensures FlightAt(f, taken[i], p, got[i])
    {
      if i != h {
        RisingDistinct(taken, i, h);
        RisingDistinct(got, i, h);
      }
      OutAt(inFlight, taken[i], pel, got[i], a, b);
    }
  }

  lemma DeadStays<P>(dead: seq<Task<P>>, db: Redis<P>, db': Redis<P>)
    requires SameDead(dead, db) && db'.dlq == db.dlq && db'.dlqLastId == db.dlqLastId
    ensures SameDead(dead, db')
  {
  }

  lemma DeadRelated<P>(m: MemSide<P>, r: RedisSide<P>, u: Task<P>, fields: Fields<P>)
    requires Related(m, r) && Stores(fields, u)
    ensures Related(m.(q := m.q.(dlq := m.q.dlq + [u])), r.(db := XAddDlq(r.db, fields)))
  {
    hide Stores;
    assert Undelivered(XAddDlq(r.db, fields)) == Undelivered(r.db);
  }

  // ----- Popping -----

  lemma TakenSnoc<P>(init: seq<Task<P>>, last: Task<P>, id: nat)
    ensures Taken(init + [last], id) <==> Taken(init, id) || id == last.id
  {
    var ts := init + [last];
    if Taken(init, id) {
      var i :| 0 <= i < |init| && init[i].id == id;
      assert ts[i].id == id;
    }
    assert ts[|init|] == last;
  }

  lemma {:induction false} WithTasksKeeps<P>(inFlight: map<nat, Task<P>>, ts: seq<Task<P>>)
    requires Rising(ts)
    ensures forall i :: 0 <= i < |ts| ==>
        ts[i].id in M.WithTasks(inFlight, ts) && M.WithTasks(inFlight, ts)[ts[i].id] == ts[i]
    ensures forall id :: id in M.WithTasks(inFlight, ts) <==> id in inFlight || Taken(ts, id)
    ensures forall id :: id in inFlight && !Taken(ts, id) ==> M.WithTasks(inFlight, ts)[id] == inFlight[id]
  {
    hide Taken;
    if ts == [] {
      NoneTaken<P>();
    } else {
      var init, last := ts[..|ts| - 1], ts[|ts| - 1];
      assert ts == init + [last];
      WithTasksKeeps(inFlight, init);
      forall id
        ensures Taken(ts, id) <==> Taken(init, id) || id == last.id
      {
        TakenSnoc(init, last, id);
      }
      forall i | 0 <= i < |init|
        ensures ts[i] == init[i] && ts[i].id != last.id
      {
      }
    }
  }

  lemma NoneTaken<P>()
    ensures forall id :: !Taken<P>([], id)
  {
  }

  lemma PoppedTasks<P>(cfg: Config<P>, db: Redis<P>, pending: seq<Task<P>>, n: nat)
    requires SamePending(pending, db) && n <= |pending|
    ensures var ids := Undelivered(db)[..n];
            var ts := TasksOf(EntriesOf(db, ids));
            && SiftedOf(cfg, XReadNew(db, ids, cfg.consumer), EntriesOf(db, ids)) == XReadNew(db, ids, cfg.consumer)
            && |ts| == n
            && forall i :: 0 <= i < n ==>
              ts[i].id == ids[i] && pending[i] == ts[i].(id := pending[i].id) && Stores(db.stream[ids[i]], ts[i])
  {
    var ids := Undelivered(db)[..n];
    var entries := EntriesOf(db, ids);
    forall i | 0 <= i < n
      ensures Decode(entries[i].id, entries[i].fields) == Ok(pending[i].(id := ids[i]))
    {
      assert Stores(db.stream[Undelivered(db)[i]], pending[i]);
    }
    CleanBatch(cfg, XReadNew(db, ids, cfg.consumer), entries);
  }

  /** Two lists of tasks popped together, the second under its stream IDs. */
  lemma PopFlight<P>(inFlight: map<nat, Task<P>>, taken: seq<Task<P>>, pel: map<nat, string>, got: seq<Task<P>>,
                     ts: seq<Task<P>>, us: seq<Task<P>>, pel': map<nat, string>)
    requires |taken| == |got| && SameFlight(inFlight, taken, pel, got) && |ts| == |us|
    requires Rising(taken + ts) && Rising(got + us)
    requires forall id :: id in pel' <==> id in pel || Taken(us, id)
    ensures SameFlight(M.WithTasks(inFlight, ts), taken + ts, pel', got + us)
  {
    var after := M.WithTasks(inFlight, ts);
    var all, alls := taken + ts, got + us;
    assert Rising(ts) by {
      assert forall i :: 0 <= i < |ts| ==> all[|taken| + i] == ts[i];
    }
    WithTasksKeeps(inFlight, ts);
    TakenIn(taken, ts);
    TakenIn(got, us);
    forall i | 0 <= i < |alls|
      ensures FlightAt(after, all[i], pel', alls[i])
    {
      if i < |taken| {
        assert FlightAt(inFlight, taken[i], pel, got[i]);
        assert all[i] == taken[i] && alls[i] == got[i];
      } else {
        assert all[i] == ts[i - |taken|] && alls[i] == us[i - |got|];
        assert Taken(us, alls[i].id) && Taken(ts, all[i].id);
      }
    }
  }

  /** Later tasks have IDs of their own. */
  lemma TakenIn<P>(a: seq<Task<P>>, b: seq<Task<P>>)
    requires Rising(a + b)
    ensures forall id :: Taken(a + b, id) <==> Taken(a, id) || Taken(b, id)
    ensures forall i :: 0 <= i < |a| ==> !Taken(b, a[i].id)
  {
    forall id
      ensures Taken(a + b, id) <==> Taken(a, id) || Taken(b, id)
    {
      if Taken(a, id) {
        var i :| 0 <= i < |a| && a[i].id == id;
        assert (a + b)[i].id == id;
      }
      if Taken(b, id) {
        var i :| 0 <= i < |b| && b[i].id == id;
        assert (a + b)[|a| + i].id == id;
      }
      if Taken(a + b, id) {
        var i :| 0 <= i < |a + b| && (a + b)[i].id == id;
        assert i < |a| ==> a[i].id == id;
        assert i >= |a| ==> b[i - |a|].id == id;
      }
    }
    forall i | 0 <= i < |a|
      ensures !Taken(b, a[i].id)
    {
      forall j | 0 <= j < |b|
        ensures b[j].id != a[i].id
      {
        assert (a + b)[i].id < (a + b)[|a| + j].id;
      }
    }
  }

  lemma PopIds<P>(r: RedisSide<P>, n: nat, us: seq<Task<P>>, consumer: string)
    requires RedisIds(r) && n <= |Undelivered(r.db)| && |us| == n
    requires forall i :: 0 <= i < n ==> us[i].id == Undelivered(r.db)[i]
    ensures RedisIds(RedisSide(XReadNew(r.db, Undelivered(r.db)[..n], consumer), r.got + us))
    ensures forall id :: id in XReadNew(r.db, Undelivered(r.db)[..n], consumer).pel <==> id in r.db.pel || Taken(us, id)
  {
    var ids := Undelivered(r.db)[..n];
    forall id
      ensures id in ids <==> Taken(us, id)
    {
      if id in ids {
        var i :| 0 <= i < n && ids[i] == id;
        assert us[i].id == id;
      }
      if Taken(us, id) {
        var i :| 0 <= i < n && us[i].id == id;
        assert ids[i] == id;
      }
    }
  }

  lemma PopPendingMatches<P>(pending: seq<Task<P>>, db: Redis<P>, k: nat, consumer: string)
    requires SamePending(pending, db) && k <= |pending|
    ensures SamePending(pending[k..], XReadNew(db, Undelivered(db)[..k], consumer))
  {
    UndeliveredAfterRead(db, k, consumer);
    forall i | 0 <= i < |pending[k..]|
      ensures Stores(db.stream[Undelivered(db)[k..][i]], pending[k..][i])
    {
      assert Stores(db.stream[Undelivered(db)[k + i]], pending[k + i]);
    }
  }

  lemma PopKept<P>(db: Redis<P>, got: seq<Task<P>>, us: seq<Task<P>>, db': Redis<P>)
    requires Kept(db, got) && Rising(got + us) && db'.stream == db.stream
    requires forall id :: id in db'.pel <==> id in db.pel || Taken(us, id)
    requires forall i :: 0 <= i < |us| ==> us[i].id in db.stream && Stores(db.stream[us[i].id], us[i])
    ensures Kept(db', got + us)
  {
    TakenIn(got, us);
    forall i | 0 <= i < |got + us| && (got + us)[i].id in db'.pel
      ensures (got + us)[i].id in db'.stream && Stores(db'.stream[(got + us)[i].id], (got + us)[i])
    {
      if i < |got| {
        assert (got + us)[i] == got[i];
      } else {
        assert (got + us)[i] == us[i - |got|];
      }
    }
  }

  lemma PopMemIds<P>(m: MemSide<P>, k: nat)
    requires MemIds(m) && k <= |m.q.pending|
    ensures MemIds(MemSide(M.Popped(m.q, k), m.taken + m.q.pending[..k])) && Rising(m.taken + m.q.pending[..k])
  {
    assert m.taken + m.q.pending == m.taken + m.q.pending[..k] + m.q.pending[k..];
    RisingPart(m.taken + m.q.pending[..k], m.q.pending[k..]);
  }

  /** The lists popped on both sides, under one name each. */
  lemma PopMatches<P>(m: MemSide<P>, r: RedisSide<P>, k: nat, ts: seq<Task<P>>, us: seq<Task<P>>, db: Redis<P>,
      consumer: string)
    requires Related(m, r) && k <= |m.q.pending| && ts == m.q.pending[..k]
    requires db == XReadNew(r.db, Undelivered(r.db)[..k], consumer)
    requires |us| == k && forall i :: 0 <= i < k ==>
               us[i].id == Undelivered(r.db)[i] && ts[i] == us[i].(id := ts[i].id)
                 && Stores(r.db.stream[us[i].id], us[i])
    ensures Related(MemSide(M.Popped(m.q, k), m.taken + ts), RedisSide(db, r.got + us))
  {
    hide Stores, SameFlight, Kept, SameDead, MemIds, RedisIds;
    DeadStays(m.q.dlq, r.db, db);
    PopMemIds(m, k);
    PopIds(r, k, us, consumer);
    PopPendingMatches(m.q.pending, r.db, k, consumer);
    PopFlight(m.q.inFlight, m.taken, r.db.pel, r.got, ts, us, db.pel);
    PopKept(r.db, r.got, us, db);
  }

  lemma PopRelated<P>(cfg: Config<P>, m: MemSide<P>, r: RedisSide<P>, k: nat)
    requires Related(m, r) && k <= |m.q.pending|
    ensures var ids := Undelivered(r.db)[..k];
            var entries := EntriesOf(r.db, ids);
            Related(MemSide(M.Popped(m.q, k), m.taken + m.q.pending[..k]),
                    RedisSide(SiftedOf(cfg, XReadNew(r.db, ids, cfg.consumer), entries), r.got + TasksOf(entries)))
  {
    var ids := Undelivered(r.db)[..k];
    var us := TasksOf(EntriesOf(r.db, ids));
    PoppedTasks(cfg, r.db, m.q.pending, k);
    PopMatches(m, r, k, m.q.pending[..k], us, XReadNew(r.db, ids, cfg.consumer), cfg.consumer);
  }

  // ----- Retrying -----

  lemma RouteRelated<P>(m: MemSide<P>, r: RedisSide<P>, h: nat, u: Task<P>, fields: Fields<P>)
    requires Related(m, r) && h < |m.taken| && Stores(fields, u)
    ensures Related(m.(q := M.Acked(m.q, m.taken[h].id).(dlq := m.q.dlq + [u])),
                    r.(db := RouteDlqScript(r.db, fields, r.got[h].id)))
  {
    var db := XDel(XAck(r.db, r.got[h].id), r.got[h].id);
    OutRelated(m, r, h, db);
    DeadRelated(m.(q := M.Acked(m.q, m.taken[h].id)), r.(db := db), u, fields);
    assert RouteDlqScript(r.db, fields, r.got[h].id) == XAddDlq(db, fields);
  }

  lemma RequeueRelated<P>(m: MemSide<P>, r: RedisSide<P>, h: nat, u: Task<P>, fields: Fields<P>)
    requires Related(m, r) && h < |m.taken| && Stores(fields, u) && u.id == m.q.seqNo + 1
    ensures Related(m.(q := M.Acked(m.q, m.taken[h].id).(pending := m.q.pending + [u], seqNo := u.id)),
                    r.(db := RequeueScript(r.db, fields, r.got[h].id)))
  {
    var db := XDel(XAck(r.db, r.got[h].id), r.got[h].id);
    OutRelated(m, r, h, db);
    AddRelated(m.(q := M.Acked(m.q, m.taken[h].id)), r.(db := db), u, fields);
    AddThenDrop(r.db, fields, r.got[h].id);
  }

  lemma EncodedStores<P>(t: Task<P>, id: nat)
    ensures Stores(Encoded(t.payload, t.retryCount, t.headers), t.(id := id))
  {
    RoundTrip(id, t.payload, t.retryCount, t.headers);
  }

  lemma DeadStores<P>(t: Task<P>, id: nat, reason: string)
    ensures Stores(EncodedDead(t.payload, t.retryCount, t.headers, reason), t.(id := id))
  {
    DeadRoundTrip(id, t.payload, t.retryCount, t.headers, reason);
  }

  /** The two branches of a synchronous retry; whatever holds of the one result holds of the other. */
  lemma RetriesDead<P>(cfg: Config<P>, db: Redis<P>, g: Task<P>, reason: string, score: int, f: Redis<P> -> bool)
    requires cfg.hasDlq && g.id > 0 && ShouldDLQ(cfg.maxRetries, g.retryCount + 1)
    requires f(RouteDlqScript(db, EncodedDead(g.payload, g.retryCount + 1, g.headers, reason), g.id))
    ensures f(RetriedOf(cfg, db, g, reason, score))
  {
    hide Encoded, EncodedDead;
  }

  lemma RetriesAgain<P>(cfg: Config<P>, db: Redis<P>, g: Task<P>, reason: string, score: int, f: Redis<P> -> bool)
    requires !cfg.async && !ShouldDLQ(cfg.maxRetries, g.retryCount + 1)
    requires f(RequeueScript(db, Encoded(g.payload, g.retryCount + 1, g.headers), g.id))
    ensures f(RetriedOf(cfg, db, g, reason, score))
  {
    hide Encoded, EncodedDead;
  }

  lemma RetryRelated<P>(cfg: Config<P>, m: MemSide<P>, r: RedisSide<P>, h: nat, reason: string)
    requires Related(m, r) && h < |m.taken| && SamePlace(cfg, m.taken[h])
    ensures Related(m.(q := M.Retried(cfg.maxRetries, m.q, m.taken[h])),
        r.(db := RetriedOf(cfg, r.db, r.got[h], reason, 0)))
  {
    hide Encoded, EncodedDead, Stores;
    var g := r.got[h];
    var u := g.(retryCount := g.retryCount + 1);
    var after := m.(q := M.Retried(cfg.maxRetries, m.q, m.taken[h]));
    if ShouldDLQ(cfg.maxRetries, u.retryCount) {
      DeadStores(u, m.taken[h].id, reason);
      RouteRelated(m, r, h, u.(id := m.taken[h].id), EncodedDead(u.payload, u.retryCount, u.headers, reason));
      RetriesDead(cfg, r.db, g, reason, 0, db => Related(after, RedisSide(db, r.got)));
    } else {
      EncodedStores(u, m.q.seqNo + 1);
      RequeueRelated(m, r, h, u.(id := m.q.seqNo + 1), Encoded(u.payload, u.retryCount, u.headers));
      RetriesAgain(cfg, r.db, g, reason, 0, db => Related(after, RedisSide(db, r.got)));
    }
  }

  /** The script adds first; the new ID is not the dropped one. */
  lemma AddThenDrop<P>(db: Redis<P>, fields: Fields<P>, id: nat)
    requires id <= db.lastId
    ensures RequeueScript(db, fields, id) == XAdd(XDel(XAck(db, id), id), fields)
  {
  }

  /** The retry goes to a place both queues have: a DLQ for a task out of retries, else the stream itself. */
  predicate SamePlace<P>(cfg: Config<P>, t: Task<P>) {
    if ShouldDLQ(cfg.maxRetries, t.retryCount + 1) then cfg.hasDlq else !cfg.async
  }

  /** Without a DLQ nothing is kept of a task out of retries. */
  lemma NoDlqKeepsNothing<P>(cfg: Config<P>, db: Redis<P>, g: Task<P>, reason: string)
    requires !cfg.hasDlq && ShouldDLQ(cfg.maxRetries, g.retryCount + 1)
    ensures RetriedOf(cfg, db, g, reason, 0).dlqLastId == db.dlqLastId
  {
    hide Encoded, EncodedDead;
  }

  /** The stream gains nothing, and loses at most one entry that was delivered. */
  ghost predicate StreamShrinks<P>(db: Redis<P>, v: Redis<P>, id: nat) {
    && v.delivered == db.delivered && v.lastId == db.lastId
    && (v.stream == db.stream || v.stream == db.stream - {id})
  }

  lemma ScriptsShrink<P>(db: Redis<P>, fields: Fields<P>, id: nat, m: Envelope<P>, score: int, delete: bool)
    ensures StreamShrinks(db, RouteDlqScript(db, fields, id), id)
    ensures id != 0 ==> StreamShrinks(db, ZAddAckScript(db, m, score, id, delete), id)
  {
  }

  lemma DeadShrinks<P>(cfg: Config<P>, db: Redis<P>, u: Task<P>, reason: string)
    requires u.id > 0
    ensures StreamShrinks(db, DeadOf(cfg, db, u, reason), u.id)
  {
    hide EncodedDead, RouteDlqScript;
    ScriptsShrink(db, EncodedDead(u.payload, u.retryCount, u.headers, reason), u.id, EnvelopeOf(u), 0, false);
  }

  /** Asynchronous retries put nothing on the stream. */
  lemma AsyncShrinks<P>(cfg: Config<P>, db: Redis<P>, g: Task<P>, reason: string)
    requires g.id > 0 && cfg.async && !ShouldDLQ(cfg.maxRetries, g.retryCount + 1)
    ensures StreamShrinks(db, RetriedOf(cfg, db, g, reason, 0), g.id)
  {
    hide Encoded, EncodedDead, DeadOf, ZAddAckScript, StreamShrinks;
    var u := g.(retryCount := g.retryCount + 1);
    DeadShrinks(cfg, db, u, "max retries exceeded");
    ScriptsShrink(db, map[], u.id, EnvelopeOf(u), 0, cfg.deleteOnAck);
  }

  lemma AsyncIsShort<P>(cfg: Config<P>, db: Redis<P>, g: Task<P>, reason: string)
    requires 0 < g.id <= db.delivered && cfg.async && !ShouldDLQ(cfg.maxRetries, g.retryCount + 1)
    ensures |Undelivered(RetriedOf(cfg, db, g, reason, 0))| == |Undelivered(db)|
  {
    hide RetriedOf;
    AsyncShrinks(cfg, db, g, reason);
    UndeliveredAfterDel(db, RetriedOf(cfg, db, g, reason, 0), g.id);
  }

  /** A retry leaves the two queues the same exactly if it goes to the same place in both. */
  lemma RetrySameExactly<P>(cfg: Config<P>, m: MemSide<P>, r: RedisSide<P>, h: nat, reason: string)
    requires Related(m, r) && h < |m.taken|
    ensures Same(m.(q := M.Retried(cfg.maxRetries, m.q, m.taken[h])),
        r.(db := RetriedOf(cfg, r.db, r.got[h], reason, 0)))
            <==> SamePlace(cfg, m.taken[h])
  {
    if SamePlace(cfg, m.taken[h]) {
      RetryRelated(cfg, m, r, h, reason);
    } else {
      hide Stores, Encoded, EncodedDead, RetriedOf, Undelivered, Kept, SameFlight, Taken;
      if ShouldDLQ(cfg.maxRetries, r.got[h].retryCount + 1) {
        NoDlqKeepsNothing(cfg, r.db, r.got[h], reason);
      } else {
        AsyncIsShort(cfg, r.db, r.got[h], reason);
      }
    }
  }

  // ----- The theorem -----

  lemma PublishRelated<P>(m: MemSide<P>, r: RedisSide<P>, msg: Message<P>, t: Task<P>, fields: Fields<P>)
    requires Related(m, r) && t == Task(m.q.seqNo + 1, msg.payload, msg.headers, 0) && Stores(fields, t)
    ensures Related(m.(q := M.Published(m.q, msg)), r.(db := XAdd(r.db, fields)))
  {
    AddRelated(m, r, t, fields);
  }

  /** Every call but a retry is the same on both queues; a retry is if it goes to the same place. */
  ghost predicate Alike<P>(cfg: Config<P>, m: MemSide<P>, c: Call<P>) {
    c.Retry? && c.h < |m.taken| ==> SamePlace(cfg, m.taken[c.h])
  }

  lemma StepPossible<P>(cfg: Config<P>, m: MemSide<P>, r: RedisSide<P>, c: Call<P>)
    requires |m.taken| == |r.got|
    ensures MemAfter(cfg.maxRetries, m, c).Some? <==> RedisAfter(cfg, r, c).Some?
  {
  }

  lemma StepRelated<P>(cfg: Config<P>, m: MemSide<P>, r: RedisSide<P>, c: Call<P>)
    requires Related(m, r) && Alike(cfg, m, c)
    ensures MemAfter(cfg.maxRetries, m, c).Some? <==> RedisAfter(cfg, r, c).Some?
    ensures MemAfter(cfg.maxRetries, m, c).Some? ==>
              Related(MemAfter(cfg.maxRetries, m, c).value, RedisAfter(cfg, r, c).value)
  {
    hide Encoded, Stores;
    StepPossible(cfg, m, r, c);
    match c
    case Publish(msg) =>
      var t := Task(m.q.seqNo + 1, msg.payload, msg.headers, 0);
      EncodedStores(t, t.id);
      PublishRelated(m, r, msg, t, Encoded(msg.payload, 0, msg.headers));
    case Pop(n) =>
      var k := if n > |m.q.pending| then |m.q.pending| else n;
      SameLength(m.q.pending, r.db);
      assert Take(Undelivered(r.db), n) == Undelivered(r.db)[..k];
      PopRelated(cfg, m, r, k);
    case Ack(h) =>
      if h < |m.taken| {
        OutRelated(m, r, h, AckOf(cfg, r.db, r.got[h].id));
      }
    case Retry(h, reason) =>
      if h < |m.taken| {
        RetryRelated(cfg, m, r, h, reason);
      }
  }

  lemma SameLength<P>(pending: seq<Task<P>>, db: Redis<P>)
    requires SamePending(pending, db)
    ensures |pending| == |Undelivered(db)|
  {
  }

  lemma StartRelated<P>(start: Redis<P>)
    requires Unused(start)
    ensures Related(MemSide(M.EmptyMem(), []), RedisSide(XGroupCreate(start), []))
  {
  }

  ghost predicate AllAlike<P>(cfg: Config<P>, calls: seq<Call<P>>) {
    calls == []
    || (AllAlike(cfg, calls[..|calls| - 1])
        && (MemRun(cfg.maxRetries, calls[..|calls| - 1]).Some? ==>
              Alike(cfg, MemRun(cfg.maxRetries, calls[..|calls| - 1]).value, calls[|calls| - 1])))
  }

  lemma {:induction false} RunsRelated<P>(cfg: Config<P>, start: Redis<P>, calls: seq<Call<P>>)
    requires Unused(start) && AllAlike(cfg, calls)
    ensures MemRun(cfg.maxRetries, calls).Some? <==> RedisRun(cfg, start, calls).Some?
    ensures MemRun(cfg.maxRetries, calls).Some? ==>
              Related(MemRun(cfg.maxRetries, calls).value, RedisRun(cfg, start, calls).value)
  {
    if calls == [] {
      StartRelated(start);
    } else {
      var before := calls[..|calls| - 1];
      RunsRelated(cfg, start, before);
      if MemRun(cfg.maxRetries, before).Some? {
        StepRelated(cfg, MemRun(cfg.maxRetries, before).value, RedisRun(cfg, start, before).value, calls[|calls| - 1]);
      }
    }
  }

  /** The same calls are possible on both queues and leave them the same, whatever the batch sizes and whether or
      not entries are deleted when acked, as long as each retry goes to the same place in both. */
  lemma RedisRefinesMemory<P>(cfg: Config<P>, start: Redis<P>, calls: seq<Call<P>>)
    requires Unused(start) && AllAlike(cfg, calls)
    ensures MemRun(cfg.maxRetries, calls).Some? <==> RedisRun(cfg, start, calls).Some?
    ensures MemRun(cfg.maxRetries, calls).Some? ==>
              Same(MemRun(cfg.maxRetries, calls).value, RedisRun(cfg, start, calls).value)
  {
    RunsRelated(cfg, start, calls);
  }

  /** With a DLQ and synchronous retries every call does. */
  lemma {:induction false} SynchronousAlike<P>(cfg: Config<P>, calls: seq<Call<P>>)
    requires cfg.hasDlq && !cfg.async
    ensures AllAlike(cfg, calls)
  {
    if calls != [] {
      SynchronousAlike(cfg, calls[..|calls| - 1]);
    }
  }

  /** A run that is related so far stays the same over a further retry exactly if that one goes to the same place. */
  lemma RefinesExactly<P>(cfg: Config<P>, start: Redis<P>, calls: seq<Call<P>>, h: nat, reason: string)
    requires Unused(start) && AllAlike(cfg, calls) && MemRun(cfg.maxRetries, calls).Some?
    requires h < |MemRun(cfg.maxRetries, calls).value.taken|
    ensures var more := calls + [Retry(h, reason)];
            && MemRun(cfg.maxRetries, more).Some? && RedisRun(cfg, start, more).Some?
            && (Same(MemRun(cfg.maxRetries, more).value, RedisRun(cfg, start, more).value)
                <==> SamePlace(cfg, MemRun(cfg.maxRetries, calls).value.taken[h]))
  {
    RunsRelated(cfg, start, calls);
    var more := calls + [Retry(h, reason)];
    assert more[..|more| - 1] == calls;
    RetrySameExactly(cfg, MemRun(cfg.maxRetries, calls).value, RedisRun(cfg, start, calls).value, h, reason);
  }
}
