/** No published message is lost by the Redis-streams queue: a step protocol over single Redis commands and
    Lua scripts, in which any number of consumers, retry loops and DLQ replays interleave and stop anywhere
    (go-ingestion/internal/queue/redisstreams/queue.go).

    A crash is no step of its own: a process that stops just takes no further steps. What a process may
    still do with what it once read stays possible for ever, so late and repeated actions are included. */
module QueueNoLoss {
  import opened Decimal
  import opened QueueTypes
  import opened MessageCodec
  import opened RedisStreams

  datatype World<P(==)> = World(
    db: Redis<P>,
    seen: set<Task<P>>,           // tasks handed to some consumer
    acked: set<nat>,              // IDs an XACK was sent for on its own
    read: set<Envelope<P>>,       // members some maturation pass has read
    owed: set<Envelope<P>>,       // members whose XADD was sent, so that their ZREM follows
    replays: map<nat, Fields<P>>, // DLQ entries some replay has read
    published: set<P>,
    settled: set<P>)              // payloads a handler returned nil or ErrDrop for

  datatype Event<P> =
    | CreateGroup
    | Publish(msg: Message<P>)
    | Deliver(consumer: string, n: nat)
    | Claim(consumer: string, ids: seq<nat>)
    | HandlerDone(task: Task<P>)
    | SendAck(task: Task<P>)
    | SendDel(task: Task<P>)
    | FailTask(task: Task<P>, reason: string, score: int)
    | ReadMember(member: Envelope<P>)
    | AddMember(member: Envelope<P>)
    | RefusedAdd(member: Envelope<P>) // the server refuses the pipelined XADD; the ZREM is sent all the same
    | RemoveMember(member: Envelope<P>)
    | ReadDead(id: nat)
    | ReplayDead(id: nat)

  ghost predicate Enabled<P>(w: World<P>, e: Event<P>) {
    match e
    case CreateGroup => true
    case Publish(_) => true
    case Deliver(_, n) => w.db.grouped && n <= |Undelivered(w.db)|
    case Claim(_, ids) => forall i :: 0 <= i < |ids| ==> ids[i] in w.db.pel
    case HandlerDone(t) => t in w.seen
    case SendAck(t) => t in w.seen && t.payload in w.settled
    case SendDel(t) => t in w.seen && t.payload in w.settled && t.id in w.acked
    case FailTask(t, _, _) => t in w.seen
    case ReadMember(m) => m in w.db.zset
    case AddMember(m) => m in w.read
    case RefusedAdd(m) => m in w.read
    case RemoveMember(m) => m in w.owed
    case ReadDead(id) => id in w.db.dlq
    case ReplayDead(id) => id in w.replays && Readable(w.replays[id])
  }

  ghost predicate Readable<P>(fields: Fields<P>) {
    PayloadField in fields && fields[PayloadField].Raw?
  }

  ghost function HandedOut<P>(db: Redis<P>, ids: seq<nat>): set<Task<P>> {
    set i | 0 <= i < |ids| && ids[i] in db.stream && Decode(ids[i], db.stream[ids[i]]).Ok? ::
      Decode(ids[i], db.stream[ids[i]]).task
  }

  ghost function After<P>(cfg: Config<P>, w: World<P>, e: Event<P>): World<P>
    requires Enabled(w, e)
  {
    var db := w.db;
    match e
    case CreateGroup => w.(db := XGroupCreate(db))
    case Publish(msg) =>
      w.(db := XAdd(db, Encoded(msg.payload, 0, msg.headers)),
         published := if db.grouped then w.published + {msg.payload} else w.published)
    case Deliver(consumer, n) =>
      var ids := Undelivered(db)[..n];
      w.(db := XReadNew(db, ids, consumer), seen := w.seen + HandedOut(db, ids))
    case Claim(consumer, ids) => w.(db := XAutoClaim(db, ids, consumer))
    case HandlerDone(t) => w.(settled := w.settled + {t.payload})
    case SendAck(t) => w.(db := XAck(db, t.id), acked := w.acked + {t.id})
    case SendDel(t) => w.(db := XDel(db, t.id))
    case FailTask(t, reason, score) => w.(db := RetriedOf(cfg, db, t, reason, score))
    case ReadMember(m) => w.(read := w.read + {m})
    case AddMember(m) => w.(db := XAdd(db, Encoded(m.payload, m.retryCount, m.headers)), owed := w.owed + {m})
    case RefusedAdd(m) => w.(owed := w.owed + {m})
    case RemoveMember(m) => w.(db := ZRem(db, m))
    case ReadDead(id) => w.(replays := w.replays[id := db.dlq[id]])
    case ReplayDead(id) => w.(db := XAdd(db, Replayed(w.replays[id])).(dlq := db.dlq - {id}))
  }

  ghost function Fresh<P>(): World<P> {
    World(EmptyRedis(), {}, {}, {}, {}, map[], {}, {})
  }

  ghost function Run<P>(cfg: Config<P>, es: seq<Event<P>>): Option<World<P>> {
    if es == [] then Some(Fresh())
    else
      match Run(cfg, es[..|es| - 1])
      case None => None
      case Some(w) => if Enabled(w, es[|es| - 1]) then Some(After(cfg, w, es[|es| - 1])) else None
  }

  // ----- Copies -----

  ghost predicate Holds<P>(fields: Fields<P>, p: P) {
    PayloadField in fields && fields[PayloadField] == Raw(p)
  }

  /** Not yet delivered, or pending. */
  ghost predicate Live<P>(db: Redis<P>, id: nat) {
    id in db.stream && (id > db.delivered || id in db.pel)
  }

  ghost predicate InStream<P>(db: Redis<P>, p: P, k: nat) {
    exists id :: Live(db, id) && k < id && Holds(db.stream[id], p)
  }

  ghost predicate InZSet<P>(db: Redis<P>, p: P, k: nat) {
    exists m :: m in db.zset && k < m.id && m.payload == p
  }

  ghost predicate InDlq<P>(db: Redis<P>, p: P) {
    exists id :: id in db.dlq && Holds(db.dlq[id], p)
  }

  /** A copy of p is live in the stream or waits in the sorted set with an ID above k, or is in the DLQ. */
  ghost predicate HasCopy<P>(db: Redis<P>, p: P, k: nat) {
    InStream(db, p, k) || InZSet(db, p, k) || InDlq(db, p)
  }

  // ----- The invariant -----

  ghost predicate WellFormed<P>(w: World<P>) {
    && w.db.delivered <= w.db.lastId
    && (forall id :: id in w.db.stream ==> 0 < id <= w.db.lastId && Readable(w.db.stream[id]))
    && (forall id :: id in w.db.dlq ==> id <= w.db.dlqLastId && Readable(w.db.dlq[id]))
    && (forall t :: t in w.seen ==>
      0 < t.id <= w.db.lastId && (t.id in w.db.stream ==> Holds(w.db.stream[t.id], t.payload)))
    && (forall m :: m in w.db.zset ==> 0 < m.id <= w.db.lastId)
    && (forall m :: m in w.read ==> 0 < m.id <= w.db.lastId)
    && w.owed <= w.read
    && (forall id :: id in w.replays ==>
          id <= w.db.dlqLastId && Readable(w.replays[id]) && (id in w.db.dlq ==> w.db.dlq[id] == w.replays[id]))
    && (!w.db.grouped ==> w.published == {} && w.seen == {} && w.read == {} && w.db.zset == map[])
  }

  /** Whoever owes the removal of member m can rely on a copy with an ID above m's. IDs only grow along a
      chain of copies, so no two removals can each rely on what the other removes. */
  ghost predicate Covered<P>(w: World<P>) {
    && (forall p :: p in w.published ==> p in w.settled || HasCopy(w.db, p, 0))
    && (forall m :: m in w.owed ==> m.payload in w.settled || HasCopy(w.db, m.payload, m.id))
  }

  // ----- No step removes the last copy -----

  lemma AddedCopy<P>(db: Redis<P>, fields: Fields<P>, p: P, k: nat)
    requires k <= db.lastId && db.delivered <= db.lastId && Holds(fields, p)
    ensures HasCopy(XAdd(db, fields), p, k)
  {
    assert Live(XAdd(db, fields), db.lastId + 1);
  }

  /** Commands that leave live entries, members and DLQ entries in place. */
  lemma CopyKept<P>(db: Redis<P>, db': Redis<P>, p: P, k: nat)
    requires HasCopy(db, p, k)
    requires forall id :: Live(db, id) ==> Live(db', id) && db'.stream[id] == db.stream[id]
    requires forall m :: m in db.zset ==> m in db'.zset
    requires forall id :: id in db.dlq ==> id in db'.dlq && db'.dlq[id] == db.dlq[id]
    ensures HasCopy(db', p, k)
  {
    if InStream(db, p, k) {
      var id :| Live(db, id) && k < id && Holds(db.stream[id], p);
      assert Live(db', id);
    } else if InZSet(db, p, k) {
      var m :| m in db.zset && k < m.id && m.payload == p;
      assert m in db'.zset;
    } else {
      var id :| id in db.dlq && Holds(db.dlq[id], p);
      assert id in db'.dlq;
    }
  }

  /** Dropping the entry of a task keeps every copy but possibly that of the task's own payload. */
  lemma DropEntry<P>(w: World<P>, db': Redis<P>, t: Task<P>, p: P, k: nat)
    requires WellFormed(w) && t in w.seen && HasCopy(w.db, p, k)
    requires forall id :: Live(w.db, id) && id != t.id ==> Live(db', id) && db'.stream[id] == w.db.stream[id]
    requires forall m :: m in w.db.zset ==> m in db'.zset
    requires forall id :: id in w.db.dlq ==> id in db'.dlq && db'.dlq[id] == w.db.dlq[id]
    ensures HasCopy(db', p, k) || (p == t.payload && k < t.id)
  {
    var db := w.db;
    if InStream(db, p, k) {
      var id :| Live(db, id) && k < id && Holds(db.stream[id], p);
      if id != t.id {
        assert Live(db', id);
      }
    } else if InZSet(db, p, k) {
      var m :| m in db.zset && k < m.id && m.payload == p;
      assert m in db'.zset;
    } else {
      var id :| id in db.dlq && Holds(db.dlq[id], p);
      assert id in db'.dlq;
    }
  }

  lemma EncodedHolds<P>(payload: P, retryCount: int, headers: map<string, string>, reason: string)
    ensures Holds(Encoded(payload, retryCount, headers), payload)
    ensures Holds(EncodedDead(payload, retryCount, headers, reason), payload)
  {
  }

  lemma AddKeeps<P>(db: Redis<P>, fields: Fields<P>, p: P, k: nat)
    requires HasCopy(db, p, k) && forall id :: id in db.stream ==> id <= db.lastId
    ensures HasCopy(XAdd(db, fields), p, k)
  {
    CopyKept(db, XAdd(db, fields), p, k);
  }

  lemma ClaimKeeps<P>(db: Redis<P>, ids: seq<nat>, consumer: string, p: P, k: nat)
    requires HasCopy(db, p, k)
    ensures HasCopy(XAutoClaim(db, ids, consumer), p, k)
  {
    CopyKept(db, XAutoClaim(db, ids, consumer), p, k);
  }

  lemma RequeueKeeps<P>(w: World<P>, fields: Fields<P>, t: Task<P>, p: P, k: nat)
    requires WellFormed(w) && t in w.seen && HasCopy(w.db, p, k) && Holds(fields, t.payload)
    ensures HasCopy(RequeueScript(w.db, fields, t.id), p, k)
  {
    var db' := RequeueScript(w.db, fields, t.id);
    DropEntry(w, db', t, p, k);
    if p == t.payload && k < t.id {
      assert Live(db', w.db.lastId + 1) && Holds(db'.stream[w.db.lastId + 1], p);
    }
  }

  lemma RouteKeeps<P>(w: World<P>, fields: Fields<P>, t: Task<P>, p: P, k: nat)
    requires WellFormed(w) && t in w.seen && HasCopy(w.db, p, k) && Holds(fields, t.payload)
    ensures HasCopy(RouteDlqScript(w.db, fields, t.id), p, k)
  {
    var db' := RouteDlqScript(w.db, fields, t.id);
    DropEntry(w, db', t, p, k);
    if p == t.payload {
      assert w.db.dlqLastId + 1 in db'.dlq && Holds(db'.dlq[w.db.dlqLastId + 1], p);
    }
  }

  lemma DeadKeeps<P>(cfg: Config<P>, w: World<P>, u: Task<P>, t: Task<P>, reason: string, p: P, k: nat)
    requires WellFormed(w) && t in w.seen && HasCopy(w.db, p, k) && cfg.hasDlq
    requires u.id == t.id && u.payload == t.payload
    ensures HasCopy(DeadOf(cfg, w.db, u, reason), p, k)
  {
    EncodedHolds(u.payload, u.retryCount, u.headers, reason);
    RouteKeeps(w, EncodedDead(u.payload, u.retryCount, u.headers, reason), t, p, k);
  }

  lemma ScheduleKeeps<P>(w: World<P>, u: Task<P>, t: Task<P>, score: int, delete: bool, p: P, k: nat)
    requires WellFormed(w) && t in w.seen && HasCopy(w.db, p, k)
    requires u.id == t.id && u.payload == t.payload
    ensures HasCopy(ZAddAckScript(w.db, EnvelopeOf(u), score, u.id, delete), p, k)
  {
    var db' := ZAddAckScript(w.db, EnvelopeOf(u), score, u.id, delete);
    DropEntry(w, db', t, p, k);
    if p == t.payload && k < t.id {
      assert EnvelopeOf(u) in db'.zset && EnvelopeOf(u).id > k;
    }
  }

  lemma FailKeeps<P>(cfg: Config<P>, w: World<P>, t: Task<P>, reason: string, score: int, p: P, k: nat)
    requires WellFormed(w) && t in w.seen && HasCopy(w.db, p, k) && (Exhausted(cfg, t) ==> cfg.hasDlq)
    ensures HasCopy(RetriedOf(cfg, w.db, t, reason, score), p, k)
  {
    var u := t.(retryCount := t.retryCount + 1);
    if ShouldDLQ(cfg.maxRetries, u.retryCount) {
      DeadKeeps(cfg, w, u, t, reason, p, k);
    } else if cfg.async {
      if ShouldDLQ(cfg.asyncMaxRetries, u.retryCount) {
        DeadKeeps(cfg, w, u, t, "max retries exceeded", p, k);
      } else {
        ScheduleKeeps(w, u, t, score, cfg.deleteOnAck, p, k);
      }
    } else {
      EncodedHolds(u.payload, u.retryCount, u.headers, reason);
      RequeueKeeps(w, Encoded(u.payload, u.retryCount, u.headers), t, p, k);
    }
  }

  lemma OtherCopyStays<P>(db: Redis<P>, m: Envelope<P>, p: P, k: nat)
    requires HasCopy(db, p, k) && (m.payload != p || m.id <= k)
    ensures HasCopy(ZRem(db, m), p, k)
  {
    var db' := ZRem(db, m);
    if InStream(db, p, k) {
      var id :| Live(db, id) && k < id && Holds(db.stream[id], p);
      assert Live(db', id);
    } else if InDlq(db, p) {
      var id :| id in db.dlq && Holds(db.dlq[id], p);
      assert id in db'.dlq;
    } else {
      var n :| n in db.zset && k < n.id && n.payload == p;
      assert n in db'.zset;
    }
  }

  lemma HigherIsEnough<P>(db: Redis<P>, p: P, k: nat, l: nat)
    requires HasCopy(db, p, l) && k <= l
    ensures HasCopy(db, p, k)
  {
  }

  /** Removing a member keeps every copy but the member itself, and for that one the remover owes another. */
  lemma RemoveKeeps<P>(w: World<P>, m: Envelope<P>, p: P, k: nat)
    requires Covered(w) && m in w.owed && HasCopy(w.db, p, k) && p !in w.settled
    ensures HasCopy(ZRem(w.db, m), p, k)
  {
    if m.payload == p && k < m.id {
      OtherCopyStays(w.db, m, p, m.id);
      HigherIsEnough(ZRem(w.db, m), p, k, m.id);
    } else {
      OtherCopyStays(w.db, m, p, k);
    }
  }

  lemma DeliverKeeps<P>(w: World<P>, consumer: string, n: nat, p: P, k: nat)
    requires WellFormed(w) && HasCopy(w.db, p, k) && n <= |Undelivered(w.db)|
    ensures HasCopy(XReadNew(w.db, Undelivered(w.db)[..n], consumer), p, k)
  {
    var ids := Undelivered(w.db)[..n];
    var db' := XReadNew(w.db, ids, consumer);
    forall id | Live(w.db, id)
      ensures Live(db', id) && db'.stream[id] == w.db.stream[id]
    {
      if ids != [] && w.db.delivered < id <= ids[n - 1] {
        UndeliveredComplete(w.db, id);
        var i :| 0 <= i < |Undelivered(w.db)| && Undelivered(w.db)[i] == id;
        assert i < n;
        assert ids[i] == id;
      }
    }
    CopyKept(w.db, db', p, k);
  }

  lemma UndeliveredComplete<P>(db: Redis<P>, id: nat)
    requires id in db.stream && db.delivered < id <= db.lastId
    ensures id in Undelivered(db)
  {
    IdsInComplete(db.stream.Keys, db.delivered, db.lastId, id);
  }

  lemma ReplayedHolds<P>(fields: Fields<P>)
    requires Readable(fields)
    ensures Holds(Replayed(fields), fields[PayloadField].payload)
  {
  }

  lemma ReplayKeeps<P>(db: Redis<P>, id: nat, fields: Fields<P>, p: P, k: nat)
    requires HasCopy(db, p, k) && k <= db.lastId && db.delivered <= db.lastId
    requires forall i :: i in db.stream ==> i <= db.lastId
    requires id in db.dlq && Holds(db.dlq[id], p) ==> Holds(fields, p)
    ensures HasCopy(XAdd(db, fields).(dlq := db.dlq - {id}), p, k)
  {
    var db' := XAdd(db, fields).(dlq := db.dlq - {id});
    if InStream(db, p, k) {
      var i :| Live(db, i) && k < i && Holds(db.stream[i], p);
      assert Live(db', i);
    } else if InZSet(db, p, k) {
      var m :| m in db.zset && k < m.id && m.payload == p;
      assert m in db'.zset;
    } else {
      var i :| i in db.dlq && Holds(db.dlq[i], p);
      if i != id {
        assert i in db'.dlq;
      } else {
        assert Live(db', db.lastId + 1) && Holds(db'.stream[db.lastId + 1], p);
      }
    }
  }

  lemma AckKeeps<P>(w: World<P>, db': Redis<P>, t: Task<P>, p: P, k: nat)
    requires WellFormed(w) && t in w.seen && t.payload in w.settled && p !in w.settled && HasCopy(w.db, p, k)
    requires db' == XAck(w.db, t.id) || db' == XDel(w.db, t.id)
    ensures HasCopy(db', p, k)
  {
    DropEntry(w, db', t, p, k);
  }

  /** The failure that is one too many for the retry policy. */
  predicate Exhausted<P>(cfg: Config<P>, t: Task<P>) {
    ShouldDLQ(cfg.maxRetries, t.retryCount + 1) || (cfg.async && ShouldDLQ(cfg.asyncMaxRetries, t.retryCount + 1))
  }

  /** A copy above k in any other place than the entry of t. */
  ghost predicate HasOtherCopy<P>(db: Redis<P>, t: Task<P>, k: nat) {
    || (exists id :: Live(db, id) && k < id != t.id && Holds(db.stream[id], t.payload))
    || InZSet(db, t.payload, k) || InDlq(db, t.payload)
  }

  /** What the code relies on: that a task out of retries finds a DLQ, and that the server accepts a pipelined XADD.
      Otherwise the message must be settled, or have other copies: one for whoever waits for it, and one above
      each member whose removal is owed. */
  ghost predicate Safe<P>(cfg: Config<P>, w: World<P>, e: Event<P>) {
    match e
    case RefusedAdd(m) => m.payload in w.settled || HasCopy(w.db, m.payload, m.id)
    case FailTask(t, _, _) =>
      || !Exhausted(cfg, t) || cfg.hasDlq || t.payload in w.settled
      || ((t.payload in w.published ==> HasOtherCopy(w.db, t, 0))
          && forall m :: m in w.owed && m.payload == t.payload ==> HasOtherCopy(w.db, t, m.id))
    case _ => true
  }

  /** Dropping a task for good keeps every copy of other messages, and of its own exactly the others. */
  lemma DropKeeps<P>(cfg: Config<P>, w: World<P>, t: Task<P>, p: P, k: nat)
    requires WellFormed(w) && t in w.seen && HasCopy(w.db, p, k) && (p == t.payload ==> HasOtherCopy(w.db, t, k))
    ensures HasCopy(AckOf(cfg, w.db, t.id), p, k)
  {
    if p != t.payload {
      DropEntry(w, AckOf(cfg, w.db, t.id), t, p, k);
    } else {
      OtherIsKept(cfg, w.db, t, k);
    }
  }

  lemma OtherIsKept<P>(cfg: Config<P>, db: Redis<P>, t: Task<P>, k: nat)
    requires HasOtherCopy(db, t, k)
    ensures HasCopy(AckOf(cfg, db, t.id), t.payload, k)
  {
    var db' := AckOf(cfg, db, t.id);
    if id: nat :| Live(db, id) && k < id != t.id && Holds(db.stream[id], t.payload) {
      assert Live(db', id) && Holds(db'.stream[id], t.payload);
    } else {
      assert InZSet(db, t.payload, k) ==> InZSet(db', t.payload, k);
      assert InDlq(db, t.payload) ==> InDlq(db', t.payload);
    }
  }

  lemma CommandKeepsCopy<P>(cfg: Config<P>, w: World<P>, e: Event<P>, p: P, k: nat)
    requires WellFormed(w) && Enabled(w, e) && (e.Publish? || e.AddMember? || e.Deliver? || e.Claim? || e.ReplayDead?)
    requires HasCopy(w.db, p, k) && k <= w.db.lastId
    ensures HasCopy(After(cfg, w, e).db, p, k)
  {
    match e
    case Publish(msg) => AddKeeps(w.db, Encoded(msg.payload, 0, msg.headers), p, k);
    case AddMember(m) => AddKeeps(w.db, Encoded(m.payload, m.retryCount, m.headers), p, k);
    case Deliver(consumer, n) => DeliverKeeps(w, consumer, n, p, k);
    case Claim(consumer, ids) => ClaimKeeps(w.db, ids, consumer, p, k);
    case ReplayDead(id) =>
      ReplayedHolds(w.replays[id]);
      ReplayKeeps(w.db, id, Replayed(w.replays[id]), p, k);
  }

  lemma StepKeepsCopy<P>(cfg: Config<P>, w: World<P>, e: Event<P>, p: P, k: nat)
    requires WellFormed(w) && Covered(w) && Enabled(w, e) && (e.CreateGroup? ==> w.db.grouped)
    requires HasCopy(w.db, p, k) && p !in w.settled && k <= w.db.lastId
    requires e.FailTask? && Exhausted(cfg, e.task) && p == e.task.payload ==>
               cfg.hasDlq || HasOtherCopy(w.db, e.task, k)
    ensures HasCopy(After(cfg, w, e).db, p, k)
  {
    if e.Publish? || e.AddMember? || e.Deliver? || e.Claim? || e.ReplayDead? {
      CommandKeepsCopy(cfg, w, e, p, k);
    } else if e.SendAck? || e.SendDel? {
      AckKeeps(w, After(cfg, w, e).db, e.task, p, k);
    } else if e.FailTask? {
      if Exhausted(cfg, e.task) && !cfg.hasDlq {
        DropKeeps(cfg, w, e.task, p, k);
      } else {
        FailKeeps(cfg, w, e.task, e.reason, e.score, p, k);
      }
    } else if e.RemoveMember? {
      RemoveKeeps(w, e.member, p, k);
    }
  }

  lemma StepKeepsCovered<P>(cfg: Config<P>, w: World<P>, e: Event<P>)
    requires WellFormed(w) && Covered(w) && Enabled(w, e) && Safe(cfg, w, e)
    ensures Covered(After(cfg, w, e))
  {
    var v := After(cfg, w, e);
    forall p | p in v.published && p !in v.settled
      ensures HasCopy(v.db, p, 0)
    {
      if p in w.published {
        StepKeepsCopy(cfg, w, e, p, 0);
      } else {
        AddedCopy(w.db, Encoded(p, 0, e.msg.headers), p, 0);
      }
    }
    forall m | m in v.owed && m.payload !in v.settled
      ensures HasCopy(v.db, m.payload, m.id)
    {
      if m in w.owed {
        StepKeepsCopy(cfg, w, e, m.payload, m.id);
      } else if e.AddMember? {
        AddedCopy(w.db, Encoded(m.payload, m.retryCount, m.headers), m.payload, m.id);
      }
    }
  }

  // ----- Well-formedness -----

  /** What a command may do to the data: new IDs above the old ones, readable fields, members with known IDs. */
  ghost predicate Grows<P>(db: Redis<P>, db': Redis<P>) {
    && db.lastId <= db'.lastId && db.dlqLastId <= db'.dlqLastId
    && db'.grouped == db.grouped && db'.delivered == db.delivered
    && (forall id :: id in db'.stream ==>
          (id in db.stream && db'.stream[id] == db.stream[id])
            || (db.lastId < id <= db'.lastId && Readable(db'.stream[id])))
    && (forall id :: id in db'.dlq ==>
          (id in db.dlq && db'.dlq[id] == db.dlq[id]) || (db.dlqLastId < id <= db'.dlqLastId && Readable(db'.dlq[id])))
    && (forall m :: m in db'.zset ==> m in db.zset || (db.grouped && 0 < m.id <= db.lastId))
  }

  lemma GrowsKeepsWellFormed<P>(w: World<P>, db': Redis<P>)
    requires WellFormed(w) && Grows(w.db, db')
    ensures WellFormed(w.(db := db'))
  {
  }

  lemma XAddGrows<P>(db: Redis<P>, fields: Fields<P>)
    requires Readable(fields)
    ensures Grows(db, XAdd(db, fields))
  {
  }

  lemma RequeueGrows<P>(db: Redis<P>, fields: Fields<P>, id: nat)
    requires Readable(fields)
    ensures Grows(db, RequeueScript(db, fields, id))
  {
  }

  lemma RouteGrows<P>(db: Redis<P>, fields: Fields<P>, id: nat)
    requires Readable(fields)
    ensures Grows(db, RouteDlqScript(db, fields, id))
  {
  }

  lemma ScheduleGrows<P>(db: Redis<P>, m: Envelope<P>, score: int, id: nat, delete: bool)
    requires 0 < m.id <= db.lastId && db.grouped
    ensures Grows(db, ZAddAckScript(db, m, score, id, delete))
  {
  }

  lemma DeadGrows<P>(cfg: Config<P>, db: Redis<P>, u: Task<P>, reason: string)
    requires u.id > 0
    ensures Grows(db, DeadOf(cfg, db, u, reason))
  {
    if cfg.hasDlq {
      EncodedHolds(u.payload, u.retryCount, u.headers, reason);
      RouteGrows(db, EncodedDead(u.payload, u.retryCount, u.headers, reason), u.id);
    }
  }

  lemma FailGrows<P>(cfg: Config<P>, db: Redis<P>, t: Task<P>, reason: string, score: int)
    requires 0 < t.id <= db.lastId && db.grouped
    ensures Grows(db, RetriedOf(cfg, db, t, reason, score))
  {
    var u := t.(retryCount := t.retryCount + 1);
    if ShouldDLQ(cfg.maxRetries, u.retryCount) {
      DeadGrows(cfg, db, u, reason);
    } else if !cfg.async {
      EncodedHolds(u.payload, u.retryCount, u.headers, reason);
      RequeueGrows(db, Encoded(u.payload, u.retryCount, u.headers), u.id);
    } else if ShouldDLQ(cfg.asyncMaxRetries, u.retryCount) {
      DeadGrows(cfg, db, u, "max retries exceeded");
    } else {
      ScheduleGrows(db, EnvelopeOf(u), score, u.id, cfg.deleteOnAck);
    }
  }

  lemma AddGrows<P>(db: Redis<P>, payload: P, retryCount: int, headers: map<string, string>)
    ensures Grows(db, XAdd(db, Encoded(payload, retryCount, headers)))
  {
    EncodedHolds(payload, retryCount, headers, "");
    XAddGrows(db, Encoded(payload, retryCount, headers));
  }

  lemma DeliverKeepsWellFormed<P>(cfg: Config<P>, w: World<P>, consumer: string, n: nat)
    requires WellFormed(w) && Enabled(w, Deliver(consumer, n))
    ensures WellFormed(After(cfg, w, Deliver(consumer, n)))
  {
    var ids := Undelivered(w.db)[..n];
    forall t | t in HandedOut(w.db, ids)
      ensures t.id in w.db.stream && Holds(w.db.stream[t.id], t.payload)
    {
    }
  }

  lemma DataKeepsWellFormed<P>(cfg: Config<P>, w: World<P>, e: Event<P>)
    requires WellFormed(w) && Enabled(w, e)
    requires e.SendAck? || e.SendDel? || e.FailTask? || e.AddMember? || e.RemoveMember? || e.Claim?
    ensures WellFormed(w.(db := After(cfg, w, e).db))
  {
    var db' := After(cfg, w, e).db;
    if e.FailTask? {
      FailGrows(cfg, w.db, e.task, e.reason, e.score);
    } else if e.AddMember? {
      AddGrows(w.db, e.member.payload, e.member.retryCount, e.member.headers);
    }
    GrowsKeepsWellFormed(w, db');
  }

  lemma PublishKeepsWellFormed<P>(cfg: Config<P>, w: World<P>, msg: Message<P>)
    requires WellFormed(w)
    ensures WellFormed(After(cfg, w, Publish(msg)))
  {
    AddGrows(w.db, msg.payload, 0, msg.headers);
    GrowsKeepsWellFormed(w, XAdd(w.db, Encoded(msg.payload, 0, msg.headers)));
  }

  lemma ReplayKeepsWellFormed<P>(cfg: Config<P>, w: World<P>, id: nat)
    requires WellFormed(w) && Enabled(w, ReplayDead(id))
    ensures WellFormed(After(cfg, w, ReplayDead(id)))
  {
    ReplayedHolds(w.replays[id]);
    XAddGrows(w.db, Replayed(w.replays[id]));
    GrowsKeepsWellFormed(w, XAdd(w.db, Replayed(w.replays[id])));
  }

  lemma StepKeepsWellFormed<P>(cfg: Config<P>, w: World<P>, e: Event<P>)
    requires WellFormed(w) && Enabled(w, e)
    ensures WellFormed(After(cfg, w, e))
  {
    hide Encoded, Replayed, RetriedOf;
    if e.Publish? {
      PublishKeepsWellFormed(cfg, w, e.msg);
    } else if e.Deliver? {
      DeliverKeepsWellFormed(cfg, w, e.consumer, e.n);
    } else if e.ReplayDead? {
      ReplayKeepsWellFormed(cfg, w, e.id);
    } else if e.SendAck? || e.SendDel? || e.FailTask? || e.AddMember? || e.RemoveMember? || e.Claim? {
      DataKeepsWellFormed(cfg, w, e);
    }
  }

  // ----- The theorem -----

  ghost predicate AllSafe<P>(cfg: Config<P>, es: seq<Event<P>>) {
    es == []
    || (AllSafe(cfg, es[..|es| - 1])
        && (Run(cfg, es[..|es| - 1]).Some? ==> Safe(cfg, Run(cfg, es[..|es| - 1]).value, es[|es| - 1])))
  }

  lemma {:induction false} RunInvariant<P>(cfg: Config<P>, es: seq<Event<P>>)
    requires Run(cfg, es).Some? && AllSafe(cfg, es)
    ensures WellFormed(Run(cfg, es).value) && Covered(Run(cfg, es).value)
  {
    if es != [] {
      var w := Run(cfg, es[..|es| - 1]).value;
      RunInvariant(cfg, es[..|es| - 1]);
      StepKeepsWellFormed(cfg, w, es[|es| - 1]);
      StepKeepsCovered(cfg, w, es[|es| - 1]);
    }
  }

  /** In every reachable state each payload published since the group exists, and for which no handler
      returned nil or ErrDrop, is undelivered, pending, scheduled or in the DLQ. */
  lemma NoMessageLost<P>(cfg: Config<P>, es: seq<Event<P>>, p: P)
    requires Run(cfg, es).Some? && AllSafe(cfg, es)
    requires p in Run(cfg, es).value.published && p !in Run(cfg, es).value.settled
    ensures HasCopy(Run(cfg, es).value.db, p, 0)
  {
    RunInvariant(cfg, es);
  }

  // ----- What the queue's reads return -----

  /** Pending entries are still in the stream, decode, and were handed out; an acked ID is never pending again. */
  ghost predicate Handed<P>(stream: map<nat, Fields<P>>, seen: set<Task<P>>, id: nat) {
    id in stream && Decode(id, stream[id]).Ok? && Decode(id, stream[id]).task in seen
  }

  ghost predicate PelFits<P>(w: World<P>) {
    && (forall id :: id in w.db.pel ==> id <= w.db.delivered && Handed(w.db.stream, w.seen, id))
    && (forall t :: t in w.seen ==> t.id <= w.db.delivered)
    && (forall id :: id in w.acked ==> id <= w.db.delivered && id !in w.db.pel)
  }

  /** Commands that deliver nothing and drop stream entries only together with their pending entry. */
  lemma NothingDelivered<P>(w: World<P>, v: World<P>)
    requires PelFits(w) && v.seen == w.seen && v.db.delivered == w.db.delivered && v.acked == w.acked
    requires forall id :: id in v.db.pel ==> id in w.db.pel
    requires forall id :: id in w.db.stream && id in v.db.pel ==>
        id in v.db.stream && v.db.stream[id] == w.db.stream[id]
    ensures PelFits(v)
  {
  }

  /** Such a command, on the data alone. */
  ghost predicate Shrinks<P>(db: Redis<P>, v: Redis<P>) {
    && v.delivered == db.delivered
    && (forall id :: id in v.pel ==> id in db.pel)
    && (forall id :: id in db.stream && id in v.pel ==> id in v.stream && v.stream[id] == db.stream[id])
  }

  lemma RequeueShrinks<P>(db: Redis<P>, fields: Fields<P>, id: nat)
    requires forall i :: i in db.stream ==> i <= db.lastId
    ensures Shrinks(db, RequeueScript(db, fields, id))
  {
  }

  lemma RouteShrinks<P>(db: Redis<P>, fields: Fields<P>, id: nat)
    ensures Shrinks(db, RouteDlqScript(db, fields, id)) && Shrinks(db, XAddDlq(db, fields))
  {
  }

  lemma ScheduleShrinks<P>(db: Redis<P>, m: Envelope<P>, score: int, id: nat, delete: bool)
    ensures Shrinks(db, ZAddAckScript(db, m, score, id, delete))
  {
  }

  lemma DeadShrinks<P>(cfg: Config<P>, db: Redis<P>, u: Task<P>, reason: string)
    ensures Shrinks(db, DeadOf(cfg, db, u, reason))
  {
    hide EncodedDead;
    RouteShrinks(db, EncodedDead(u.payload, u.retryCount, u.headers, reason), u.id);
  }

  lemma FailShrinks<P>(cfg: Config<P>, db: Redis<P>, t: Task<P>, reason: string, score: int)
    requires forall id :: id in db.stream ==> id <= db.lastId
    ensures Shrinks(db, RetriedOf(cfg, db, t, reason, score))
  {
    var u := t.(retryCount := t.retryCount + 1);
    if ShouldDLQ(cfg.maxRetries, u.retryCount) {
      DeadShrinks(cfg, db, u, reason);
    } else if !cfg.async {
      RequeueShrinks(db, Encoded(u.payload, u.retryCount, u.headers), u.id);
    } else if ShouldDLQ(cfg.asyncMaxRetries, u.retryCount) {
      DeadShrinks(cfg, db, u, "max retries exceeded");
    } else {
      ScheduleShrinks(db, EnvelopeOf(u), score, u.id, cfg.deleteOnAck);
    }
  }

  lemma ReadableDecodes<P>(id: nat, fields: Fields<P>)
    requires Readable(fields)
    ensures Decode(id, fields).Ok? && Decode(id, fields).task.id == id
  {
  }

  lemma DeliveredIsHanded<P>(db: Redis<P>, ids: seq<nat>, i: nat, seen: set<Task<P>>)
    requires i < |ids| && ids[i] in db.stream && Readable(db.stream[ids[i]])
    ensures Handed(db.stream, seen + HandedOut(db, ids), ids[i])
  {
    ReadableDecodes(ids[i], db.stream[ids[i]]);
  }

  lemma HandedOutIds<P>(db: Redis<P>, ids: seq<nat>, t: Task<P>) returns (i: nat)
    requires t in HandedOut(db, ids)
    ensures i < |ids| && t.id == ids[i]
  {
    i :| 0 <= i < |ids| && ids[i] in db.stream && Decode(ids[i], db.stream[ids[i]]).Ok?
      && Decode(ids[i], db.stream[ids[i]]).task == t;
  }

  lemma BatchRises<P>(db: Redis<P>, n: nat)
    requires n <= |Undelivered(db)|
    ensures forall i :: 0 <= i < n ==>
        var id := Undelivered(db)[..n][i]; id in db.stream && db.delivered < id <= Undelivered(db)[..n][n - 1]
  {
  }

  lemma DeliverKeepsPel<P>(cfg: Config<P>, w: World<P>, consumer: string, n: nat)
    requires WellFormed(w) && PelFits(w) && Enabled(w, Deliver(consumer, n))
    ensures PelFits(After(cfg, w, Deliver(consumer, n)))
  {
    hide Handed, HandedOut, Decode, Undelivered;
    var ids := Undelivered(w.db)[..n];
    var v := After(cfg, w, Deliver(consumer, n));
    BatchRises(w.db, n);
    forall id | id in v.db.pel
      ensures id <= v.db.delivered && Handed(v.db.stream, v.seen, id) && id !in v.acked
    {
      if id in ids {
        var i :| 0 <= i < n && ids[i] == id;
        DeliveredIsHanded(w.db, ids, i, w.seen);
      } else {
        HandedStays(w.db.stream, w.seen, v.seen, id);
      }
    }
    forall t | t in HandedOut(w.db, ids)
      ensures t.id <= v.db.delivered
    {
      var i := HandedOutIds(w.db, ids, t);
    }
  }

  lemma HandedStays<P>(stream: map<nat, Fields<P>>, seen: set<Task<P>>, more: set<Task<P>>, id: nat)
    requires Handed(stream, seen, id) && seen <= more
    ensures Handed(stream, more, id)
  {
  }

  lemma StepKeepsPel<P>(cfg: Config<P>, w: World<P>, e: Event<P>)
    requires WellFormed(w) && PelFits(w) && Enabled(w, e)
    ensures PelFits(After(cfg, w, e))
  {
    hide Decode, Encoded, EncodedDead, Replayed, RetriedOf, HandedOut;
    if e.Deliver? {
      DeliverKeepsPel(cfg, w, e.consumer, e.n);
    } else if e.FailTask? {
      FailShrinks(cfg, w.db, e.task, e.reason, e.score);
      NothingDelivered(w, After(cfg, w, e));
    }
  }

  lemma {:induction false} RunPel<P>(cfg: Config<P>, es: seq<Event<P>>)
    requires Run(cfg, es).Some?
    ensures WellFormed(Run(cfg, es).value) && PelFits(Run(cfg, es).value)
  {
    if es != [] {
      var w := Run(cfg, es[..|es| - 1]).value;
      RunPel(cfg, es[..|es| - 1]);
      StepKeepsWellFormed(cfg, w, es[|es| - 1]);
      StepKeepsPel(cfg, w, es[|es| - 1]);
    }
  }

  /** In every reachable state PopPending and RecoverStale return tasks that were handed out before, and
      nothing they read fails to decode. */
  lemma PendingReadsAreKnown<P>(cfg: Config<P>, es: seq<Event<P>>, ids: seq<nat>)
    requires Run(cfg, es).Some?
    requires forall i :: 0 <= i < |ids| ==> ids[i] in Run(cfg, es).value.db.pel
    ensures var w := Run(cfg, es).value;
            && SiftedOf(cfg, w.db, EntriesOf(w.db, ids)) == w.db
            && |TasksOf(EntriesOf(w.db, ids))| == |ids|
            && forall i :: 0 <= i < |ids| ==> TasksOf(EntriesOf(w.db, ids))[i] in w.seen
  {
    RunPel(cfg, es);
    var w := Run(cfg, es).value;
    CleanBatch(cfg, w.db, EntriesOf(w.db, ids));
  }

  // ----- Uninterrupted operations are runs of the protocol -----

  lemma Extend<P>(cfg: Config<P>, es: seq<Event<P>>, e: Event<P>)
    requires Run(cfg, es).Some? && Enabled(Run(cfg, es).value, e)
    ensures Run(cfg, es + [e]) == Some(After(cfg, Run(cfg, es).value, e))
    ensures AllSafe(cfg, es) && Safe(cfg, Run(cfg, es).value, e) ==> AllSafe(cfg, es + [e])
  {
    assert (es + [e])[..|es|] == es;
  }

  /** Pop is one delivery: it returns the tasks handed out, in stream order. */
  lemma PopIsDelivery<P>(cfg: Config<P>, es: seq<Event<P>>, n: nat)
    requires Run(cfg, es).Some? && Run(cfg, es).value.db.grouped
    ensures var db := Run(cfg, es).value.db;
            var ids := Take(Undelivered(db), n);
            var v := Run(cfg, es + [Deliver(cfg.consumer, |ids|)]);
            && v.Some?
            && v.value.db == SiftedOf(cfg, XReadNew(db, ids, cfg.consumer), EntriesOf(db, ids))
            && |TasksOf(EntriesOf(db, ids))| == |ids|
            && forall i :: 0 <= i < |ids| ==> TasksOf(EntriesOf(db, ids))[i] in v.value.seen
  {
    hide Encoded, EncodedDead;
    RunPel(cfg, es);
    var db := Run(cfg, es).value.db;
    var ids := Take(Undelivered(db), n);
    Extend(cfg, es, Deliver(cfg.consumer, |ids|));
    assert Undelivered(db)[..|ids|] == ids;
    forall i | 0 <= i < |ids|
      ensures Decode(ids[i], db.stream[ids[i]]).Ok?
    {
      assert Readable(db.stream[ids[i]]);
    }
    CleanBatch(cfg, XReadNew(db, ids, cfg.consumer), EntriesOf(db, ids));
  }

  /** One member of a pass: the XADD, then the ZREM. */
  lemma MatureOne<P>(cfg: Config<P>, es: seq<Event<P>>, m: Envelope<P>)
    requires Run(cfg, es).Some? && AllSafe(cfg, es) && m in Run(cfg, es).value.read
    ensures var run := es + [AddMember(m)] + [RemoveMember(m)];
            && Run(cfg, run).Some? && AllSafe(cfg, run)
            && Run(cfg, run).value.read == Run(cfg, es).value.read
            && Run(cfg, run).value.db ==
              ZRem(XAdd(Run(cfg, es).value.db, Encoded(m.payload, m.retryCount, m.headers)), m)
  {
    hide Run, AllSafe, Encoded, HasCopy, HasOtherCopy;
    Extend(cfg, es, AddMember(m));
    Extend(cfg, es + [AddMember(m)], RemoveMember(m));
  }

  /** A pass of matureAsyncRetries over members it has read is a run of the protocol. */
  lemma {:induction false} MaturePassIsRun<P>(cfg: Config<P>, es: seq<Event<P>>,
      due: seq<Envelope<P>>) returns (run: seq<Event<P>>)
    requires Run(cfg, es).Some? && AllSafe(cfg, es)
    requires forall i :: 0 <= i < |due| ==> due[i] in Run(cfg, es).value.read
    ensures Run(cfg, run).Some? && AllSafe(cfg, run)
    ensures Run(cfg, run).value.db == MaturedOf(Run(cfg, es).value.db, due)
    ensures Run(cfg, run).value.read == Run(cfg, es).value.read
  {
    if due == [] {
      run := es;
    } else {
      var before := MaturePassIsRun(cfg, es, due[..|due| - 1]);
      MatureOne(cfg, before, due[|due| - 1]);
      run := before + [AddMember(due[|due| - 1])] + [RemoveMember(due[|due| - 1])];
    }
  }

  /** Handling a task to the end is: the handler's return, then the XACK and perhaps the XDEL, or the retry. */
  lemma HandlingIsRun<P>(cfg: Config<P>, es: seq<Event<P>>, t: Task<P>, outcome: HandlerOutcome, reason: string,
      score: int)
    returns (run: seq<Event<P>>)
    requires Run(cfg, es).Some? && t in Run(cfg, es).value.seen
    ensures Run(cfg, run).Some?
    ensures Run(cfg, run).value.db == if outcome == Errored then RetriedOf(cfg, Run(cfg, es).value.db, t, reason, score)
                                      else AckOf(cfg, Run(cfg, es).value.db, t.id)
  {
    if outcome == Errored {
      Extend(cfg, es, FailTask(t, reason, score));
      run := es + [FailTask(t, reason, score)];
    } else {
      Extend(cfg, es, HandlerDone(t));
      run := es + [HandlerDone(t)];
      Extend(cfg, run, SendAck(t));
      run := run + [SendAck(t)];
      if cfg.deleteOnAck {
        Extend(cfg, run, SendDel(t));
        run := run + [SendDel(t)];
      }
    }
  }

  // ----- Where the guard is needed -----

  ghost predicate Lost<P>(w: World<P>, p: P) {
    p in w.published && p !in w.settled && !HasCopy(w.db, p, 0)
  }

  /** A step of any kind keeps the invariant exactly if it is safe. */
  lemma CoveredExactly<P>(cfg: Config<P>, w: World<P>, e: Event<P>)
    requires WellFormed(w) && PelFits(w) && Covered(w) && Enabled(w, e)
    ensures Covered(After(cfg, w, e)) <==> Safe(cfg, w, e)
  {
    if Safe(cfg, w, e) {
      StepKeepsCovered(cfg, w, e);
    } else if e.RefusedAdd? {
      assert e.member in After(cfg, w, e).owed;
    } else {
      UnsafeDrop(cfg, w, e.task, e.reason, e.score);
    }
  }

  lemma UnsafeDrop<P>(cfg: Config<P>, w: World<P>, t: Task<P>, reason: string, score: int)
    requires WellFormed(w) && PelFits(w) && t in w.seen && !Safe(cfg, w, FailTask(t, reason, score))
    ensures !Covered(After(cfg, w, FailTask(t, reason, score)))
  {
    hide HasCopy, HasOtherCopy;
    var v := After(cfg, w, FailTask(t, reason, score));
    assert v.db == AckOf(cfg, w.db, t.id);
    if t.payload in w.published && !HasOtherCopy(w.db, t, 0) {
      DroppedExactly(cfg, w, t, 0);
    } else {
      var m :| m in w.owed && m.payload == t.payload && !HasOtherCopy(w.db, t, m.id);
      DroppedExactly(cfg, w, t, m.id);
      assert m in v.owed;
    }
  }

  /** The failure that exhausts the retries keeps the message exactly if there is a DLQ, or another copy of it. */
  lemma ExhaustedKeptExactly<P>(cfg: Config<P>, w: World<P>, t: Task<P>, reason: string, score: int)
    requires WellFormed(w) && t in w.seen && Live(w.db, t.id) && t.id in w.db.pel && t.id <= w.db.delivered
    requires Exhausted(cfg, t)
    ensures HasCopy(RetriedOf(cfg, w.db, t, reason, score), t.payload, 0) <==> cfg.hasDlq || HasOtherCopy(w.db, t, 0)
  {
    var db' := RetriedOf(cfg, w.db, t, reason, score);
    if cfg.hasDlq {
      assert InStream(w.db, t.payload, 0);
      FailKeeps(cfg, w, t, reason, score, t.payload, 0);
    } else {
      assert db' == AckOf(cfg, w.db, t.id);
      DroppedExactly(cfg, w, t, 0);
    }
  }

  lemma DroppedExactly<P>(cfg: Config<P>, w: World<P>, t: Task<P>, k: nat)
    requires WellFormed(w) && t in w.seen && t.id <= w.db.delivered
    ensures HasCopy(AckOf(cfg, w.db, t.id), t.payload, k) <==> HasOtherCopy(w.db, t, k)
  {
    var db, db' := w.db, AckOf(cfg, w.db, t.id);
    if InStream(db', t.payload, k) {
      var id :| Live(db', id) && k < id && Holds(db'.stream[id], t.payload);
      assert Live(db, id) && id != t.id;
    }
    if HasOtherCopy(db, t, k) {
      OtherIsKept(cfg, db, t, k);
    }
  }

  /** A member whose pipelined XADD was refused is removed all the same; what is left of its message is what
      lay elsewhere before. */
  lemma RefusedKeptExactly<P>(cfg: Config<P>, w: World<P>, m: Envelope<P>)
    requires Enabled(w, RefusedAdd(m))
    ensures var v := After(cfg, w, RefusedAdd(m));
            && Enabled(v, RemoveMember(m))
            && (HasCopy(After(cfg, v, RemoveMember(m)).db, m.payload, 0)
                <==> InStream(w.db, m.payload, 0) || InDlq(w.db, m.payload)
                     || exists n :: n in w.db.zset && 0 < n.id && n != m && n.payload == m.payload)
  {
    var db' := ZRem(w.db, m);
    if InStream(w.db, m.payload, 0) {
      var id :| Live(w.db, id) && 0 < id && Holds(w.db.stream[id], m.payload);
      assert Live(db', id);
    }
    if InStream(db', m.payload, 0) {
      var id :| Live(db', id) && 0 < id && Holds(db'.stream[id], m.payload);
      assert Live(w.db, id);
    }
    if n :| n in w.db.zset && 0 < n.id && n != m && n.payload == m.payload {
      assert n in db'.zset;
    }
    assert db'.dlq == w.db.dlq;
  }

  // A fresh queue with its first message delivered, failed and scheduled, step by step.

  lemma FirstStep<P>(cfg: Config<P>, e: Event<P>)
    requires e == CreateGroup || e.Publish?
    ensures Run(cfg, [e]) == Some(After(cfg, Fresh(), e))
  {
    Extend(cfg, [], e);
    assert [] + [e] == [e];
  }

  lemma Grouped<P>(cfg: Config<P>) returns (es: seq<Event<P>>, w: World<P>)
    ensures Run(cfg, es) == Some(w)
    ensures w == Fresh().(db := EmptyRedis().(grouped := true))
  {
    es := [CreateGroup];
    w := After(cfg, Fresh(), CreateGroup);
    FirstStep(cfg, CreateGroup);
  }

  lemma Published<P>(cfg: Config<P>, es: seq<Event<P>>, w: World<P>, msg: Message<P>, fields: Fields<P>)
    requires Run(cfg, es) == Some(w) && w.db.grouped && fields == Encoded(msg.payload, 0, msg.headers)
    ensures Run(cfg, es + [Publish(msg)]) ==
        Some(w.(db := XAdd(w.db, fields), published := w.published + {msg.payload}))
  {
    Extend(cfg, es, Publish(msg));
  }

  lemma OnlyOne<P>(s: set<P>, p: P)
    requires s == {}
    ensures s + {p} == {p}
  {
  }

  lemma OneEntry<P>(fields: Fields<P>)
    ensures XAdd(EmptyRedis().(grouped := true), fields) == Redis(map[1 := fields], 1, true, 0, map[], map[], map[], 0)
  {
    assert EmptyRedis<P>().stream[1 := fields] == map[1 := fields];
  }

  lemma FirstDelivered<P>(cfg: Config<P>, es: seq<Event<P>>, w: World<P>, fields: Fields<P>, t: Task<P>)
    requires Run(cfg, es) == Some(w) && w.db == Redis(map[1 := fields], 1, true, 0, map[], map[], map[], 0)
    requires Decode(1, fields) == Ok(t)
    ensures Run(cfg, es + [Deliver("c", 1)]).Some?
    ensures var v := Run(cfg, es + [Deliver("c", 1)]).value;
            v == w.(db := Redis(map[1 := fields], 1, true, 1, v.db.pel, map[], map[], 0), seen := w.seen + {t})
  {
    hide Decode;
    assert Undelivered(w.db) == [1] by {
      assert IdsIn(w.db.stream.Keys, 0, 0) == [];
    }
    Extend(cfg, es, Deliver("c", 1));
    var ids := Undelivered(w.db)[..1];
    assert ids == [1];
    assert HandedOut(w.db, ids) == {t} by {
      assert ids[0] in w.db.stream && Decode(ids[0], w.db.stream[ids[0]]).task == t;
    }
  }

  lemma FirstScheduled<P>(cfg: Config<P>, es: seq<Event<P>>, w: World<P>, fields: Fields<P>, t: Task<P>)
    requires cfg.async && cfg.deleteOnAck && !Exhausted(cfg, t) && t.id == 1
    requires Run(cfg, es) == Some(w) && t in w.seen
    requires w.db.stream == map[1 := fields] && w.db.zset == map[] && w.db.dlq == map[]
    ensures Run(cfg, es + [FailTask(t, "", 0)]).Some?
    ensures var v := Run(cfg, es + [FailTask(t, "", 0)]).value;
            && v.db.stream == map[] && v.db.dlq == map[] && v.published == w.published && v.settled == w.settled
            && v.db.zset == map[EnvelopeOf(t.(retryCount := t.retryCount + 1)) := 0]
  {
    Extend(cfg, es, FailTask(t, "", 0));
  }

  lemma RefusedAndRemoved<P>(cfg: Config<P>, es: seq<Event<P>>, w: World<P>, m: Envelope<P>)
    requires Run(cfg, es) == Some(w) && m in w.db.zset
    ensures var run := es + [ReadMember(m)] + [RefusedAdd(m)] + [RemoveMember(m)];
            && Run(cfg, run).Some?
            && Run(cfg, run).value.db == ZRem(w.db, m)
            && Run(cfg, run).value.published == w.published && Run(cfg, run).value.settled == w.settled
  {
    Extend(cfg, es, ReadMember(m));
    Extend(cfg, es + [ReadMember(m)], RefusedAdd(m));
    Extend(cfg, es + [ReadMember(m)] + [RefusedAdd(m)], RemoveMember(m));
  }

  lemma ScheduledThenRefused<P>(cfg: Config<P>, es: seq<Event<P>>, w: World<P>, fields: Fields<P>, t: Task<P>)
      returns (run: seq<Event<P>>)
    requires Run(cfg, es) == Some(w) && w.db == Redis(map[1 := fields], 1, true, 0, map[], map[], map[], 0)
    requires w.published == {t.payload} && w.settled == {}
    requires Decode(1, fields) == Ok(t) && t.id == 1
    requires cfg.async && cfg.deleteOnAck && !Exhausted(cfg, t)
    ensures Run(cfg, run).Some? && Lost(Run(cfg, run).value, t.payload)
  {
    FirstDelivered(cfg, es, w, fields, t);
    run := es + [Deliver("c", 1)];
    FirstScheduled(cfg, run, Run(cfg, run).value, fields, t);
    run := run + [FailTask(t, "", 0)];
    var m := EnvelopeOf(t.(retryCount := t.retryCount + 1));
    RefusedAndRemoved(cfg, run, Run(cfg, run).value, m);
    run := run + [ReadMember(m)] + [RefusedAdd(m)] + [RemoveMember(m)];
  }

  /** If the server refuses the pipelined XADD of a maturation pass, the ZREM that follows loses the message. */
  lemma LostOnRefusedAdd<P>(cfg: Config<P>, msg: Message<P>, t: Task<P>) returns (es: seq<Event<P>>)
    requires t == Task(1, msg.payload, msg.headers, 0)
    requires cfg.async && cfg.deleteOnAck && !Exhausted(cfg, t)
    ensures Run(cfg, es).Some? && Lost(Run(cfg, es).value, msg.payload)
  {
    var w;
    var fields := Encoded(msg.payload, 0, msg.headers);
    es, w := Grouped(cfg);
    Published(cfg, es, w, msg, fields);
    es := es + [Publish(msg)];
    OnlyOne(w.published, msg.payload);
    w := w.(db := XAdd(w.db, fields), published := {msg.payload});
    OneEntry(fields);
    RoundTrip(1, msg.payload, 0, msg.headers);
    es := ScheduledThenRefused(cfg, es, w, fields, t);
  }

  // ----- Before and after the group exists -----

  /** Nothing has happened to the entries of a stream without a group. */
  ghost predicate Untouched<P>(w: World<P>) {
    && w.db.pel == map[] && w.db.zset == map[] && w.db.dlq == map[]
    && w.seen == {} && w.read == {} && w.owed == {} && w.replays == map[] && w.published == {}
    && w.db.delivered <= w.db.lastId && forall id :: id in w.db.stream ==> id <= w.db.lastId
  }

  lemma {:induction false} RunUntouched<P>(cfg: Config<P>, es: seq<Event<P>>)
    requires Run(cfg, es).Some? && !Run(cfg, es).value.db.grouped
    ensures Untouched(Run(cfg, es).value)
  {
    hide Encoded;
    if es != [] {
      var w, e := Run(cfg, es[..|es| - 1]).value, es[|es| - 1];
      if e != CreateGroup {
        GroupStays(cfg, w, e);
      }
      RunUntouched(cfg, es[..|es| - 1]);
      UntouchedStep(cfg, w, e);
    }
  }

  lemma ScriptsKeepGroup<P>(db: Redis<P>, fields: Fields<P>, id: nat, m: Envelope<P>, score: int, delete: bool)
    ensures RouteDlqScript(db, fields, id).grouped == RequeueScript(db, fields, id).grouped == db.grouped
    ensures ZAddAckScript(db, m, score, id, delete).grouped == XAddDlq(db, fields).grouped == db.grouped
  {
  }

  lemma DeadKeepsGroup<P>(cfg: Config<P>, db: Redis<P>, u: Task<P>, reason: string)
    ensures DeadOf(cfg, db, u, reason).grouped == db.grouped
  {
    hide EncodedDead, RouteDlqScript, XAddDlq;
    ScriptsKeepGroup(db, EncodedDead(u.payload, u.retryCount, u.headers, reason), u.id, EnvelopeOf(u), 0, false);
  }

  lemma FailKeepsGroup<P>(cfg: Config<P>, db: Redis<P>, t: Task<P>, reason: string, score: int)
    ensures RetriedOf(cfg, db, t, reason, score).grouped == db.grouped
  {
    hide DeadOf, Encoded, RequeueScript, ZAddAckScript;
    var u := t.(retryCount := t.retryCount + 1);
    DeadKeepsGroup(cfg, db, u, reason);
    DeadKeepsGroup(cfg, db, u, "max retries exceeded");
    ScriptsKeepGroup(db, Encoded(u.payload, u.retryCount, u.headers), u.id, EnvelopeOf(u), score, cfg.deleteOnAck);
  }

  /** Only its creation changes whether the group exists. */
  lemma GroupStays<P>(cfg: Config<P>, w: World<P>, e: Event<P>)
    requires Enabled(w, e) && e != CreateGroup
    ensures After(cfg, w, e).db.grouped == w.db.grouped
  {
    hide Encoded, EncodedDead, Replayed, RetriedOf;
    if e.FailTask? {
      FailKeepsGroup(cfg, w.db, e.task, e.reason, e.score);
    }
  }

  lemma UntouchedStep<P>(cfg: Config<P>, w: World<P>, e: Event<P>)
    requires Untouched(w) && Enabled(w, e) && !After(cfg, w, e).db.grouped
    ensures Untouched(After(cfg, w, e))
  {
    hide Encoded, EncodedDead, Replayed;
  }

  /** In every run, what is published before the group exists has no copy once the group is created: the group
      starts after it. */
  lemma LostBeforeGroup<P>(cfg: Config<P>, es: seq<Event<P>>, p: P)
    requires Run(cfg, es).Some? && !Run(cfg, es).value.db.grouped
    ensures !HasCopy(XGroupCreate(Run(cfg, es).value.db), p, 0)
  {
    RunUntouched(cfg, es);
  }

  /** All copies are of payloads published since the group exists. */
  ghost predicate From<P>(fields: Fields<P>, ps: set<P>) {
    Readable(fields) ==> fields[PayloadField].payload in ps
  }

  ghost predicate Supplied<P>(db: Redis<P>, ps: set<P>) {
    && (forall id :: Live(db, id) ==> From(db.stream[id], ps))
    && (forall m :: m in db.zset ==> m.payload in ps)
    && (forall id :: id in db.dlq ==> From(db.dlq[id], ps))
  }

  ghost predicate Sourced<P>(w: World<P>) {
    && Supplied(w.db, w.published)
    && (forall t :: t in w.seen ==> t.payload in w.published)
    && (forall m :: m in w.read ==> m.payload in w.published)
    && (forall id :: id in w.replays ==> From(w.replays[id], w.published))
  }

  lemma OnlyPayload<P>(payload: P, retryCount: int, headers: map<string, string>, reason: string, ps: set<P>)
    requires payload in ps
    ensures From(Encoded(payload, retryCount, headers), ps)
        && From(EncodedDead(payload, retryCount, headers, reason), ps)
  {
    EncodedHolds(payload, retryCount, headers, reason);
  }

  /** A command that revives nothing. */
  lemma FewerSupplied<P>(db: Redis<P>, v: Redis<P>, ps: set<P>)
    requires Supplied(db, ps)
    requires forall id :: Live(v, id) ==> Live(db, id) && v.stream[id] == db.stream[id]
    requires forall m :: m in v.zset ==> m in db.zset
    requires forall id :: id in v.dlq ==> id in db.dlq && v.dlq[id] == db.dlq[id]
    ensures Supplied(v, ps)
  {
    hide From, Live;
  }

  lemma AddSupplied<P>(db: Redis<P>, fields: Fields<P>, ps: set<P>)
    requires Supplied(db, ps) && From(fields, ps)
    ensures Supplied(XAdd(db, fields), ps)
  {
    hide From;
  }

  lemma DropSupplied<P>(db: Redis<P>, id: nat, ps: set<P>)
    requires Supplied(db, ps)
    ensures Supplied(XAck(db, id), ps) && Supplied(XDel(db, id), ps) && Supplied(XDel(XAck(db, id), id), ps)
  {
    FewerSupplied(db, XAck(db, id), ps);
    FewerSupplied(db, XDel(db, id), ps);
    FewerSupplied(db, XDel(XAck(db, id), id), ps);
  }

  lemma RequeueSupplied<P>(db: Redis<P>, fields: Fields<P>, id: nat, ps: set<P>)
    requires Supplied(db, ps) && From(fields, ps)
    ensures Supplied(RequeueScript(db, fields, id), ps)
  {
    hide Supplied;
    AddSupplied(db, fields, ps);
    DropSupplied(XAdd(db, fields), id, ps);
  }

  lemma DlqSupplied<P>(db: Redis<P>, fields: Fields<P>, ps: set<P>)
    requires Supplied(db, ps) && From(fields, ps)
    ensures Supplied(XAddDlq(db, fields), ps)
  {
    hide From;
    assert forall id :: Live(XAddDlq(db, fields), id) ==> Live(db, id);
  }

  lemma RouteSupplied<P>(db: Redis<P>, fields: Fields<P>, id: nat, ps: set<P>)
    requires Supplied(db, ps) && From(fields, ps)
    ensures Supplied(RouteDlqScript(db, fields, id), ps) && Supplied(XAddDlq(db, fields), ps)
  {
    hide Supplied;
    DlqSupplied(db, fields, ps);
    DropSupplied(XAddDlq(db, fields), id, ps);
  }

  lemma ZAddSupplied<P>(db: Redis<P>, m: Envelope<P>, score: int, ps: set<P>)
    requires Supplied(db, ps) && m.payload in ps
    ensures Supplied(ZAdd(db, m, score), ps)
  {
    hide From;
    assert forall id :: Live(ZAdd(db, m, score), id) ==> Live(db, id);
  }

  lemma ScheduleSupplied<P>(db: Redis<P>, m: Envelope<P>, score: int, id: nat, delete: bool, ps: set<P>)
    requires Supplied(db, ps) && m.payload in ps
    ensures Supplied(ZAddAckScript(db, m, score, id, delete), ps)
  {
    hide Supplied;
    ZAddSupplied(db, m, score, ps);
    DropSupplied(ZAdd(db, m, score), id, ps);
  }

  lemma DeadSupplied<P>(cfg: Config<P>, db: Redis<P>, u: Task<P>, reason: string, ps: set<P>)
    requires Supplied(db, ps) && u.payload in ps
    ensures Supplied(DeadOf(cfg, db, u, reason), ps)
  {
    hide Supplied, From, EncodedDead;
    OnlyPayload(u.payload, u.retryCount, u.headers, reason, ps);
    RouteSupplied(db, EncodedDead(u.payload, u.retryCount, u.headers, reason), u.id, ps);
    DropSupplied(db, u.id, ps);
  }

  lemma FailSupplied<P>(cfg: Config<P>, db: Redis<P>, t: Task<P>, reason: string, score: int, ps: set<P>)
    requires Supplied(db, ps) && t.payload in ps
    ensures Supplied(RetriedOf(cfg, db, t, reason, score), ps)
  {
    hide Supplied, From, Encoded, EncodedDead;
    var u := t.(retryCount := t.retryCount + 1);
    if ShouldDLQ(cfg.maxRetries, u.retryCount) {
      DeadSupplied(cfg, db, u, reason, ps);
    } else if !cfg.async {
      OnlyPayload(u.payload, u.retryCount, u.headers, reason, ps);
      RequeueSupplied(db, Encoded(u.payload, u.retryCount, u.headers), u.id, ps);
    } else if ShouldDLQ(cfg.asyncMaxRetries, u.retryCount) {
      DeadSupplied(cfg, db, u, "max retries exceeded", ps);
    } else {
      ScheduleSupplied(db, EnvelopeOf(u), score, u.id, cfg.deleteOnAck, ps);
    }
  }

  lemma DeliverSupplied<P>(w: World<P>, n: nat, consumer: string)
    requires WellFormed(w) && Sourced(w) && n <= |Undelivered(w.db)|
    ensures var ids := Undelivered(w.db)[..n];
            && Supplied(XReadNew(w.db, ids, consumer), w.published)
            && forall t :: t in HandedOut(w.db, ids) ==> t.payload in w.published
  {
    hide Decode, From, Undelivered, HandedOut;
    var ids := Undelivered(w.db)[..n];
    var v := XReadNew(w.db, ids, consumer);
    BatchRises(w.db, n);
    forall id | Live(v, id)
      ensures Live(w.db, id) && v.stream[id] == w.db.stream[id]
    {
      if id in ids {
        var i :| 0 <= i < n && ids[i] == id;
      }
    }
    FewerSupplied(w.db, v, w.published);
    forall t | t in HandedOut(w.db, ids)
      ensures t.payload in w.published
    {
      HandedSupplied(w, ids, t);
    }
  }

  lemma HandedSupplied<P>(w: World<P>, ids: seq<nat>, t: Task<P>)
    requires Sourced(w) && t in HandedOut(w.db, ids)
    requires forall i :: 0 <= i < |ids| ==> ids[i] > w.db.delivered
    ensures t.payload in w.published
  {
    var i :| 0 <= i < |ids| && ids[i] in w.db.stream && Decode(ids[i], w.db.stream[ids[i]]).Ok?
             && Decode(ids[i], w.db.stream[ids[i]]).task == t;
    assert Live(w.db, ids[i]) && Holds(w.db.stream[ids[i]], t.payload);
  }

  lemma MoreSupplied<P>(db: Redis<P>, ps: set<P>, qs: set<P>)
    requires Supplied(db, ps) && ps <= qs
    ensures Supplied(db, qs)
  {
  }

  lemma PublishSourced<P>(cfg: Config<P>, w: World<P>, msg: Message<P>)
    requires Sourced(w) && w.db.grouped
    ensures Sourced(After(cfg, w, Publish(msg)))
  {
    var ps := w.published + {msg.payload};
    MoreSupplied(w.db, w.published, ps);
    OnlyPayload(msg.payload, 0, msg.headers, "", ps);
    AddSupplied(w.db, Encoded(msg.payload, 0, msg.headers), ps);
  }

  lemma ReplaySourced<P>(cfg: Config<P>, w: World<P>, id: nat)
    requires Sourced(w) && Enabled(w, ReplayDead(id))
    ensures Sourced(After(cfg, w, ReplayDead(id)))
  {
    var fields := Replayed(w.replays[id]);
    ReplayedHolds(w.replays[id]);
    assert From(fields, w.published);
    AddSupplied(w.db, fields, w.published);
    var db := XAdd(w.db, fields);
    FewerSupplied(db, db.(dlq := db.dlq - {id}), w.published);
  }

  lemma StepSourced<P>(cfg: Config<P>, w: World<P>, e: Event<P>)
    requires WellFormed(w) && Sourced(w) && w.db.grouped && Enabled(w, e)
    ensures Sourced(After(cfg, w, e))
  {
    hide Supplied, From, Encoded, EncodedDead, Replayed, WellFormed;
    match e
    case CreateGroup =>
    case Publish(msg) => PublishSourced(cfg, w, msg);
    case Deliver(consumer, n) => DeliverSupplied(w, n, consumer);
    case Claim(consumer, ids) => ClaimSupplied(w.db, ids, consumer, w.published);
    case HandlerDone(_) =>
    case SendAck(t) => DropSupplied(w.db, t.id, w.published);
    case SendDel(t) => DropSupplied(w.db, t.id, w.published);
    case FailTask(t, reason, score) => FailSupplied(cfg, w.db, t, reason, score, w.published);
    case ReadMember(m) => MemberSupplied(w.db, m, w.published);
    case AddMember(m) =>
      OnlyPayload(m.payload, m.retryCount, m.headers, "", w.published);
      AddSupplied(w.db, Encoded(m.payload, m.retryCount, m.headers), w.published);
    case RefusedAdd(_) =>
    case RemoveMember(m) => RemovedSupplied(w.db, m, w.published);
    case ReadDead(id) => EntrySupplied(w.db, id, w.published);
    case ReplayDead(id) => ReplaySourced(cfg, w, id);
  }

  lemma ClaimSupplied<P>(db: Redis<P>, ids: seq<nat>, consumer: string, ps: set<P>)
    requires Supplied(db, ps) && forall i :: 0 <= i < |ids| ==> ids[i] in db.pel
    ensures Supplied(XAutoClaim(db, ids, consumer), ps)
  {
    FewerSupplied(db, XAutoClaim(db, ids, consumer), ps);
  }

  lemma RemovedSupplied<P>(db: Redis<P>, m: Envelope<P>, ps: set<P>)
    requires Supplied(db, ps)
    ensures Supplied(ZRem(db, m), ps)
  {
    FewerSupplied(db, ZRem(db, m), ps);
  }

  lemma MemberSupplied<P>(db: Redis<P>, m: Envelope<P>, ps: set<P>)
    requires Supplied(db, ps) && m in db.zset
    ensures m.payload in ps
  {
  }

  lemma EntrySupplied<P>(db: Redis<P>, id: nat, ps: set<P>)
    requires Supplied(db, ps) && id in db.dlq
    ensures From(db.dlq[id], ps)
  {
  }

  /** A group created on an untouched stream has nothing to deliver. */
  lemma CreatedSourced<P>(cfg: Config<P>, w: World<P>)
    requires Untouched(w) && !w.db.grouped
    ensures Sourced(After(cfg, w, CreateGroup))
  {
  }

  lemma {:induction false} RunSourced<P>(cfg: Config<P>, es: seq<Event<P>>)
    requires Run(cfg, es).Some? && Run(cfg, es).value.db.grouped
    ensures Sourced(Run(cfg, es).value)
  {
    hide Sourced, Untouched;
    if es != [] {
      var init := es[..|es| - 1];
      var w, e := Run(cfg, init).value, es[|es| - 1];
      if w.db.grouped {
        RunSourced(cfg, init);
        RunPel(cfg, init);
        StepSourced(cfg, w, e);
      } else {
        RunUntouched(cfg, init);
        if e != CreateGroup {
          GroupStays(cfg, w, e);
        }
        CreatedSourced(cfg, w);
      }
    }
  }

  /** Once the group exists, a message no handler settled has a copy exactly if it was published since the group
      exists. */
  lemma KeptExactly<P>(cfg: Config<P>, es: seq<Event<P>>, p: P)
    requires Run(cfg, es).Some? && AllSafe(cfg, es) && Run(cfg, es).value.db.grouped
    requires p !in Run(cfg, es).value.settled
    ensures HasCopy(Run(cfg, es).value.db, p, 0) <==> p in Run(cfg, es).value.published
  {
    if p in Run(cfg, es).value.published {
      NoMessageLost(cfg, es, p);
    }
    if HasCopy(Run(cfg, es).value.db, p, 0) {
      RunSourced(cfg, es);
      CopyIsSupplied(Run(cfg, es).value.db, p, Run(cfg, es).value.published);
    }
  }

  lemma CopyIsSupplied<P>(db: Redis<P>, p: P, ps: set<P>)
    requires Supplied(db, ps) && HasCopy(db, p, 0)
    ensures p in ps
  {
  }

  // ----- Whose the pending entries are -----

  /** A delivery of the next n entries, or a claim, hands the entry to this consumer. */
  ghost predicate HandsTo<P>(w: World<P>, e: Event<P>, id: nat, consumer: string) {
    || (e.Deliver? && e.consumer == consumer && id in w.db.stream && w.db.delivered < id <= w.db.lastId
        && |set j | j in w.db.stream && w.db.delivered < j <= w.db.lastId && j < id| < e.n)
    || (e.Claim? && e.consumer == consumer && id in e.ids)
  }

  /** The consumer the entry was last handed to. */
  ghost predicate LastHandedTo<P>(cfg: Config<P>, es: seq<Event<P>>, id: nat, consumer: string) {
    es != []
    && var w, e := Run(cfg, es[..|es| - 1]), es[|es| - 1];
       w.Some? && (HandsTo(w.value, e, id, consumer)
                   || (!HandedOn(w.value, e, id) && LastHandedTo(cfg, es[..|es| - 1], id, consumer)))
  }

  ghost predicate HandedOn<P>(w: World<P>, e: Event<P>, id: nat) {
    (e.Deliver? || e.Claim?) && HandsTo(w, e, id, e.consumer)
  }

  lemma DeliverHands<P>(cfg: Config<P>, w: World<P>, consumer: string, n: nat, id: nat)
    requires Enabled(w, Deliver(consumer, n))
    ensures HandsTo(w, Deliver(consumer, n), id, consumer) <==> id in Undelivered(w.db)[..n]
  {
    TakenExactly(w.db.stream.Keys, w.db.delivered, w.db.lastId, n, id);
    assert (set j | j in w.db.stream.Keys && w.db.delivered < j <= w.db.lastId && j < id) ==
      set j | j in w.db.stream && w.db.delivered < j <= w.db.lastId && j < id;
  }

  /** One step hands an entry over, or leaves it pending where it was, or takes it off the list. */
  lemma StepHands<P>(cfg: Config<P>, w: World<P>, e: Event<P>, id: nat)
    requires WellFormed(w) && PelFits(w) && Enabled(w, e) && id in After(cfg, w, e).db.pel
    ensures if HandedOn(w, e, id) then After(cfg, w, e).db.pel[id] == e.consumer
            else id in w.db.pel && After(cfg, w, e).db.pel[id] == w.db.pel[id]
  {
    hide Encoded, EncodedDead, Replayed, Decode;
    if e.Deliver? {
      DeliverHands(cfg, w, e.consumer, e.n, id);
    } else if e.FailTask? {
      FailShrinksOwners(cfg, w.db, e.task, e.reason, e.score, id);
    }
  }

  lemma DeadKeepsOwners<P>(cfg: Config<P>, db: Redis<P>, u: Task<P>, reason: string, id: nat)
    requires id in DeadOf(cfg, db, u, reason).pel
    ensures id in db.pel && DeadOf(cfg, db, u, reason).pel[id] == db.pel[id]
  {
    hide EncodedDead;
  }

  lemma FailShrinksOwners<P>(cfg: Config<P>, db: Redis<P>, t: Task<P>, reason: string, score: int, id: nat)
    requires id in RetriedOf(cfg, db, t, reason, score).pel
    ensures id in db.pel && RetriedOf(cfg, db, t, reason, score).pel[id] == db.pel[id]
  {
    hide Encoded, DeadOf;
    var u := t.(retryCount := t.retryCount + 1);
    if ShouldDLQ(cfg.maxRetries, u.retryCount) {
      DeadKeepsOwners(cfg, db, u, reason, id);
    } else if cfg.async && ShouldDLQ(cfg.asyncMaxRetries, u.retryCount) {
      DeadKeepsOwners(cfg, db, u, "max retries exceeded", id);
    }
  }

  /** In every reachable state a pending entry belongs to the consumer it was last handed to, and to no other. */
  lemma {:induction false} OwnerExactly<P>(cfg: Config<P>, es: seq<Event<P>>, id: nat, consumer: string)
    requires Run(cfg, es).Some? && id in Run(cfg, es).value.db.pel
    ensures Run(cfg, es).value.db.pel[id] == consumer <==> LastHandedTo(cfg, es, id, consumer)
  {
    hide After, HandsTo, Enabled;
    if es != [] {
      var init, e := es[..|es| - 1], es[|es| - 1];
      var w := Run(cfg, init).value;
      RunPel(cfg, init);
      StepHands(cfg, w, e, id);
      if HandedOn(w, e, id) {
        OneConsumer(w, e, id, consumer);
      } else {
        NotHanded(w, e, id, consumer);
        OwnerExactly(cfg, init, id, consumer);
      }
    }
  }

  lemma OneConsumer<P>(w: World<P>, e: Event<P>, id: nat, consumer: string)
    requires HandedOn(w, e, id)
    ensures HandsTo(w, e, id, consumer) <==> consumer == e.consumer
  {
  }

  lemma NotHanded<P>(w: World<P>, e: Event<P>, id: nat, consumer: string)
    requires !HandedOn(w, e, id)
    ensures !HandsTo(w, e, id, consumer)
  {
  }

  /** So what PopPending reads for one consumer was last handed to it, and two consumers read nothing in common. */
  lemma PendingIsOwn<P>(cfg: Config<P>, es: seq<Event<P>>, a: string, b: string, n: nat, m: nat, id: nat)
    requires Run(cfg, es).Some?
    requires var db := Run(cfg, es).value.db; id in Take(IdsIn(OwnedBy(db.pel, a), 0, db.delivered), n)
    ensures LastHandedTo(cfg, es, id, a)
    ensures var db := Run(cfg, es).value.db;
            a != b ==> id !in Take(IdsIn(OwnedBy(db.pel, b), 0, db.delivered), m)
  {
    OwnerExactly(cfg, es, id, a);
  }

  // ----- Counting retries -----

  /** A failed task that is not out of retries waits with one more retry counted, and the entry a maturation pass
      makes of it decodes to that count. */
  lemma MaturedCounts<P>(cfg: Config<P>, w: World<P>, t: Task<P>, reason: string, score: int)
    requires Enabled(w, FailTask(t, reason, score)) && cfg.async && !Exhausted(cfg, t)
    ensures var m := Envelope(t.id, t.payload, t.headers, t.retryCount + 1);
            var v := After(cfg, w, FailTask(t, reason, score));
            && v.db.zset == w.db.zset[m := score] && v.db.dlq == w.db.dlq && v.db.lastId == w.db.lastId
            && Enabled(v, ReadMember(m)) && m in After(cfg, v, ReadMember(m)).read
  {
    hide Encoded, DeadOf, RequeueScript, RetriedOf;
    ScheduledAs(cfg, w.db, t, reason, score);
  }

  lemma ScheduledAs<P>(cfg: Config<P>, db: Redis<P>, t: Task<P>, reason: string, score: int)
    requires cfg.async && !Exhausted(cfg, t)
    ensures RetriedOf(cfg, db, t, reason, score) ==
              ZAddAckScript(db, Envelope(t.id, t.payload, t.headers, t.retryCount + 1), score, t.id, cfg.deleteOnAck)
  {
    hide Encoded, DeadOf, RequeueScript, ZAddAckScript;
  }

  lemma AddedDecodes<P>(cfg: Config<P>, w: World<P>, m: Envelope<P>)
    requires Enabled(w, AddMember(m))
    ensures var v := After(cfg, w, AddMember(m)).db;
            var id := w.db.lastId + 1;
            && id in v.stream && v.stream - {id} == w.db.stream - {id} && v.lastId == id
            && Decode(id, v.stream[id]) == Ok(Task(id, m.payload, m.headers, m.retryCount))
  {
    hide Decode, Encoded;
    RoundTrip(w.db.lastId + 1, m.payload, m.retryCount, m.headers);
  }

  // ----- What was published and what is settled -----

  ghost predicate Publishes<P>(w: World<P>, e: Event<P>, p: P) {
    e.Publish? && e.msg.payload == p && w.db.grouped
  }

  ghost predicate Settles<P>(e: Event<P>, p: P) {
    e.HandlerDone? && e.task.payload == p
  }

  ghost predicate EverPublished<P>(cfg: Config<P>, es: seq<Event<P>>, p: P) {
    es != []
    && var w := Run(cfg, es[..|es| - 1]);
       (w.Some? && Publishes(w.value, es[|es| - 1], p)) || EverPublished(cfg, es[..|es| - 1], p)
  }

  ghost predicate EverSettled<P>(es: seq<Event<P>>, p: P) {
    es != [] && (Settles(es[|es| - 1], p) || EverSettled(es[..|es| - 1], p))
  }

  /** In every run a message counts as published exactly if it was published when the group existed, and as settled
      exactly if a handler returned for it. */
  lemma {:induction false} SetsExactly<P>(cfg: Config<P>, es: seq<Event<P>>, p: P)
    requires Run(cfg, es).Some?
    ensures p in Run(cfg, es).value.published <==> EverPublished(cfg, es, p)
    ensures p in Run(cfg, es).value.settled <==> EverSettled(es, p)
  {
    hide After, Enabled, Publishes, Settles;
    if es != [] {
      SetsExactly(cfg, es[..|es| - 1], p);
      SetsNext(cfg, Run(cfg, es[..|es| - 1]).value, es[|es| - 1], p);
    }
  }

  lemma SetsNext<P>(cfg: Config<P>, w: World<P>, e: Event<P>, p: P)
    requires Enabled(w, e)
    ensures p in After(cfg, w, e).published <==> p in w.published || Publishes(w, e, p)
    ensures p in After(cfg, w, e).settled <==> p in w.settled || Settles(e, p)
  {
    hide Encoded, Replayed;
  }

  /** A recovery is one claim: all it claims decodes, and none is routed away. */
  lemma RecoverIsClaim<P>(cfg: Config<P>, es: seq<Event<P>>, ids: seq<nat>)
    requires Run(cfg, es).Some? && forall i :: 0 <= i < |ids| ==> ids[i] in Run(cfg, es).value.db.pel
    ensures var db := Run(cfg, es).value.db;
            var v := Run(cfg, es + [Claim(cfg.consumer, ids)]);
            && v.Some?
            && v.value.db == SiftedOf(cfg, XAutoClaim(db, ids, cfg.consumer), EntriesOf(db, ids))
            && |TasksOf(EntriesOf(db, ids))| == |ids|
            && forall i :: 0 <= i < |ids| ==> TasksOf(EntriesOf(db, ids))[i] in v.value.seen
  {
    hide Encoded, EncodedDead;
    RunPel(cfg, es);
    var db := Run(cfg, es).value.db;
    Extend(cfg, es, Claim(cfg.consumer, ids));
    CleanBatch(cfg, db, EntriesOf(db, ids));
    CleanBatch(cfg, XAutoClaim(db, ids, cfg.consumer), EntriesOf(db, ids));
  }

  /** A replay takes the entry off the DLQ, and appends one with its payload and no retries. */
  lemma ReplayMoves<P>(cfg: Config<P>, w: World<P>, id: nat)
    requires Enabled(w, ReplayDead(id))
    ensures var v, n := After(cfg, w, ReplayDead(id)).db, w.db.lastId + 1;
            && v.dlq == w.db.dlq - {id} && v.lastId == n
            && n in v.stream && v.stream - {n} == w.db.stream - {n}
            && Decode(n, v.stream[n]) ==
                 Ok(Task(n, w.replays[id][PayloadField].payload, TraceContext(HeadersOf(w.replays[id])), 0))
  {
    hide Encoded, HeadersOf, TraceContext;
    ReplayRoundTrip(w.db.lastId + 1, w.replays[id]);
  }
}
