/** The Redis-streams queue (go-ingestion/internal/queue/redisstreams/queue.go). The Redis server is the data
    the commands and Lua scripts in use change; entry IDs are numbers that only grow. */
module RedisStreams {
  import opened QueueTypes
  import opened MessageCodec

  // ----- The server's data and the commands -----

  /** A sorted-set member: the JSON envelope of a scheduled retry. */
  datatype Envelope<P> = Envelope(id: nat, payload: P, headers: map<string, string>, retryCount: int)

  datatype Redis<P(==)> = Redis(
    stream: map<nat, Fields<P>>, lastId: nat,
    grouped: bool, delivered: nat,     // the consumer group and its last-delivered ID
    pel: map<nat, string>,             // pending entries and their consumers
    zset: map<Envelope<P>, int>,       // scheduled retries and their scores
    dlq: map<nat, Fields<P>>, dlqLastId: nat)

  function EmptyRedis<P(==)>(): Redis<P> {
    Redis(map[], 0, false, 0, map[], map[], map[], 0)
  }

  function XAdd<P>(r: Redis<P>, fields: Fields<P>): Redis<P> {
    r.(stream := r.stream[r.lastId + 1 := fields], lastId := r.lastId + 1)
  }

  /** XGROUP CREATE ... $ MKSTREAM: the group starts after the last entry; an existing group is left alone. */
  function XGroupCreate<P>(r: Redis<P>): Redis<P> {
    if r.grouped then r else r.(grouped := true, delivered := r.lastId)
  }

  /** The IDs among keys that are above lo and at most hi, in order. */
  function IdsIn(keys: set<nat>, lo: nat, hi: nat): (ids: seq<nat>)
    ensures forall i :: 0 <= i < |ids| ==> ids[i] in keys && lo < ids[i] <= hi
    ensures forall i, j :: 0 <= i < j < |ids| ==> ids[i] < ids[j]
  {
    if hi <= lo then [] else IdsIn(keys, lo, hi - 1) + if hi in keys then [hi] else []
  }

  function Undelivered<P>(r: Redis<P>): seq<nat> {
    IdsIn(r.stream.Keys, r.delivered, r.lastId)
  }

  function Owning(pel: map<nat, string>, ids: seq<nat>, consumer: string): map<nat, string> {
    map id | id in pel.Keys + (set i | 0 <= i < |ids| :: ids[i]) :: if id in ids then consumer else pel[id]
  }

  /** XREADGROUP with ">": ids are delivered to the consumer. */
  function XReadNew<P>(r: Redis<P>, ids: seq<nat>, consumer: string): Redis<P> {
    if ids == [] then r else r.(delivered := ids[|ids| - 1], pel := Owning(r.pel, ids, consumer))
  }

  function XAck<P>(r: Redis<P>, id: nat): Redis<P> {
    r.(pel := r.pel - {id})
  }

  function XDel<P>(r: Redis<P>, id: nat): Redis<P> {
    r.(stream := r.stream - {id})
  }

  function XAutoClaim<P>(r: Redis<P>, ids: seq<nat>, consumer: string): Redis<P> {
    r.(pel := Owning(r.pel, ids, consumer))
  }

  function ZAdd<P>(r: Redis<P>, member: Envelope<P>, score: int): Redis<P> {
    r.(zset := r.zset[member := score])
  }

  function ZRem<P>(r: Redis<P>, member: Envelope<P>): Redis<P> {
    r.(zset := r.zset - {member})
  }

  function XAddDlq<P>(r: Redis<P>, fields: Fields<P>): Redis<P> {
    r.(dlq := r.dlq[r.dlqLastId + 1 := fields], dlqLastId := r.dlqLastId + 1)
  }

  // The three Lua scripts; each is one atomic step.

  function ZAddAckScript<P>(r: Redis<P>, member: Envelope<P>, score: int, id: nat, deleteOnAck: bool): Redis<P> {
    var added := ZAdd(r, member, score);
    if id == 0 then added
    else if deleteOnAck then XDel(XAck(added, id), id)
    else XAck(added, id)
  }

  function RequeueScript<P>(r: Redis<P>, fields: Fields<P>, id: nat): Redis<P> {
    XDel(XAck(XAdd(r, fields), id), id)
  }

  function RouteDlqScript<P>(r: Redis<P>, fields: Fields<P>, id: nat): Redis<P> {
    XDel(XAck(XAddDlq(r, fields), id), id)
  }

  // ----- What the queue's operations do to the server -----

  /** async: a sorted-set key is configured; noPayload: the nil payload of a task built from an ID alone. */
  datatype Config<P> = Config(
    wired: bool, consumer: string, hasDlq: bool, deleteOnAck: bool, maxRetries: int,
    async: bool, asyncMaxRetries: int, noPayload: P)

  ghost function AckOf<P>(cfg: Config<P>, r: Redis<P>, id: nat): Redis<P> {
    if cfg.deleteOnAck then XDel(XAck(r, id), id) else XAck(r, id)
  }

  /** Without a DLQ the task is dropped. The ID 0 stands for the empty ID. */
  ghost function DeadOf<P>(cfg: Config<P>, r: Redis<P>, t: Task<P>, reason: string): Redis<P> {
    var fields := EncodedDead(t.payload, t.retryCount, t.headers, reason);
    if !cfg.hasDlq then (if t.id != 0 then AckOf(cfg, r, t.id) else r)
    else if t.id == 0 then XAddDlq(r, fields)
    else RouteDlqScript(r, fields, t.id)
  }

  ghost function EnvelopeOf<P>(t: Task<P>): Envelope<P> {
    Envelope(t.id, t.payload, t.headers, t.retryCount)
  }

  ghost function ScheduledOf<P>(cfg: Config<P>, r: Redis<P>, t: Task<P>, score: int): Redis<P> {
    if ShouldDLQ(cfg.asyncMaxRetries, t.retryCount) then DeadOf(cfg, r, t, "max retries exceeded")
    else ZAddAckScript(r, EnvelopeOf(t), score, t.id, cfg.deleteOnAck)
  }

  ghost function RetriedOf<P>(cfg: Config<P>, r: Redis<P>, t: Task<P>, reason: string, score: int): Redis<P> {
    var u := t.(retryCount := t.retryCount + 1);
    if ShouldDLQ(cfg.maxRetries, u.retryCount) then DeadOf(cfg, r, u, reason)
    else if cfg.async then ScheduledOf(cfg, r, u, score)
    else RequeueScript(r, Encoded(u.payload, u.retryCount, u.headers), u.id)
  }

  datatype Entry<P> = Entry(id: nat, fields: Fields<P>)

  /** Decoding a batch: what does not decode goes to the DLQ, with its ID and no payload. */
  ghost function SiftedOf<P>(cfg: Config<P>, r: Redis<P>, batch: seq<Entry<P>>): Redis<P> {
    if batch == [] then r
    else
      var before := SiftedOf(cfg, r, batch[..|batch| - 1]);
      var e := batch[|batch| - 1];
      if Decode(e.id, e.fields).Ok? then before
      else DeadOf(cfg, before, Task(e.id, cfg.noPayload, map[], 0), "decode_error: "
        + ErrorText(Decode(e.id, e.fields).error))
  }

  ghost function TasksOf<P>(batch: seq<Entry<P>>): seq<Task<P>> {
    if batch == [] then []
    else
      var e := batch[|batch| - 1];
      TasksOf(batch[..|batch| - 1]) + if Decode(e.id, e.fields).Ok? then [Decode(e.id, e.fields).task] else []
  }

  /** The entries a read returns; a pending entry no longer in the stream has no fields. */
  ghost function EntriesOf<P>(r: Redis<P>, ids: seq<nat>): (batch: seq<Entry<P>>)
    ensures |batch| == |ids|
  {
    seq(|ids|, i requires 0 <= i < |ids| => Entry(ids[i], if ids[i] in r.stream then r.stream[ids[i]] else map[]))
  }

  /** One pass over matured members: each is added to the stream, then removed from the sorted set. */
  ghost function MaturedOf<P>(r: Redis<P>, members: seq<Envelope<P>>): Redis<P> {
    if members == [] then r
    else
      var m := members[|members| - 1];
      ZRem(XAdd(MaturedOf(r, members[..|members| - 1]), Encoded(m.payload, m.retryCount, m.headers)), m)
  }

  function Take(ids: seq<nat>, n: nat): seq<nat> {
    if n < |ids| then ids[..n] else ids
  }

  // ----- The queue -----

  datatype PopResult<P> = NotConfigured | NoGroup | Empty | Tasks(tasks: seq<Task<P>>)

  // What the operations do to the server, told by what is stored where and what it decodes to.

  /** One new stream entry, which decodes to t under its ID. */
  ghost predicate Appended<P>(r: Redis<P>, v: Redis<P>, t: Task<P>) {
    var id := r.lastId + 1;
    && v.lastId == id && id in v.stream && v == r.(stream := r.stream[id := v.stream[id]], lastId := id)
    && Decode(id, v.stream[id]) == Ok(t.(id := id))
  }

  /** Nothing but the entry is no longer pending, and perhaps no longer in the stream. */
  ghost predicate Settled<P>(r: Redis<P>, v: Redis<P>, id: nat, delete: bool) {
    v == r.(pel := r.pel - {id}, stream := if delete then r.stream - {id} else r.stream)
  }

  /** One new DLQ entry, which decodes to t under its ID and carries the reason. */
  ghost predicate Buried<P>(r: Redis<P>, v: Redis<P>, t: Task<P>, reason: string) {
    var id := r.dlqLastId + 1;
    && v.dlqLastId == id && id in v.dlq && v == r.(dlq := r.dlq[id := v.dlq[id]], dlqLastId := id)
    && Decode(id, v.dlq[id]) == Ok(t.(id := id))
    && ReasonField in v.dlq[id] && v.dlq[id][ReasonField] == Text(reason)
  }

  /** A task given up: without a DLQ it is settled like a success; without an ID it is only buried. */
  ghost predicate GivenUp<P>(cfg: Config<P>, r: Redis<P>, v: Redis<P>, t: Task<P>, reason: string) {
    if !cfg.hasDlq then if t.id == 0 then v == r else Settled(r, v, t.id, cfg.deleteOnAck)
    else if t.id == 0 then Buried(r, v, t, reason)
    else
      var mid := v.(pel := r.pel, stream := r.stream);
      Buried(r, mid, t, reason) && Settled(mid, v, t.id, true)
  }

  ghost predicate Scheduled<P>(cfg: Config<P>, r: Redis<P>, v: Redis<P>, t: Task<P>, score: int) {
    var mid := r.(zset := r.zset[Envelope(t.id, t.payload, t.headers, t.retryCount) := score]);
    if t.id == 0 then v == mid else Settled(mid, v, t.id, cfg.deleteOnAck)
  }

  /** Beyond the asynchronous limit a task is given up, else scheduled. */
  ghost predicate ScheduledOrGivenUp<P>(cfg: Config<P>, r: Redis<P>, v: Redis<P>, t: Task<P>, score: int) {
    if cfg.asyncMaxRetries > 0 && t.retryCount > cfg.asyncMaxRetries then GivenUp(cfg, r, v, t, "max retries exceeded")
    else Scheduled(cfg, r, v, t, score)
  }

  ghost predicate Requeued<P>(r: Redis<P>, v: Redis<P>, t: Task<P>) {
    var id := r.lastId + 1;
    && v == r.(pel := r.pel - {t.id}, stream := v.stream, lastId := id)
    && if t.id == id then v.stream == r.stream - {id}
       else id in v.stream && v.stream == r.stream[id := v.stream[id]] - {t.id}
            && Decode(id, v.stream[id]) == Ok(t.(id := id))
  }

  /** A failed task, with one more retry counted: given up beyond the limit, else scheduled or requeued. */
  ghost predicate FailedTo<P>(cfg: Config<P>, r: Redis<P>, v: Redis<P>, t: Task<P>, reason: string, score: int) {
    var u := t.(retryCount := t.retryCount + 1);
    if cfg.maxRetries > 0 && u.retryCount > cfg.maxRetries then GivenUp(cfg, r, v, u, reason)
    else if cfg.async then ScheduledOrGivenUp(cfg, r, v, u, score)
    else Requeued(r, v, u)
  }

  lemma AppendedExactly<P>(r: Redis<P>, t: Task<P>)
    ensures Appended(r, XAdd(r, Encoded(t.payload, t.retryCount, t.headers)), t)
  {
    hide Encoded, Decode;
    RoundTrip(r.lastId + 1, t.payload, t.retryCount, t.headers);
  }

  lemma GivenUpExactly<P>(cfg: Config<P>, r: Redis<P>, t: Task<P>, reason: string)
    ensures GivenUp(cfg, r, DeadOf(cfg, r, t, reason), t, reason)
  {
    hide Encoded, Decode;
    var fields := EncodedDead(t.payload, t.retryCount, t.headers, reason);
    DeadRoundTrip(r.dlqLastId + 1, t.payload, t.retryCount, t.headers, reason);
    assert Buried(r, XAddDlq(r, fields), t, reason);
  }

  lemma ScheduledExactly<P>(cfg: Config<P>, r: Redis<P>, t: Task<P>, score: int)
    ensures ScheduledOrGivenUp(cfg, r, ScheduledOf(cfg, r, t, score), t, score)
  {
    hide GivenUp, DeadOf;
    GivenUpExactly(cfg, r, t, "max retries exceeded");
  }

  lemma RequeuedExactly<P>(r: Redis<P>, t: Task<P>)
    ensures Requeued(r, RequeueScript(r, Encoded(t.payload, t.retryCount, t.headers), t.id), t)
  {
    hide Encoded, Decode;
    RoundTrip(r.lastId + 1, t.payload, t.retryCount, t.headers);
  }

  lemma RetryBranches<P>(cfg: Config<P>, r: Redis<P>, t: Task<P>, reason: string, score: int)
    ensures var u := t.(retryCount := t.retryCount + 1);
            RetriedOf(cfg, r, t, reason, score) ==
              if ShouldDLQ(cfg.maxRetries, u.retryCount) then DeadOf(cfg, r, u, reason)
              else if cfg.async then ScheduledOf(cfg, r, u, score)
              else RequeueScript(r, Encoded(u.payload, u.retryCount, u.headers), u.id)
  {
    hide DeadOf, ScheduledOf, RequeueScript, Encoded;
  }

  /** Where a failed task goes, for every configuration. */
  lemma FailedExactly<P>(cfg: Config<P>, r: Redis<P>, t: Task<P>, reason: string, score: int)
    ensures FailedTo(cfg, r, RetriedOf(cfg, r, t, reason, score), t, reason, score)
  {
    hide GivenUp, DeadOf, ScheduledOrGivenUp, ScheduledOf, Requeued, RequeueScript, Encoded;
    var u := t.(retryCount := t.retryCount + 1);
    GivenUpExactly(cfg, r, u, reason);
    ScheduledExactly(cfg, r, u, score);
    RequeuedExactly(r, u);
  }

  /** At most batch members whose time has come, none twice, and all of them if they are fewer. */
  ghost predicate IsDue<P>(due: seq<Envelope<P>>, zset: map<Envelope<P>, int>, now: int, batch: nat) {
    && |due| <= batch
    && (forall i :: 0 <= i < |due| ==> due[i] in zset && zset[due[i]] <= now)
    && (forall i, j :: 0 <= i < j < |due| ==> due[i] != due[j])
    && (|due| < batch ==> forall m :: m in zset && zset[m] <= now ==> m in due)
  }

  /** The members are gone from the sorted set, and are new stream entries in their order. */
  ghost predicate Matured<P>(r: Redis<P>, v: Redis<P>, due: seq<Envelope<P>>) {
    && v == r.(stream := v.stream, lastId := r.lastId + |due|, zset := v.zset)
    && v.zset == r.zset - Members(due)
    && (forall id :: id in v.stream <==> id in r.stream || r.lastId < id <= r.lastId + |due|)
    && (forall id :: id in r.stream && !(r.lastId < id <= r.lastId + |due|) ==> v.stream[id] == r.stream[id])
    && forall i :: 0 <= i < |due| ==>
         var id := r.lastId + 1 + i;
         Decode(id, v.stream[id]) == Ok(Task(id, due[i].payload, due[i].headers, due[i].retryCount))
  }

  ghost function Members<P>(due: seq<Envelope<P>>): set<Envelope<P>> {
    set i | 0 <= i < |due| :: due[i]
  }

  lemma MembersNext<P>(due: seq<Envelope<P>>, m: Envelope<P>)
    ensures Members(due + [m]) == Members(due) + {m}
  {
    var all := due + [m];
    assert all[|due|] == m;
    forall e | e in Members(due)
      ensures e in Members(all)
    {
      var i :| 0 <= i < |due| && due[i] == e;
      assert all[i] == e;
    }
  }

  lemma MaturedNext<P>(r: Redis<P>, v: Redis<P>, due: seq<Envelope<P>>, m: Envelope<P>, fields: Fields<P>)
    requires Matured(r, v, due)
    requires var id := r.lastId + |due| + 1;
             Decode(id, fields) == Ok(Task(id, m.payload, m.headers, m.retryCount))
    ensures Matured(r, ZRem(XAdd(v, fields), m), due + [m])
  {
    hide Decode, Members;
    MembersNext(due, m);
  }

  lemma {:induction false} MaturedExactly<P>(r: Redis<P>, due: seq<Envelope<P>>)
    ensures Matured(r, MaturedOf(r, due), due)
  {
    hide Encoded, Decode;
    if due != [] {
      hide Matured;
      var init, m := due[..|due| - 1], due[|due| - 1];
      MaturedExactly(r, init);
      RoundTrip(r.lastId + |due|, m.payload, m.retryCount, m.headers);
      MaturedNext(r, MaturedOf(r, init), init, m, Encoded(m.payload, m.retryCount, m.headers));
      assert due == init + [m];
    }
  }

  // What a read returns, told the same way.

  ghost function Popped<P>(r: PopResult<P>): seq<Task<P>> {
    if r.Tasks? then r.tasks else []
  }

  ghost function FieldsAt<P>(r: Redis<P>, id: nat): Fields<P> {
    if id in r.stream then r.stream[id] else map[]
  }

  ghost predicate InFirst(id: nat, ids: set<nat>, n: nat) {
    id in ids && |set j | j in ids && j < id| < n
  }

  /** What is read are the tasks of the first n of the IDs that decode, in order. */
  ghost predicate Reads<P>(ts: seq<Task<P>>, r: Redis<P>, ids: set<nat>, n: nat) {
    && RisingIds(ts)
    && (forall t :: t in ts ==> InFirst(t.id, ids, n) && Decode(t.id, FieldsAt(r, t.id)) == Ok(t))
    && (forall id :: InFirst(id, ids, n) && Decode(id, FieldsAt(r, id)).Ok? ==> Decode(id, FieldsAt(r, id)).task in ts)
  }

  /** What is read are the tasks of all of the IDs that decode. */
  ghost predicate ReadsAll<P>(ts: seq<Task<P>>, r: Redis<P>, ids: seq<nat>) {
    && (forall t :: t in ts ==> t.id in ids && Decode(t.id, FieldsAt(r, t.id)) == Ok(t))
    && (forall id :: id in ids && Decode(id, FieldsAt(r, id)).Ok? ==> Decode(id, FieldsAt(r, id)).task in ts)
  }

  ghost predicate Owned<P>(ts: seq<Task<P>>, pel: map<nat, string>, consumer: string) {
    forall t :: t in ts ==> t.id in pel && pel[t.id] == consumer
  }

  ghost predicate RisingIds<P>(ts: seq<Task<P>>) {
    forall i, j :: 0 <= i < j < |ts| ==> ts[i].id < ts[j].id
  }

  class Server<P(==)> {
    var db: Redis<P>

    constructor ()
      ensures db == EmptyRedis()
    {
      db := EmptyRedis();
    }
  }

  class Queue<P(==)> {
    const server: Server<P>
    const cfg: Config<P>
    var recoverCursor: nat

    constructor (server: Server<P>, cfg: Config<P>)
      modifies server
      ensures this.server == server && this.cfg == cfg && recoverCursor == 0
      ensures server.db == if cfg.wired then XGroupCreate(old(server.db)) else old(server.db)
    {
      this.server, this.cfg, recoverCursor := server, cfg, 0;
      new;
      if cfg.wired {
        server.db := XGroupCreate(server.db);
      }
    }

    method Publish(msg: Message<P>)
      modifies server
      ensures server.db == XAdd(old(server.db), Encoded(msg.payload, 0, msg.headers))
      ensures Appended(old(server.db), server.db, Task(0, msg.payload, msg.headers, 0))
    {
      AppendedExactly(server.db, Task(0, msg.payload, msg.headers, 0));
      hide Appended;
      var values := Encode(msg.payload, 0, msg.headers);
      server.db := XAdd(server.db, values);
    }

    method Ack(id: nat)
      modifies server
      ensures server.db == AckOf(cfg, old(server.db), id)
      ensures Settled(old(server.db), server.db, id, cfg.deleteOnAck)
    {
      server.db := XAck(server.db, id);
      if cfg.deleteOnAck {
        server.db := XDel(server.db, id);
      }
    }

    method RouteDLQ(t: Task<P>, reason: string)
      modifies server
      ensures server.db == DeadOf(cfg, old(server.db), t, reason)
      ensures GivenUp(cfg, old(server.db), server.db, t, reason)
    {
      GivenUpExactly(cfg, server.db, t, reason);
      hide GivenUp;
      if !cfg.hasDlq {
        if t.id != 0 {
          Ack(t.id);
        }
        return;
      }
      var values := EncodeDead(t.payload, t.retryCount, t.headers, reason);
      if t.id == 0 {
        server.db := XAddDlq(server.db, values);
        return;
      }
      server.db := RouteDlqScript(server.db, values, t.id);
    }

    method Requeue(t: Task<P>)
      modifies server
      ensures server.db == RequeueScript(old(server.db), Encoded(t.payload, t.retryCount, t.headers), t.id)
      ensures Requeued(old(server.db), server.db, t)
    {
      RequeuedExactly(server.db, t);
      hide Requeued;
      var values := Encode(t.payload, t.retryCount, t.headers);
      server.db := RequeueScript(server.db, values, t.id);
    }

    /** score is the due time the clock and the jittered backoff give. */
    method ScheduleAsyncRetry(t: Task<P>, score: int)
      modifies server
      ensures server.db == ScheduledOf(cfg, old(server.db), t, score)
      ensures ScheduledOrGivenUp(cfg, old(server.db), server.db, t, score)
    {
      ScheduledExactly(cfg, server.db, t, score);
      hide ScheduledOrGivenUp, GivenUp;
      if cfg.asyncMaxRetries > 0 && t.retryCount > cfg.asyncMaxRetries {
        RouteDLQ(t, "max retries exceeded");
        return;
      }
      var env := Envelope(t.id, t.payload, t.headers, t.retryCount);
      server.db := ZAddAckScript(server.db, env, score, t.id, cfg.deleteOnAck);
    }

    method Retry(t: Task<P>, reason: string, score: int)
      modifies server
      ensures server.db == RetriedOf(cfg, old(server.db), t, reason, score)
      ensures FailedTo(cfg, old(server.db), server.db, t, reason, score)
    {
      FailedExactly(cfg, server.db, t, reason, score);
      RetryBranches(cfg, server.db, t, reason, score);
      hide FailedTo, GivenUp, ScheduledOrGivenUp, Requeued, DeadOf, ScheduledOf, RequeueScript, Encoded, RetriedOf;
      var u := t.(retryCount := t.retryCount + 1);
      if ShouldDLQ(cfg.maxRetries, u.retryCount) {
        RouteDLQ(u, reason);
      } else if cfg.async {
        ScheduleAsyncRetry(u, score);
      } else {
        Requeue(u);
      }
    }

    method ProcessOne(t: Task<P>, outcome: HandlerOutcome, reason: string, score: int)
      modifies server
      ensures server.db == if outcome == Errored then RetriedOf(cfg, old(server.db), t, reason, score)
                           else AckOf(cfg, old(server.db), t.id)
      ensures if outcome == Errored then FailedTo(cfg, old(server.db), server.db, t, reason, score)
              else Settled(old(server.db), server.db, t.id, cfg.deleteOnAck)
    {
      hide FailedTo, RetriedOf;
      match outcome
      case Succeeded => Ack(t.id);
      case Dropped => Ack(t.id);
      case Errored => Retry(t, reason, score);
    }

    /** The decode loop shared by Pop, PopPending and RecoverStale. */
    method DecodeBatch(batch: seq<Entry<P>>) returns (out: seq<Task<P>>)
      modifies server
      ensures out == TasksOf(batch) && server.db == SiftedOf(cfg, old(server.db), batch)
    {
      out := [];
      for i := 0 to |batch|
        invariant out == TasksOf(batch[..i]) && server.db == SiftedOf(cfg, old(server.db), batch[..i])
      {
        assert batch[..i + 1][..i] == batch[..i];
        var d := DecodeMessage(batch[i].id, batch[i].fields);
        if d.Bad? {
          RouteDLQ(Task(batch[i].id, cfg.noPayload, map[], 0), "decode_error: " + ErrorText(d.error));
        } else {
          out := out + [d.task];
        }
      }
      assert batch[..|batch|] == batch;
    }

    method Read(ids: seq<nat>) returns (batch: seq<Entry<P>>)
      ensures batch == EntriesOf(server.db, ids)
    {
      batch := [];
      for i := 0 to |ids|
        invariant batch == EntriesOf(server.db, ids[..i])
      {
        batch := batch + [Entry(ids[i], if ids[i] in server.db.stream then server.db.stream[ids[i]] else map[])];
      }
      assert ids[..|ids|] == ids;
    }

    method Pop(batch: int) returns (r: PopResult<P>)
      modifies server
      ensures r.NotConfigured? <==> !cfg.wired
      ensures r.NoGroup? <==> cfg.wired && !old(server.db.grouped)
      ensures var db := old(server.db);
              var ids := Take(Undelivered(db), if batch <= 0 then 1 else batch);
              var entries := EntriesOf(db, ids);
              if r.NotConfigured? || r.NoGroup? then server.db == db
              else r == (if TasksOf(entries) == [] then Empty else Tasks(TasksOf(entries)))
                   && server.db == SiftedOf(cfg, XReadNew(db, ids, cfg.consumer), entries)
      ensures r.Tasks? || r.Empty? ==>
                var db := old(server.db);
                Reads(Popped(r), db, (set id | id in db.stream && db.delivered < id <= db.lastId),
                  if batch <= 0 then 1 else batch)
      ensures Owned(Popped(r), server.db.pel, cfg.consumer)
    {
      if !cfg.wired {
        return NotConfigured;
      }
      if !server.db.grouped {
        return NoGroup;
      }
      hide Reads, Owned, TasksOf, EntriesOf, SiftedOf, XReadNew, Undelivered, Decode, Take;
      var ids := Take(Undelivered(server.db), if batch <= 0 then 1 else batch);
      var entries := Read(ids);
      NewReads(cfg, server.db, if batch <= 0 then 1 else batch);
      server.db := XReadNew(server.db, ids, cfg.consumer);
      var out := DecodeBatch(entries);
      return if out == [] then Empty else Tasks(out);
    }

    /** Reads this consumer's own pending entries again; the server changes only for what does not decode. */
    method PopPending(max: int) returns (r: PopResult<P>)
      modifies server
      ensures r.NotConfigured? <==> !cfg.wired
      ensures r.NoGroup? <==> cfg.wired && !old(server.db.grouped)
      ensures var db := old(server.db);
              var ids := Take(IdsIn(OwnedBy(db.pel, cfg.consumer), 0, db.delivered), if max <= 0 then 10 else max);
              var entries := EntriesOf(db, ids);
              if r.NotConfigured? || r.NoGroup? then server.db == db
              else r == (if TasksOf(entries) == [] then Empty else Tasks(TasksOf(entries)))
                   && server.db == SiftedOf(cfg, db, entries)
      ensures r.Tasks? || r.Empty? ==>
                var db := old(server.db);
                Reads(Popped(r), db, (set id | id in db.pel && db.pel[id] == cfg.consumer && 0 < id <= db.delivered),
                  if max <= 0 then 10 else max)
      ensures Owned(Popped(r), server.db.pel, cfg.consumer)
    {
      if !cfg.wired {
        return NotConfigured;
      }
      if !server.db.grouped {
        return NoGroup;
      }
      hide Reads, Owned, TasksOf, EntriesOf, SiftedOf, Decode, Take, OwnedBy;
      var ids := Take(IdsIn(OwnedBy(server.db.pel, cfg.consumer), 0, server.db.delivered), if max <= 0
          then 10 else max);
      var entries := Read(ids);
      OwnReads(cfg, server.db, if max <= 0 then 10 else max);
      var out := DecodeBatch(entries);
      return if out == [] then Empty else Tasks(out);
    }

    /** XAUTOCLAIM hands over the pending entries stale, which the server finds idle long enough. */
    method RecoverStale(stale: seq<nat>, nextCursor: nat) returns (r: PopResult<P>)
      requires forall i :: 0 <= i < |stale| ==> stale[i] in server.db.pel
      modifies server, this`recoverCursor
      ensures r.NotConfigured? <==> !cfg.wired
      ensures cfg.wired ==>
                && r == Tasks(TasksOf(EntriesOf(old(server.db), stale)))
                && recoverCursor == nextCursor
                && server.db == SiftedOf(cfg, XAutoClaim(old(server.db), stale, cfg.consumer),
                  EntriesOf(old(server.db), stale))
      ensures !cfg.wired ==> server.db == old(server.db) && recoverCursor == old(recoverCursor)
      ensures cfg.wired ==> ReadsAll(Popped(r), old(server.db), stale)
      ensures Owned(Popped(r), server.db.pel, cfg.consumer)
    {
      if !cfg.wired {
        return NotConfigured;
      }
      hide ReadsAll, Owned, TasksOf, EntriesOf, SiftedOf, XAutoClaim, Decode;
      var entries := Read(stale);
      ClaimReads(cfg, server.db, stale);
      server.db := XAutoClaim(server.db, stale, cfg.consumer);
      recoverCursor := nextCursor;
      var out := DecodeBatch(entries);
      return Tasks(out);
    }

    /** ZRANGEBYSCORE: at most batch members due by now, and all of them if they are fewer. */
    method ReadDue(now: int, batch: nat) returns (due: seq<Envelope<P>>)
      ensures IsDue(due, server.db.zset, now, batch)
    {
      due := [];
      var rest := set m | m in server.db.zset && server.db.zset[m] <= now;
      while rest != {} && |due| < batch
        invariant |due| <= batch
        invariant forall i :: 0 <= i < |due| ==>
            due[i] in server.db.zset && server.db.zset[due[i]] <= now && due[i] !in rest
        invariant forall i, j :: 0 <= i < j < |due| ==> due[i] != due[j]
        invariant forall m :: m in server.db.zset && server.db.zset[m] <= now ==> m in due || m in rest
        invariant forall m :: m in rest ==> m in server.db.zset && server.db.zset[m] <= now
        decreases rest
      {
        var m :| m in rest;
        due := due + [m];
        rest := rest - {m};
      }
    }

    /** A pass that is not interrupted; QueueNoLoss cuts it anywhere. */
    method MatureAsyncRetries(now: int, batch: nat) returns (due: seq<Envelope<P>>)
      modifies server
      ensures server.db == MaturedOf(old(server.db), due)
      ensures !cfg.async ==> due == []
      ensures cfg.async ==> IsDue(due, old(server.db.zset), now, batch)
      ensures Matured(old(server.db), server.db, due)
    {
      MaturedExactly(server.db, []);
      if !cfg.async {
        return [];
      }
      due := ReadDue(now, batch);
      for i := 0 to |due|
        invariant server.db == MaturedOf(old(server.db), due[..i])
      {
        assert due[..i + 1][..i] == due[..i];
        var values := Encode(due[i].payload, due[i].retryCount, due[i].headers);
        server.db := XAdd(server.db, values);
        server.db := ZRem(server.db, due[i]);
      }
      assert due[..|due|] == due;
      MaturedExactly(old(server.db), due);
    }
  }

  function OwnedBy(pel: map<nat, string>, consumer: string): set<nat> {
    set id | id in pel && pel[id] == consumer
  }

  // ----- Facts about reads -----

  lemma {:induction false} IdsInComplete(keys: set<nat>, lo: nat, hi: nat, id: nat)
    requires id in keys && lo < id <= hi
    ensures id in IdsIn(keys, lo, hi)
  {
    if id < hi {
      IdsInComplete(keys, lo, hi - 1, id);
    }
  }

  ghost function Between(keys: set<nat>, lo: nat, hi: nat): set<nat> {
    set j | j in keys && lo < j <= hi
  }

  ghost function Below(keys: set<nat>, lo: nat, hi: nat, id: nat): set<nat> {
    set j | j in Between(keys, lo, hi) && j < id
  }

  /** The i-th of the IDs has i others before it. */
  lemma {:induction false} IdsInRank(keys: set<nat>, lo: nat, hi: nat, i: nat)
    requires i < |IdsIn(keys, lo, hi)|
    ensures |Below(keys, lo, hi, IdsIn(keys, lo, hi)[i])| == i
  {
    var id := IdsIn(keys, lo, hi)[i];
    BelowNext(keys, lo, hi, id);
    if i < |IdsIn(keys, lo, hi - 1)| {
      IdsInRank(keys, lo, hi - 1, i);
    } else {
      IdsInSize(keys, lo, hi - 1);
    }
  }

  lemma BelowNext(keys: set<nat>, lo: nat, hi: nat, id: nat)
    requires lo < id <= hi
    ensures id < hi ==> Below(keys, lo, hi, id) == Below(keys, lo, hi - 1, id)
    ensures id == hi ==> Below(keys, lo, hi, id) == Between(keys, lo, hi - 1)
  {
  }

  lemma {:induction false} IdsInSize(keys: set<nat>, lo: nat, hi: nat)
    ensures |Between(keys, lo, hi)| == |IdsIn(keys, lo, hi)|
  {
    if hi <= lo {
      assert Between(keys, lo, hi) == {};
    } else {
      IdsInSize(keys, lo, hi - 1);
      assert Between(keys, lo, hi) == Between(keys, lo, hi - 1) + if hi in keys then {hi} else {};
    }
  }

  lemma TakenExactly(keys: set<nat>, lo: nat, hi: nat, n: nat, id: nat)
    ensures id in Take(IdsIn(keys, lo, hi), n) <==>
              id in keys && lo < id <= hi && |set j | j in keys && lo < j <= hi && j < id| < n
  {
    var ids := IdsIn(keys, lo, hi);
    assert Below(keys, lo, hi, id) == set j | j in keys && lo < j <= hi && j < id;
    if id in keys && lo < id <= hi {
      IdsInComplete(keys, lo, hi, id);
      var i :| 0 <= i < |ids| && ids[i] == id;
      IdsInRank(keys, lo, hi, i);
      if i < n {
        assert Take(ids, n)[i] == id;
      }
    }
  }

  lemma {:induction false} TasksExactly<P>(batch: seq<Entry<P>>)
    ensures forall t :: t in TasksOf(batch) <==>
              exists i :: 0 <= i < |batch| && batch[i].id == t.id && Decode(batch[i].id, batch[i].fields) == Ok(t)
  {
    hide Decode;
    if batch != [] {
      var init, e := batch[..|batch| - 1], batch[|batch| - 1];
      TasksExactly(init);
      DecodeKeepsId(e.id, e.fields);
      forall t
        ensures t in TasksOf(batch) <==>
                  exists i :: 0 <= i < |batch| && batch[i].id == t.id && Decode(batch[i].id, batch[i].fields) == Ok(t)
      {
        if i :| 0 <= i < |init| && init[i].id == t.id && Decode(init[i].id, init[i].fields) == Ok(t) {
          assert batch[i] == init[i];
        }
        if i :| 0 <= i < |batch| && batch[i].id == t.id && Decode(batch[i].id, batch[i].fields) == Ok(t) {
          assert i < |init| ==> init[i] == batch[i];
        }
      }
    }
  }

  lemma TaskFrom<P>(batch: seq<Entry<P>>, t: Task<P>) returns (i: nat)
    requires t in TasksOf(batch)
    ensures i < |batch| && batch[i].id == t.id
  {
    TasksExactly(batch);
    i :| 0 <= i < |batch| && batch[i].id == t.id && Decode(batch[i].id, batch[i].fields) == Ok(t);
  }

  lemma DecodeKeepsId<P>(id: nat, fields: Fields<P>)
    ensures Decode(id, fields).Ok? ==> Decode(id, fields).task.id == id
  {
  }

  lemma {:induction false} TasksRise<P>(batch: seq<Entry<P>>)
    requires forall i, j :: 0 <= i < j < |batch| ==> batch[i].id < batch[j].id
    ensures RisingIds(TasksOf(batch))
  {
    hide Decode;
    if batch != [] {
      var init, e := batch[..|batch| - 1], batch[|batch| - 1];
      TasksRise(init);
      DecodeKeepsId(e.id, e.fields);
      forall t | t in TasksOf(init)
        ensures t.id < e.id
      {
        var i := TaskFrom(init, t);
        assert batch[i] == init[i];
      }
    }
  }

  lemma EntryAt<P>(r: Redis<P>, ids: seq<nat>, t: Task<P>)
    ensures t in TasksOf(EntriesOf(r, ids)) <==> t.id in ids && Decode(t.id, FieldsAt(r, t.id)) == Ok(t)
  {
    hide Decode, TasksOf;
    var batch := EntriesOf(r, ids);
    TasksExactly(batch);
    if t.id in ids {
      var i :| 0 <= i < |ids| && ids[i] == t.id;
      assert batch[i] == Entry(t.id, FieldsAt(r, t.id));
    }
  }

  lemma AllRead<P>(r: Redis<P>, ids: seq<nat>)
    ensures ReadsAll(TasksOf(EntriesOf(r, ids)), r, ids)
  {
    hide Decode, TasksOf, EntriesOf;
    forall t | t in TasksOf(EntriesOf(r, ids))
      ensures t.id in ids && Decode(t.id, FieldsAt(r, t.id)) == Ok(t)
    {
      EntryAt(r, ids, t);
    }
    forall id | id in ids && Decode(id, FieldsAt(r, id)).Ok?
      ensures Decode(id, FieldsAt(r, id)).task in TasksOf(EntriesOf(r, ids))
    {
      DecodeKeepsId(id, FieldsAt(r, id));
      EntryAt(r, ids, Decode(id, FieldsAt(r, id)).task);
    }
  }

  lemma InFirstMeans(id: nat, ids: set<nat>, n: nat)
    ensures InFirst(id, ids, n) <==> id in ids && |set j | j in ids && j < id| < n
  {
  }

  lemma TakenRise<P>(r: Redis<P>, keys: set<nat>, lo: nat, hi: nat, n: nat)
    ensures RisingIds(TasksOf(EntriesOf(r, Take(IdsIn(keys, lo, hi), n))))
  {
    TasksRise(EntriesOf(r, Take(IdsIn(keys, lo, hi), n)));
  }

  /** Reading the first n of some IDs returns the tasks of exactly those that decode, in order. */
  lemma FirstOnes<P>(r: Redis<P>, keys: set<nat>, lo: nat, hi: nat, n: nat, all: set<nat>)
    requires all == set id | id in keys && lo < id <= hi
    ensures Reads(TasksOf(EntriesOf(r, Take(IdsIn(keys, lo, hi), n))), r, all, n)
  {
    hide Decode, TasksOf, EntriesOf, InFirst, Take;
    var ids := Take(IdsIn(keys, lo, hi), n);
    TakenRise(r, keys, lo, hi, n);
    forall id: nat
      ensures id in ids <==> InFirst(id, all, n)
    {
      TakenExactly(keys, lo, hi, n, id);
      InFirstMeans(id, all, n);
      assert (set j | j in all && j < id) == set j | j in keys && lo < j <= hi && j < id;
    }
    AllRead(r, ids);
  }

  /** Decoding a batch takes nothing from the pending list but what does not decode. */
  lemma {:induction false} KeptOwners<P>(cfg: Config<P>, r: Redis<P>, batch: seq<Entry<P>>)
    ensures forall id :: id in r.pel && (forall i :: 0 <= i < |batch| && batch[i].id == id ==>
                                           Decode(batch[i].id, batch[i].fields).Ok?) ==>
              id in SiftedOf(cfg, r, batch).pel && SiftedOf(cfg, r, batch).pel[id] == r.pel[id]
  {
    hide Decode, EncodedDead;
    if batch != [] {
      KeptOwners(cfg, r, batch[..|batch| - 1]);
    }
  }

  /** After some IDs are handed to a consumer, all that decodes of them is its own. */
  lemma HandedIsOwned<P>(cfg: Config<P>, r: Redis<P>, v: Redis<P>, ids: seq<nat>)
    requires forall i :: 0 <= i < |ids| ==> ids[i] in v.pel && v.pel[ids[i]] == cfg.consumer
    ensures Owned(TasksOf(EntriesOf(r, ids)), SiftedOf(cfg, v, EntriesOf(r, ids)).pel, cfg.consumer)
  {
    hide Decode, TasksOf, SiftedOf;
    var batch := EntriesOf(r, ids);
    KeptOwners(cfg, v, batch);
    forall t | t in TasksOf(batch)
      ensures t.id in SiftedOf(cfg, v, batch).pel && SiftedOf(cfg, v, batch).pel[t.id] == cfg.consumer
    {
      EntryAt(r, ids, t);
      forall i | 0 <= i < |batch| && batch[i].id == t.id
        ensures Decode(batch[i].id, batch[i].fields).Ok?
      {
        assert batch[i] == Entry(t.id, FieldsAt(r, t.id));
      }
    }
  }

  lemma NewReads<P>(cfg: Config<P>, db: Redis<P>, n: nat)
    ensures var ids := Take(Undelivered(db), n);
            && Reads(TasksOf(EntriesOf(db, ids)), db, (set id | id in db.stream && db.delivered < id <= db.lastId), n)
            && Owned(TasksOf(EntriesOf(db, ids)),
                 SiftedOf(cfg, XReadNew(db, ids, cfg.consumer), EntriesOf(db, ids)).pel, cfg.consumer)
  {
    hide Reads, Owned, TasksOf, EntriesOf, SiftedOf, Take;
    FirstOnes(db, db.stream.Keys, db.delivered, db.lastId, n,
      set id | id in db.stream && db.delivered < id <= db.lastId);
    var ids := Take(Undelivered(db), n);
    HandedIsOwned(cfg, db, XReadNew(db, ids, cfg.consumer), ids);
  }

  lemma OwnReads<P>(cfg: Config<P>, db: Redis<P>, n: nat)
    ensures var ids := Take(IdsIn(OwnedBy(db.pel, cfg.consumer), 0, db.delivered), n);
            && Reads(TasksOf(EntriesOf(db, ids)), db,
                 (set id | id in db.pel && db.pel[id] == cfg.consumer && 0 < id <= db.delivered), n)
            && Owned(TasksOf(EntriesOf(db, ids)), SiftedOf(cfg, db, EntriesOf(db, ids)).pel, cfg.consumer)
  {
    hide Reads, Owned, TasksOf, EntriesOf, SiftedOf;
    var own := OwnedBy(db.pel, cfg.consumer);
    FirstOnes(db, own, 0, db.delivered, n,
      set id | id in db.pel && db.pel[id] == cfg.consumer && 0 < id <= db.delivered);
    HandedIsOwned(cfg, db, db, Take(IdsIn(own, 0, db.delivered), n));
  }

  lemma ClaimReads<P>(cfg: Config<P>, db: Redis<P>, ids: seq<nat>)
    ensures ReadsAll(TasksOf(EntriesOf(db, ids)), db, ids)
    ensures Owned(TasksOf(EntriesOf(db, ids)),
              SiftedOf(cfg, XAutoClaim(db, ids, cfg.consumer), EntriesOf(db, ids)).pel, cfg.consumer)
  {
    hide Decode, Owned, TasksOf, EntriesOf, SiftedOf;
    AllRead(db, ids);
    HandedIsOwned(cfg, db, XAutoClaim(db, ids, cfg.consumer), ids);
  }

  lemma {:induction false} CleanBatch<P>(cfg: Config<P>, db: Redis<P>, batch: seq<Entry<P>>)
    requires forall i :: 0 <= i < |batch| ==> Decode(batch[i].id, batch[i].fields).Ok?
    ensures SiftedOf(cfg, db, batch) == db
    ensures |TasksOf(batch)| == |batch|
    ensures forall i :: 0 <= i < |batch| ==> TasksOf(batch)[i] == Decode(batch[i].id, batch[i].fields).task
  {
    hide Decode;
    if batch != [] {
      var init := batch[..|batch| - 1];
      CleanBatch(cfg, db, init);
      forall i | 0 <= i < |batch|
        ensures TasksOf(batch)[i] == Decode(batch[i].id, batch[i].fields).task
      {
        if i < |init| {
          assert init[i] == batch[i];
        }
      }
    }
  }
}
