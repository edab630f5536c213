/** The in-memory queue (go-ingestion/internal/queue/inmem/queue.go). Task ID "inmem-n" is represented by n. */
module InMemQueue {
  import opened Decimal
  import opened QueueTypes

  // ----- The queue as a value -----

  datatype Mem<P> = Mem(pending: seq<Task<P>>, inFlight: map<nat, Task<P>>, dlq: seq<Task<P>>, seqNo: nat)

  ghost function EmptyMem<P>(): Mem<P> {
    Mem([], map[], [], 0)
  }

  ghost function Published<P>(m: Mem<P>, msg: Message<P>): Mem<P> {
    m.(pending := m.pending + [Task(m.seqNo + 1, msg.payload, msg.headers, 0)], seqNo := m.seqNo + 1)
  }

  /** The first n pending tasks become in flight. */
  ghost function Popped<P>(m: Mem<P>, n: nat): Mem<P>
    requires n <= |m.pending|
  {
    m.(pending := m.pending[n..], inFlight := WithTasks(m.inFlight, m.pending[..n]))
  }

  ghost function WithTasks<P>(inFlight: map<nat, Task<P>>, ts: seq<Task<P>>): map<nat, Task<P>> {
    if ts == [] then inFlight else WithTasks(inFlight, ts[..|ts| - 1])[ts[|ts| - 1].id := ts[|ts| - 1]]
  }

  ghost function Acked<P>(m: Mem<P>, id: nat): Mem<P> {
    m.(inFlight := m.inFlight - {id})
  }

  ghost function Retried<P>(maxRetries: int, m: Mem<P>, t: Task<P>): Mem<P> {
    var u := t.(retryCount := t.retryCount + 1);
    var n := Acked(m, t.id);
    if ShouldDLQ(maxRetries, u.retryCount) then n.(dlq := n.dlq + [u])
    else n.(pending := n.pending + [u.(id := n.seqNo + 1)], seqNo := n.seqNo + 1)
  }

  // ----- The queue as an object -----

  class Queue<P> {
    var pending: seq<Task<P>>
    var inFlight: map<nat, Task<P>>
    const maxRetries: int
    var dlq: seq<Task<P>>
    var seqNo: nat

    constructor (maxRetries: int)
      ensures this.maxRetries == maxRetries && Value() == EmptyMem()
    {
      this.maxRetries := maxRetries;
      pending, inFlight, dlq, seqNo := [], map[], [], 0;
    }

    ghost function Value(): Mem<P>
      reads this
    {
      Mem(pending, inFlight, dlq, seqNo)
    }

    method NextId() returns (id: nat)
      modifies this`seqNo
      ensures id == seqNo == old(seqNo) + 1
    {
      seqNo := seqNo + 1;
      id := seqNo;
    }

    method Publish(msg: Message<P>)
      modifies this
      ensures Value() == Published(old(Value()), msg)
    {
      var id := NextId();
      pending := pending + [Task(id, msg.payload, msg.headers, 0)];
    }

    /** One look at the queue; an empty result is ErrEmpty. */
    method Pop(batch: nat) returns (out: seq<Task<P>>)
      modifies this
      ensures var n := if batch > |old(pending)| then |old(pending)| else batch;
              out == old(pending)[..n] && Value() == Popped(old(Value()), n)
    {
      out := [];
      if |pending| > 0 {
        var n := if batch > |pending| then |pending| else batch;
        out := pending[..n];
        pending := pending[n..];
        for i := 0 to n
          invariant inFlight == WithTasks(old(inFlight), out[..i])
          invariant pending == old(pending)[n..] && dlq == old(dlq) && seqNo == old(seqNo)
        {
          assert out[..i + 1][..i] == out[..i];
          inFlight := inFlight[out[i].id := out[i]];
        }
        assert out[..n] == out;
      }
    }

    method Ack(id: nat)
      modifies this
      ensures Value() == Acked(old(Value()), id)
    {
      inFlight := inFlight - {id};
    }

    method Retry(t: Task<P>)
      modifies this
      ensures Value() == Retried(maxRetries, old(Value()), t)
    {
      inFlight := inFlight - {t.id};
      var u := t.(retryCount := t.retryCount + 1);
      if ShouldDLQ(maxRetries, u.retryCount) {
        dlq := dlq + [u];
        return;
      }
      var id := NextId();
      pending := pending + [u.(id := id)];
    }

    /** One round of the subscriber loop, the handler's return being given. */
    method SubscribeRound(outcome: HandlerOutcome)
      modifies this
      ensures Value() == if old(pending) == [] then old(Value())
                         else Finished(maxRetries, Popped(old(Value()), 1), old(pending)[0], outcome)
    {
      var tasks := Pop(1);
      if |tasks| == 0 {
        return;
      }
      var t := tasks[0];
      match outcome
      case Succeeded => Ack(t.id);
      case Dropped => Ack(t.id);
      case Errored => Retry(t);
    }
  }

  ghost function Finished<P>(maxRetries: int, m: Mem<P>, t: Task<P>, outcome: HandlerOutcome): Mem<P> {
    if outcome == Errored then Retried(maxRetries, m, t) else Acked(m, t.id)
  }

  // ----- Runs without crashes -----

  datatype Op<P> = Publish(msg: Message<P>) | Pop(n: nat) | Finish(id: nat, outcome: HandlerOutcome)

  /** The queue with what has been published, settled by a handler, and failed by one, by payload. */
  datatype History<P> = History(mem: Mem<P>, published: set<P>, acked: set<P>, failed: multiset<P>)

  /** Every publish carries a payload of its own; only tasks in flight are finished. */
  ghost predicate Enabled<P>(h: History<P>, op: Op<P>) {
    match op
    case Publish(msg) => msg.payload !in h.published
    case Pop(n) => n <= |h.mem.pending|
    case Finish(id, _) => id in h.mem.inFlight
  }

  ghost function After<P>(maxRetries: int, h: History<P>, op: Op<P>): History<P>
    requires Enabled(h, op)
  {
    match op
    case Publish(msg) => h.(mem := Published(h.mem, msg), published := h.published + {msg.payload})
    case Pop(n) => h.(mem := Popped(h.mem, n))
    case Finish(id, outcome) =>
      var t := h.mem.inFlight[id];
      var m := Finished(maxRetries, h.mem, t, outcome);
      if outcome == Errored then h.(mem := m, failed := h.failed + multiset{t.payload})
      else h.(mem := m, acked := h.acked + {t.payload})
  }

  /** Where a run ends; None if some operation was not possible. */
  ghost function Run<P>(maxRetries: int, ops: seq<Op<P>>): Option<History<P>> {
    if ops == [] then Some(History(EmptyMem(), {}, {}, multiset{}))
    else
      match Run(maxRetries, ops[..|ops| - 1])
      case None => None
      case Some(h) => if Enabled(h, ops[|ops| - 1]) then Some(After(maxRetries, h, ops[|ops| - 1])) else None
  }

  // ----- Where a message can be -----

  ghost function Payloads<P>(ts: seq<Task<P>>): set<P> {
    set i | 0 <= i < |ts| :: ts[i].payload
  }

  ghost function Flying<P>(inFlight: map<nat, Task<P>>): set<P> {
    set id | id in inFlight :: inFlight[id].payload
  }

  ghost predicate Distinct<P>(ts: seq<Task<P>>) {
    forall i, j :: 0 <= i < j < |ts| ==> ts[i].payload != ts[j].payload && ts[i].id != ts[j].id
  }

  /** No message is in two places, or twice in one; together the places hold all that was published. */
  ghost predicate ExactlyOnce<P>(m: Mem<P>, acked: set<P>, published: set<P>) {
    && Distinct(m.pending)
    && (forall i, j :: 0 <= i < j < |m.dlq| ==> m.dlq[i].payload != m.dlq[j].payload)
    && (forall a, b :: a in m.inFlight && b in m.inFlight && a != b ==> m.inFlight[a].payload != m.inFlight[b].payload)
    && Payloads(m.pending) !! Flying(m.inFlight) !! Payloads(m.dlq) !! acked
    && Payloads(m.pending) + Flying(m.inFlight) + Payloads(m.dlq) + acked == published
  }

  ghost predicate IdsFit<P>(m: Mem<P>) {
    && (forall i :: 0 <= i < |m.pending| ==> m.pending[i].id <= m.seqNo && m.pending[i].id !in m.inFlight)
    && (forall id :: id in m.inFlight ==> id <= m.seqNo && m.inFlight[id].id == id)
  }

  ghost predicate Counted<P>(maxRetries: int, h: History<P>, t: Task<P>) {
    t.retryCount == h.failed[t.payload] && !ShouldDLQ(maxRetries, t.retryCount)
  }

  ghost predicate DeadCounted<P>(maxRetries: int, h: History<P>, t: Task<P>) {
    maxRetries > 0 && t.retryCount == h.failed[t.payload] == maxRetries + 1
  }

  ghost predicate Counts<P>(maxRetries: int, h: History<P>) {
    var m := h.mem;
    && (forall i :: 0 <= i < |m.pending| ==> Counted(maxRetries, h, m.pending[i]))
    && (forall id :: id in m.inFlight ==> Counted(maxRetries, h, m.inFlight[id]))
    && (forall i :: 0 <= i < |m.dlq| ==> DeadCounted(maxRetries, h, m.dlq[i]))
    && (forall p :: p in h.acked ==> !ShouldDLQ(maxRetries, h.failed[p]))
    && (forall p :: p in h.failed ==> p in h.published)
  }

  ghost predicate Inv<P>(maxRetries: int, h: History<P>) {
    IdsFit(h.mem) && ExactlyOnce(h.mem, h.acked, h.published) && Counts(maxRetries, h)
  }

  // ----- Each operation keeps it -----

  lemma PayloadsAppend<P>(ts: seq<Task<P>>, t: Task<P>)
    ensures Payloads(ts + [t]) == Payloads(ts) + {t.payload}
  {
    var us := ts + [t];
    forall p | p in Payloads(ts) + {t.payload}
      ensures p in Payloads(us)
    {
      if p == t.payload {
        assert us[|ts|].payload == p;
      } else {
        var i :| 0 <= i < |ts| && ts[i].payload == p;
        assert us[i].payload == p;
      }
    }
  }

  lemma PayloadsTail<P>(ts: seq<Task<P>>)
    requires ts != [] && Distinct(ts)
    ensures Payloads(ts) == {ts[0].payload} + Payloads(ts[1..]) && ts[0].payload !in Payloads(ts[1..])
    ensures Distinct(ts[1..])
  {
    forall p | p in Payloads(ts)
      ensures p in {ts[0].payload} + Payloads(ts[1..])
    {
      var i :| 0 <= i < |ts| && ts[i].payload == p;
      assert i > 0 ==> ts[1..][i - 1].payload == p;
    }
    forall p | p in Payloads(ts[1..])
      ensures p in Payloads(ts) && p != ts[0].payload
    {
      var i :| 0 <= i < |ts[1..]| && ts[1..][i].payload == p;
      assert ts[i + 1].payload == p;
    }
  }

  lemma FlyingWith<P>(inFlight: map<nat, Task<P>>, t: Task<P>)
    requires t.id !in inFlight
    ensures Flying(inFlight[t.id := t]) == Flying(inFlight) + {t.payload}
  {
    var f := inFlight[t.id := t];
    assert f[t.id].payload == t.payload;
    forall p | p in Flying(inFlight)
      ensures p in Flying(f)
    {
      var id :| id in inFlight && inFlight[id].payload == p;
      assert f[id].payload == p;
    }
  }

  lemma FlyingWithout<P>(inFlight: map<nat, Task<P>>, id: nat)
    requires id in inFlight
    requires forall a, b :: a in inFlight && b in inFlight && a != b ==> inFlight[a].payload != inFlight[b].payload
    ensures Flying(inFlight - {id}) == Flying(inFlight) - {inFlight[id].payload}
  {
    var f := inFlight - {id};
    forall p | p in Flying(inFlight) && p != inFlight[id].payload
      ensures p in Flying(f)
    {
      var a :| a in inFlight && inFlight[a].payload == p;
      assert f[a].payload == p;
    }
  }

  lemma PublishKeeps<P>(maxRetries: int, h: History<P>, msg: Message<P>)
    requires Inv(maxRetries, h) && Enabled(h, Publish(msg))
    ensures Inv(maxRetries, After(maxRetries, h, Publish(msg)))
  {
    var g := After(maxRetries, h, Publish(msg));
    var t := Task(h.mem.seqNo + 1, msg.payload, msg.headers, 0);
    PayloadsAppend(h.mem.pending, t);
    assert h.failed[msg.payload] == 0;
    forall i | 0 <= i < |h.mem.pending|
      ensures h.mem.pending[i].payload != msg.payload
    {
      assert h.mem.pending[i].payload in Payloads(h.mem.pending);
    }
  }

  lemma PopOneKeeps<P>(maxRetries: int, h: History<P>)
    requires Inv(maxRetries, h) && h.mem.pending != []
    ensures Inv(maxRetries, h.(mem := Popped(h.mem, 1)))
  {
    var t := h.mem.pending[0];
    var m := Popped(h.mem, 1);
    assert WithTasks(h.mem.inFlight, [t]) == h.mem.inFlight[t.id := t] by {
      assert [t][..0] == [];
    }
    assert h.mem.pending[..1] == [t];
    PayloadsTail(h.mem.pending);
    FlyingWith(h.mem.inFlight, t);
    forall id | id in h.mem.inFlight
      ensures h.mem.inFlight[id].payload != t.payload
    {
      assert h.mem.inFlight[id].payload in Flying(h.mem.inFlight);
      assert t.payload in Payloads(h.mem.pending);
    }
  }

  lemma PopMany<P>(m: Mem<P>, n: nat)
    requires 0 < n <= |m.pending|
    ensures Popped(m, n) == Popped(Popped(m, n - 1), 1)
  {
    var k := Popped(m, n - 1);
    var t := m.pending[n - 1];
    assert m.pending[..n][..n - 1] == m.pending[..n - 1];
    assert k.pending[..1] == [t];
    assert [t][..0] == [];
    assert WithTasks(k.inFlight, [t]) == k.inFlight[t.id := t];
    assert k.pending[1..] == m.pending[n..];
  }

  lemma {:induction false} PopKeeps<P>(maxRetries: int, h: History<P>, n: nat)
    requires Inv(maxRetries, h) && n <= |h.mem.pending|
    ensures Inv(maxRetries, h.(mem := Popped(h.mem, n)))
  {
    if n == 0 {
      assert Popped(h.mem, 0) == h.mem;
    } else {
      PopKeeps(maxRetries, h, n - 1);
      PopMany(h.mem, n);
      PopOneKeeps(maxRetries, h.(mem := Popped(h.mem, n - 1)));
    }
  }

  /** Taking a task out of flight, with its payload nowhere for the moment. */
  lemma TakeOut<P>(m: Mem<P>, acked: set<P>, published: set<P>, id: nat)
    requires IdsFit(m) && ExactlyOnce(m, acked, published) && id in m.inFlight
    ensures m.inFlight[id].payload in published
    ensures IdsFit(Acked(m, id)) && ExactlyOnce(Acked(m, id), acked, published - {m.inFlight[id].payload})
  {
    FlyingWithout(m.inFlight, id);
    assert m.inFlight[id].payload in Flying(m.inFlight);
  }

  lemma NotPublishedIsNowhere<P>(m: Mem<P>, acked: set<P>, published: set<P>, p: P)
    requires ExactlyOnce(m, acked, published) && p !in published
    ensures forall i :: 0 <= i < |m.pending| ==> m.pending[i].payload != p
    ensures forall i :: 0 <= i < |m.dlq| ==> m.dlq[i].payload != p
    ensures forall id :: id in m.inFlight ==> m.inFlight[id].payload != p
    ensures p !in acked
  {
    assert p !in Payloads(m.pending) && p !in Payloads(m.dlq) && p !in Flying(m.inFlight);
  }

  lemma AckKeeps<P>(maxRetries: int, h: History<P>, id: nat, outcome: HandlerOutcome)
    requires Inv(maxRetries, h) && id in h.mem.inFlight && outcome != Errored
    ensures Inv(maxRetries, After(maxRetries, h, Finish(id, outcome)))
  {
    TakeOut(h.mem, h.acked, h.published, id);
    var after := After(maxRetries, h, Finish(id, outcome));
    forall i | 0 <= i < |after.mem.dlq|
      ensures DeadCounted(maxRetries, after, after.mem.dlq[i])
    {
      assert DeadCounted(maxRetries, h, h.mem.dlq[i]);
    }
    forall i | 0 <= i < |after.mem.pending|
      ensures Counted(maxRetries, after, after.mem.pending[i])
    {
      assert Counted(maxRetries, h, h.mem.pending[i]);
    }
    assert Counted(maxRetries, h, h.mem.inFlight[id]);
  }

  lemma DeadPlace<P>(m: Mem<P>, acked: set<P>, published: set<P>, u: Task<P>)
    requires IdsFit(m) && ExactlyOnce(m, acked, published) && u.payload !in published
    ensures var n := m.(dlq := m.dlq + [u]); IdsFit(n) && ExactlyOnce(n, acked, published + {u.payload})
  {
    PayloadsAppend(m.dlq, u);
    NotPublishedIsNowhere(m, acked, published, u.payload);
  }

  lemma PendingPlace<P>(m: Mem<P>, acked: set<P>, published: set<P>, u: Task<P>)
    requires IdsFit(m) && ExactlyOnce(m, acked, published) && u.payload !in published && u.id == m.seqNo + 1
    ensures var n := m.(pending := m.pending + [u], seqNo := u.id);
            IdsFit(n) && ExactlyOnce(n, acked, published + {u.payload})
  {
    PayloadsAppend(m.pending, u);
    NotPublishedIsNowhere(m, acked, published, u.payload);
  }

  lemma RetryKeepsPlaces<P>(maxRetries: int, m: Mem<P>, acked: set<P>, published: set<P>, id: nat)
    requires IdsFit(m) && ExactlyOnce(m, acked, published) && id in m.inFlight
    ensures var n := Retried(maxRetries, m, m.inFlight[id]); IdsFit(n) && ExactlyOnce(n, acked, published)
  {
    var t := m.inFlight[id];
    var u := t.(retryCount := t.retryCount + 1);
    TakeOut(m, acked, published, id);
    assert published - {t.payload} + {t.payload} == published;
    if ShouldDLQ(maxRetries, u.retryCount) {
      DeadPlace(Acked(m, id), acked, published - {t.payload}, u);
    } else {
      PendingPlace(Acked(m, id), acked, published - {t.payload}, u.(id := m.seqNo + 1));
    }
  }

  lemma RetryKeepsCounts<P>(maxRetries: int, h: History<P>, id: nat)
    requires Inv(maxRetries, h) && id in h.mem.inFlight
    ensures Counts(maxRetries, After(maxRetries, h, Finish(id, Errored)))
  {
    var t := h.mem.inFlight[id];
    TakeOut(h.mem, h.acked, h.published, id);
    NotPublishedIsNowhere(Acked(h.mem, id), h.acked, h.published - {t.payload}, t.payload);
    assert Counted(maxRetries, h, t);
  }

  lemma {:induction false} RunInvariant<P>(maxRetries: int, ops: seq<Op<P>>)
    requires Run(maxRetries, ops).Some?
    ensures Inv(maxRetries, Run(maxRetries, ops).value)
  {
    if ops != [] {
      var h := Run(maxRetries, ops[..|ops| - 1]).value;
      RunInvariant(maxRetries, ops[..|ops| - 1]);
      match ops[|ops| - 1]
      case Publish(msg) => PublishKeeps(maxRetries, h, msg);
      case Pop(n) => PopKeeps(maxRetries, h, n);
      case Finish(id, outcome) =>
        if outcome == Errored {
          RetryKeepsPlaces(maxRetries, h.mem, h.acked, h.published, id);
          RetryKeepsCounts(maxRetries, h, id);
        } else {
          AckKeeps(maxRetries, h, id, outcome);
        }
    }
  }

  // ----- What every run promises -----

  /** Each published message is in exactly one of pending, in flight, DLQ and acknowledged. */
  lemma EachMessageInOnePlace<P>(maxRetries: int, ops: seq<Op<P>>)
    requires Run(maxRetries, ops).Some?
    ensures var h := Run(maxRetries, ops).value; ExactlyOnce(h.mem, h.acked, h.published)
  {
    RunInvariant(maxRetries, ops);
  }

  /** A live task's count is its number of failed handlings and within the limit; a message is in the DLQ
      exactly when it has failed more than MaxRetries times, and then it failed MaxRetries + 1 times. */
  lemma DlqExactly<P>(maxRetries: int, ops: seq<Op<P>>, p: P)
    requires Run(maxRetries, ops).Some? && p in Run(maxRetries, ops).value.published
    ensures var h := Run(maxRetries, ops).value;
            && (p in Payloads(h.mem.dlq) <==> ShouldDLQ(maxRetries, h.failed[p]))
            && (p in Payloads(h.mem.dlq) ==> h.failed[p] == maxRetries + 1)
    ensures var h := Run(maxRetries, ops).value;
            && (forall i :: 0 <= i < |h.mem.pending| ==> Counted(maxRetries, h, h.mem.pending[i]))
            && (forall id :: id in h.mem.inFlight ==> Counted(maxRetries, h, h.mem.inFlight[id]))
  {
    RunInvariant(maxRetries, ops);
    var h := Run(maxRetries, ops).value;
    if p in Payloads(h.mem.pending) {
      var i :| 0 <= i < |h.mem.pending| && h.mem.pending[i].payload == p;
      assert Counted(maxRetries, h, h.mem.pending[i]);
    } else if p in Flying(h.mem.inFlight) {
      var id :| id in h.mem.inFlight && h.mem.inFlight[id].payload == p;
      assert Counted(maxRetries, h, h.mem.inFlight[id]);
    } else {
      assert p in Payloads(h.mem.dlq) || p in h.acked;
    }
  }
}
