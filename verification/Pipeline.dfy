/** The hand-over between the stages: discoverer, fetch queue, fetcher, parse queue, parser, ingester
    (go-ingestion/internal/worker/fetcher/fetcher.go:120-166, worker/parser/parser.go:91-157,
    worker/ingester/ingester.go:50-83). Handlers are threads that take one step at a time, side by side, and
    may stop anywhere; a message may be handled several times, also late. Queues are plain here: a message stays
    until it is acked or retried. EndToEnd puts the same handlers on the Redis queues. */
module Pipeline {
  import opened Decimal

  type Match = int

  // ----- Queues -----

  /** Messages by ID; IDs are not used twice. */
  datatype Queue = Queue(live: map<nat, Match>, dead: map<nat, Match>, next: nat)

  function Put(q: Queue, m: Match): Queue {
    q.(live := q.live[q.next := m], next := q.next + 1)
  }

  function Ack(q: Queue, id: nat): Queue {
    q.(live := q.live - {id})
  }

  /** A retry: the message goes, and comes back under a new ID, in the queue or in its DLQ. */
  function Fail(q: Queue, id: nat, m: Match, toDead: bool): Queue {
    if toDead then Queue(q.live - {id}, q.dead[q.next := m], q.next + 1)
    else Queue((q.live - {id})[q.next := m], q.dead, q.next + 1)
  }

  function Replay(q: Queue, id: nat): Queue
    requires id in q.dead
  {
    Queue(q.live[q.next := q.dead[id]], q.dead - {id}, q.next + 1)
  }

  // ----- The world -----

  /** Where a handler is, with the message it works on. A blob is represented by the match ID it carries,
      0 if it has none. */
  datatype Thread =
    | Fetching(msg: nat, m: Match)
    | Storing(msg: nat, m: Match, blob: Match)
    | Publishing(msg: nat, m: Match)
    | FetchDone(msg: nat, m: Match)   // returned nil or ErrDrop; the Ack is still to come
    | FetchFailed(msg: nat, m: Match) // returned an error; the Retry is still to come
    | Parsing(msg: nat, m: Match)
    | Ingesting(msg: nat, m: Match, blob: Match)
    | Marking(msg: nat, m: Match, id: Match)
    | Deleting(msg: nat, m: Match)
    | ParseDone(msg: nat, m: Match)
    | ParseFailed(msg: nat, m: Match)

  datatype World = World(
    fetchQ: Queue, parseQ: Queue,
    payloads: map<Match, Match>,
    db: set<Match>, seen: set<Match>,
    published: set<Match>, // put on the fetch stream
    dropped: set<Match>,   // a handler returned ErrDrop for it
    threads: map<nat, Thread>)

  /** took: an error was reported although the call had its effect. */
  datatype FetchStep =
    | TakeFetch(msg: nat)
    | Fetched(blob: Match) | FetchDrop | FetchError
    | Stored | StoreError(took: bool)
    | Published | PublishError(took: bool)
    | AckFetch | RetryFetch(toDead: bool)

  datatype ParseStep =
    | TakeParse(msg: nat)
    | Found | Missing | GetError
    | ParseDrop | ParseError
    | Committed | CommitUnreported | Duplicate
    | Marked(took: bool)
    | Deleted(took: bool)
    | AckParse | RetryParse(toDead: bool)

  datatype Event =
    | Discover(m: Match)
    | Fetch(t: nat, fetch: FetchStep)
    | Parse(t: nat, parse: ParseStep)
    | ReplayFetch(msg: nat) | ReplayParse(msg: nat)
    | Expire(m: Match)
    | Crash(t: nat)

  /** decodeMatch: the blob's own ID counts, if it has one. */
  function DecodedId(m: Match, blob: Match): Match {
    if blob == 0 then m else blob
  }

  ghost predicate FetchEnabled(w: World, t: nat, step: FetchStep) {
    match step
    case TakeFetch(msg) => t !in w.threads && msg in w.fetchQ.live
    case Fetched(_) => t in w.threads && w.threads[t].Fetching?
    case FetchDrop => t in w.threads && w.threads[t].Fetching?
    case FetchError => t in w.threads && w.threads[t].Fetching?
    case Stored => t in w.threads && w.threads[t].Storing?
    case StoreError(_) => t in w.threads && w.threads[t].Storing?
    case Published => t in w.threads && w.threads[t].Publishing?
    case PublishError(_) => t in w.threads && w.threads[t].Publishing?
    case AckFetch => t in w.threads && w.threads[t].FetchDone?
    case RetryFetch(_) => t in w.threads && w.threads[t].FetchFailed?
  }

  ghost predicate ParseEnabled(w: World, t: nat, step: ParseStep) {
    match step
    case TakeParse(msg) => t !in w.threads && msg in w.parseQ.live
    case Found => t in w.threads && w.threads[t].Parsing? && w.threads[t].m in w.payloads
    case Missing => t in w.threads && w.threads[t].Parsing? && w.threads[t].m !in w.payloads
    case GetError => t in w.threads && w.threads[t].Parsing?
    case ParseDrop => t in w.threads && w.threads[t].Ingesting?
    case ParseError => t in w.threads && w.threads[t].Ingesting?
    case Committed => t in w.threads && w.threads[t].Ingesting?
    case CommitUnreported => t in w.threads && w.threads[t].Ingesting?
    case Duplicate => t in w.threads && w.threads[t].Ingesting?
    case Marked(_) => t in w.threads && w.threads[t].Marking?
    case Deleted(_) => t in w.threads && w.threads[t].Deleting?
    case AckParse => t in w.threads && w.threads[t].ParseDone?
    case RetryParse(_) => t in w.threads && w.threads[t].ParseFailed?
  }

  ghost predicate Enabled(w: World, e: Event) {
    match e
    case Discover(_) => true
    case Fetch(t, step) => FetchEnabled(w, t, step)
    case Parse(t, step) => ParseEnabled(w, t, step)
    case ReplayFetch(msg) => msg in w.fetchQ.dead
    case ReplayParse(msg) => msg in w.parseQ.dead
    case Expire(_) => true
    case Crash(t) => t in w.threads
  }

  ghost function Goes(w: World, t: nat, th: Thread): (v: World)
    ensures w.threads.Keys == {t} ==> v.threads == map[t := th]
  {
    w.(threads := w.threads[t := th])
  }

  ghost function Leaves(w: World, t: nat): World {
    w.(threads := w.threads - {t})
  }

  ghost function FetchAfter(w: World, t: nat, step: FetchStep): World
    requires FetchEnabled(w, t, step)
  {
    match step
    case TakeFetch(msg) => Goes(w, t, Fetching(msg, w.fetchQ.live[msg]))
    case Fetched(blob) => Goes(w, t, Storing(w.threads[t].msg, w.threads[t].m, blob))
    case FetchDrop => Goes(w.(dropped := w.dropped + {w.threads[t].m}), t, FetchDone(w.threads[t].msg, w.threads[t].m))
    case FetchError => Goes(w, t, FetchFailed(w.threads[t].msg, w.threads[t].m))
    case Stored =>
      Goes(w.(payloads := w.payloads[w.threads[t].m := w.threads[t].blob]), t,
        Publishing(w.threads[t].msg, w.threads[t].m))
    case StoreError(took) =>
      Goes(if took then w.(payloads := w.payloads[w.threads[t].m := w.threads[t].blob]) else w, t,
           FetchFailed(w.threads[t].msg, w.threads[t].m))
    case Published =>
      Goes(w.(parseQ := Put(w.parseQ, w.threads[t].m)), t, FetchDone(w.threads[t].msg, w.threads[t].m))
    case PublishError(took) =>
      Goes(if took then w.(parseQ := Put(w.parseQ, w.threads[t].m))
        else w, t, FetchFailed(w.threads[t].msg, w.threads[t].m))
    case AckFetch => Leaves(w.(fetchQ := Ack(w.fetchQ, w.threads[t].msg)), t)
    case RetryFetch(toDead) => Leaves(w.(fetchQ := Fail(w.fetchQ, w.threads[t].msg, w.threads[t].m, toDead)), t)
  }

  ghost function ParseAfter(w: World, t: nat, step: ParseStep): World
    requires ParseEnabled(w, t, step)
  {
    match step
    case TakeParse(msg) => Goes(w, t, Parsing(msg, w.parseQ.live[msg]))
    case Found => Goes(w, t, Ingesting(w.threads[t].msg, w.threads[t].m, w.payloads[w.threads[t].m]))
    case Missing => Goes(w.(dropped := w.dropped + {w.threads[t].m}), t, ParseDone(w.threads[t].msg, w.threads[t].m))
    case GetError => Goes(w, t, ParseFailed(w.threads[t].msg, w.threads[t].m))
    case ParseDrop => Goes(w.(dropped := w.dropped + {w.threads[t].m}), t, ParseDone(w.threads[t].msg, w.threads[t].m))
    case ParseError => Goes(w, t, ParseFailed(w.threads[t].msg, w.threads[t].m))
    case Committed =>
      var id := DecodedId(w.threads[t].m, w.threads[t].blob);
      Goes(w.(db := w.db + {id}), t, Marking(w.threads[t].msg, w.threads[t].m, id))
    case CommitUnreported =>
      Goes(w.(db := w.db + {DecodedId(w.threads[t].m, w.threads[t].blob)}), t,
        ParseFailed(w.threads[t].msg, w.threads[t].m))
    case Duplicate => Goes(w, t, Deleting(w.threads[t].msg, w.threads[t].m))
    case Marked(took) =>
      Goes(if took then w.(seen := w.seen + {w.threads[t].id}) else w, t, Deleting(w.threads[t].msg, w.threads[t].m))
    case Deleted(took) =>
      Goes(if took then w.(payloads := w.payloads - {w.threads[t].m})
        else w, t, ParseDone(w.threads[t].msg, w.threads[t].m))
    case AckParse => Leaves(w.(parseQ := Ack(w.parseQ, w.threads[t].msg)), t)
    case RetryParse(toDead) => Leaves(w.(parseQ := Fail(w.parseQ, w.threads[t].msg, w.threads[t].m, toDead)), t)
  }

  ghost function After(w: World, e: Event): World
    requires Enabled(w, e)
  {
    match e
    case Discover(m) => w.(fetchQ := Put(w.fetchQ, m), published := w.published + {m})
    case Fetch(t, step) => FetchAfter(w, t, step)
    case Parse(t, step) => ParseAfter(w, t, step)
    case ReplayFetch(msg) => w.(fetchQ := Replay(w.fetchQ, msg))
    case ReplayParse(msg) => w.(parseQ := Replay(w.parseQ, msg))
    case Expire(m) => w.(payloads := w.payloads - {m})
    case Crash(t) => Leaves(w, t)
  }

  ghost function Fresh(): World {
    World(Queue(map[], map[], 0), Queue(map[], map[], 0), map[], {}, {}, {}, {}, map[])
  }

  ghost function Run(es: seq<Event>): Option<World> {
    if es == [] then Some(Fresh())
    else
      match Run(es[..|es| - 1])
      case None => None
      case Some(w) => if Enabled(w, es[|es| - 1]) then Some(After(w, es[|es| - 1])) else None
  }

  // ----- What the code trusts -----

  /** A commit is of the match the task asked for, and a unique-constraint violation means that this match is in
      the database; what happens to a match that is in the database already does not matter. */
  ghost predicate Faithful(w: World, e: Event) {
    e.Parse? && e.t in w.threads && w.threads[e.t].Ingesting? ==>
      var th := w.threads[e.t];
      && (e.parse.Committed? ==> DecodedId(th.m, th.blob) == th.m || th.m in w.db)
      && (e.parse.Duplicate? ==> th.m in w.db)
  }

  ghost predicate AllFaithful(es: seq<Event>) {
    es == []
    || (AllFaithful(es[..|es| - 1])
        && (Run(es[..|es| - 1]).Some? ==> Faithful(Run(es[..|es| - 1]).value, es[|es| - 1])))
  }

  // ----- Where a match is -----

  ghost predicate InQueue(q: Queue, m: Match) {
    (exists id :: id in q.live && q.live[id] == m) || (exists id :: id in q.dead && q.dead[id] == m)
  }

  ghost predicate Finished(w: World, m: Match) {
    m in w.db || m in w.dropped
  }

  ghost predicate Downstream(w: World, m: Match) {
    InQueue(w.parseQ, m) || Finished(w, m)
  }

  ghost predicate Somewhere(w: World, m: Match) {
    InQueue(w.fetchQ, m) || Downstream(w, m)
  }

  ghost predicate IdsFit(q: Queue) {
    (forall id :: id in q.live ==> id < q.next) && (forall id :: id in q.dead ==> id < q.next)
  }

  ghost predicate MessageFits(q: Queue, id: nat, m: Match) {
    id < q.next && (id in q.live ==> q.live[id] == m)
  }

  ghost predicate IsFetcher(th: Thread) {
    th.Fetching? || th.Storing? || th.Publishing? || th.FetchDone? || th.FetchFailed?
  }

  /** What holds in every run, whatever the outside answers. */
  ghost predicate ThreadKnown(w: World, th: Thread) {
    && MessageFits(if IsFetcher(th) then w.fetchQ else w.parseQ, th.msg, th.m)
    && (th.Marking? ==> th.id in w.db)
  }

  ghost predicate Ordered(w: World) {
    && IdsFit(w.fetchQ) && IdsFit(w.parseQ) && w.seen <= w.db
    && forall t :: t in w.threads ==> ThreadKnown(w, w.threads[t])
  }

  ghost predicate ThreadFits(w: World, th: Thread) {
    && (th.FetchDone? ==> Downstream(w, th.m))
    && (th.Marking? || th.Deleting? ==> th.m in w.db)
    && (th.ParseDone? ==> Finished(w, th.m))
  }

  ghost predicate Inv(w: World) {
    && Ordered(w)
    && (forall t :: t in w.threads ==> ThreadFits(w, w.threads[t]))
    && (forall m :: m in w.published ==> Somewhere(w, m))
  }

  // ----- Queue steps keep matches -----

  lemma PutHas(q: Queue, m: Match, n: Match)
    requires IdsFit(q) && (InQueue(q, n) || m == n)
    ensures InQueue(Put(q, m), n) && IdsFit(Put(q, m))
  {
    var p := Put(q, m);
    if m == n {
      assert p.live[q.next] == n;
    } else if id :| id in q.live && q.live[id] == n {
      assert p.live[id] == n;
    }
  }

  lemma AckHas(q: Queue, id: nat, m: Match, n: Match)
    requires InQueue(q, n) && MessageFits(q, id, m) && m != n
    ensures InQueue(Ack(q, id), n)
  {
    var p := Ack(q, id);
    if i :| i in q.live && q.live[i] == n {
      assert p.live[i] == n;
    }
  }

  lemma FailHas(q: Queue, id: nat, m: Match, toDead: bool, n: Match)
    requires IdsFit(q) && MessageFits(q, id, m) && (InQueue(q, n) || m == n)
    ensures InQueue(Fail(q, id, m, toDead), n)
  {
    var p := Fail(q, id, m, toDead);
    if m == n {
      assert if toDead then p.dead[q.next] == n else p.live[q.next] == n;
    } else if i :| i in q.live && q.live[i] == n {
      assert p.live[i] == n;
    } else {
      var i :| i in q.dead && q.dead[i] == n;
      assert p.dead[i] == n;
    }
  }

  lemma ReplayHas(q: Queue, id: nat, n: Match)
    requires IdsFit(q) && id in q.dead && InQueue(q, n)
    ensures InQueue(Replay(q, id), n)
  {
    var p := Replay(q, id);
    if i :| i in q.live && q.live[i] == n {
      assert p.live[i] == n;
    } else {
      var i :| i in q.dead && q.dead[i] == n;
      if i == id {
        assert p.live[q.next] == n;
      } else {
        assert p.dead[i] == n;
      }
    }
  }

  // ----- Each step keeps the invariant -----

  ghost predicate QueueMoves(q: Queue, r: Queue) {
    q.next <= r.next && forall id :: id in r.live && id < q.next ==> id in q.live && r.live[id] == q.live[id]
  }

  ghost predicate Advances(w: World, v: World) {
    QueueMoves(w.fetchQ, v.fetchQ) && QueueMoves(w.parseQ, v.parseQ) && w.db <= v.db && w.dropped <= v.dropped
  }

  lemma AdvanceKeepsKnown(w: World, v: World, th: Thread)
    requires ThreadKnown(w, th) && Advances(w, v)
    ensures ThreadKnown(v, th)
  {
  }

  lemma FetchAdvances(w: World, t: nat, step: FetchStep)
    requires Ordered(w) && FetchEnabled(w, t, step)
    ensures Advances(w, FetchAfter(w, t, step)) && Ordered(FetchAfter(w, t, step))
  {
    var v := FetchAfter(w, t, step);
    if !step.TakeFetch? {
      assert ThreadKnown(w, w.threads[t]);
    }
    forall u | u in v.threads
      ensures ThreadKnown(v, v.threads[u])
    {
      if u in w.threads {
        AdvanceKeepsKnown(w, v, w.threads[u]);
      }
    }
  }

  lemma ParseMoves(w: World, t: nat, step: ParseStep)
    requires Ordered(w) && ParseEnabled(w, t, step)
    ensures Advances(w, ParseAfter(w, t, step))
  {
  }

  /** What the stepping thread becomes, if it goes on. */
  lemma ParserKnown(w: World, t: nat, step: ParseStep)
    requires Ordered(w) && ParseEnabled(w, t, step) && t in ParseAfter(w, t, step).threads
    ensures ThreadKnown(ParseAfter(w, t, step), ParseAfter(w, t, step).threads[t])
  {
    if !step.TakeParse? {
      assert ThreadKnown(w, w.threads[t]);
    }
  }

  lemma ParseAdvances(w: World, t: nat, step: ParseStep)
    requires Ordered(w) && ParseEnabled(w, t, step)
    ensures Advances(w, ParseAfter(w, t, step)) && Ordered(ParseAfter(w, t, step))
  {
    hide ThreadKnown, Advances;
    ParseMoves(w, t, step);
    ParseData(w, t, step);
    var v := ParseAfter(w, t, step);
    forall u | u in v.threads
      ensures ThreadKnown(v, v.threads[u])
    {
      if u == t {
        ParserKnown(w, t, step);
      } else {
        AdvanceKeepsKnown(w, v, w.threads[u]);
      }
    }
  }

  lemma ParseData(w: World, t: nat, step: ParseStep)
    requires Ordered(w) && ParseEnabled(w, t, step)
    ensures var v := ParseAfter(w, t, step); IdsFit(v.fetchQ) && IdsFit(v.parseQ) && v.seen <= v.db
  {
    if !step.TakeParse? {
      assert ThreadKnown(w, w.threads[t]);
    }
  }

  lemma StepAdvances(w: World, e: Event)
    requires Ordered(w) && Enabled(w, e)
    ensures Advances(w, After(w, e)) && Ordered(After(w, e))
  {
    hide FetchAfter, ParseAfter;
    match e
    case Fetch(t, step) => FetchAdvances(w, t, step);
    case Parse(t, step) => ParseAdvances(w, t, step);
    case _ =>
      var v := After(w, e);
      forall u | u in v.threads
        ensures ThreadKnown(v, v.threads[u])
      {
        AdvanceKeepsKnown(w, v, w.threads[u]);
      }
  }

  lemma {:induction false} RunOrdered(es: seq<Event>)
    requires Run(es).Some?
    ensures Ordered(Run(es).value)
  {
    if es != [] {
      RunOrdered(es[..|es| - 1]);
      StepAdvances(Run(es[..|es| - 1]).value, es[|es| - 1]);
    }
  }

  /** The dedup set holds only committed matches, in every run. */
  lemma SeenIsCommitted(es: seq<Event>)
    requires Run(es).Some?
    ensures Run(es).value.seen <= Run(es).value.db
  {
    RunOrdered(es);
  }

  /** What every step does to the queues and stores: what leaves a queue is further on. */
  ghost predicate Onward(w: World, v: World) {
    && Advances(w, v) && w.published == v.published
    && (forall n :: InQueue(w.parseQ, n) ==> InQueue(v.parseQ, n) || Finished(v, n))
    && (forall n :: InQueue(w.fetchQ, n) ==> InQueue(v.fetchQ, n) || Downstream(v, n))
  }

  lemma OnwardKeepsThread(w: World, v: World, th: Thread)
    requires ThreadFits(w, th) && Onward(w, v)
    ensures ThreadFits(v, th)
  {
    hide InQueue;
  }

  lemma OnwardKeepsPlace(w: World, v: World, m: Match)
    requires Somewhere(w, m) && Onward(w, v)
    ensures Somewhere(v, m)
  {
    hide InQueue;
  }

  lemma OnwardKeepsInv(w: World, v: World)
    requires Inv(w) && Onward(w, v) && Ordered(v)
    requires forall t :: t in v.threads ==>
               (t in w.threads && v.threads[t] == w.threads[t]) || ThreadFits(v, v.threads[t])
    ensures Inv(v)
  {
    hide ThreadFits, Ordered, Onward, Somewhere;
    forall t | t in v.threads
      ensures ThreadFits(v, v.threads[t])
    {
      if t in w.threads && v.threads[t] == w.threads[t] {
        OnwardKeepsThread(w, v, w.threads[t]);
      }
    }
    OnwardPublished(w, v);
    forall m | m in v.published
      ensures Somewhere(v, m)
    {
      OnwardKeepsPlace(w, v, m);
    }
  }

  lemma OnwardPublished(w: World, v: World)
    requires Onward(w, v)
    ensures v.published == w.published
  {
  }

  lemma FetchStepKeeps(w: World, t: nat, step: FetchStep)
    requires Inv(w) && FetchEnabled(w, t, step)
    ensures Inv(FetchAfter(w, t, step))
  {
    hide InQueue, Ordered, Advances;
    FetchAdvances(w, t, step);
    var v := FetchAfter(w, t, step);
    OrderedThread(w, t);
    if step.Published? || (step.PublishError? && step.took) {
      var m := w.threads[t].m;
      forall n | InQueue(w.parseQ, n) || n == m
        ensures InQueue(v.parseQ, n)
      {
        PutHas(w.parseQ, m, n);
      }
    } else if step.AckFetch? {
      var th := w.threads[t];
      forall n | InQueue(w.fetchQ, n) && n != th.m
        ensures InQueue(v.fetchQ, n)
      {
        AckHas(w.fetchQ, th.msg, th.m, n);
      }
    } else if step.RetryFetch? {
      var th := w.threads[t];
      forall n | InQueue(w.fetchQ, n)
        ensures InQueue(v.fetchQ, n)
      {
        FailHas(w.fetchQ, th.msg, th.m, step.toDead, n);
      }
    }
    OnwardKeepsInv(w, v);
  }

  lemma OrderedThread(w: World, t: nat)
    requires Ordered(w)
    ensures IdsFit(w.fetchQ) && IdsFit(w.parseQ)
    ensures t in w.threads ==> ThreadKnown(w, w.threads[t])
  {
  }

  /** The steps of a parser that leave the queues alone. */
  lemma ParseWorkKeeps(w: World, t: nat, step: ParseStep)
    requires Inv(w) && ParseEnabled(w, t, step) && Faithful(w, Parse(t, step)) && !step.AckParse? && !step.RetryParse?
    ensures Inv(ParseAfter(w, t, step))
  {
    hide InQueue, Ordered, Advances;
    ParseAdvances(w, t, step);
    OnwardKeepsInv(w, ParseAfter(w, t, step));
  }

  lemma ParseEndKeeps(w: World, t: nat, step: ParseStep)
    requires Inv(w) && ParseEnabled(w, t, step) && (step.AckParse? || step.RetryParse?)
    ensures Inv(ParseAfter(w, t, step))
  {
    hide InQueue, Ordered, Advances;
    ParseAdvances(w, t, step);
    OrderedThread(w, t);
    var th, v := w.threads[t], ParseAfter(w, t, step);
    if step.AckParse? {
      forall n | InQueue(w.parseQ, n) && n != th.m
        ensures InQueue(v.parseQ, n)
      {
        AckHas(w.parseQ, th.msg, th.m, n);
      }
    } else {
      forall n | InQueue(w.parseQ, n)
        ensures InQueue(v.parseQ, n)
      {
        FailHas(w.parseQ, th.msg, th.m, step.toDead, n);
      }
    }
    OnwardKeepsInv(w, v);
  }

  lemma DiscoverKeeps(w: World, m: Match)
    requires Inv(w)
    ensures Inv(After(w, Discover(m)))
  {
    hide InQueue;
    StepAdvances(w, Discover(m));
    var v := w.(fetchQ := Put(w.fetchQ, m));
    forall n | InQueue(w.fetchQ, n) || n == m
      ensures InQueue(v.fetchQ, n)
    {
      PutHas(w.fetchQ, m, n);
    }
    OnwardKeepsInv(w, v);
    assert After(w, Discover(m)) == v.(published := w.published + {m});
  }

  lemma ReplayKeeps(w: World, e: Event)
    requires Inv(w) && Enabled(w, e) && (e.ReplayFetch? || e.ReplayParse?)
    ensures Inv(After(w, e))
  {
    hide InQueue, Ordered, Advances;
    StepAdvances(w, e);
    OrderedThread(w, 0);
    var v := After(w, e);
    if e.ReplayFetch? {
      forall n | InQueue(w.fetchQ, n)
        ensures InQueue(v.fetchQ, n)
      {
        ReplayHas(w.fetchQ, e.msg, n);
      }
    } else {
      forall n | InQueue(w.parseQ, n)
        ensures InQueue(v.parseQ, n)
      {
        ReplayHas(w.parseQ, e.msg, n);
      }
    }
    OnwardKeepsInv(w, v);
  }

  lemma StepKeepsInv(w: World, e: Event)
    requires Inv(w) && Enabled(w, e) && Faithful(w, e)
    ensures Inv(After(w, e))
  {
    hide InQueue, FetchAfter, ParseAfter;
    match e
    case Discover(m) => DiscoverKeeps(w, m);
    case Fetch(t, step) => FetchStepKeeps(w, t, step);
    case Parse(t, step) =>
      if step.AckParse? || step.RetryParse? {
        ParseEndKeeps(w, t, step);
      } else {
        ParseWorkKeeps(w, t, step);
      }
    case ReplayFetch(_) => ReplayKeeps(w, e);
    case ReplayParse(_) => ReplayKeeps(w, e);
    case Expire(_) =>
      StepAdvances(w, e);
      OnwardKeepsInv(w, After(w, e));
    case Crash(_) =>
      StepAdvances(w, e);
      OnwardKeepsInv(w, After(w, e));
  }

  lemma {:induction false} RunInv(es: seq<Event>)
    requires Run(es).Some? && AllFaithful(es)
    ensures Inv(Run(es).value)
  {
    if es != [] {
      RunInv(es[..|es| - 1]);
      StepKeepsInv(Run(es[..|es| - 1]).value, es[|es| - 1]);
    }
  }

  /** Every match put on the fetch stream is at all times in the fetch queue, in the parse queue, in a DLQ of
      theirs or in the database, unless a handler dropped it. */
  lemma NeverNowhere(es: seq<Event>, m: Match)
    requires Run(es).Some? && AllFaithful(es) && m in Run(es).value.published
    ensures Somewhere(Run(es).value, m)
  {
    RunInv(es);
  }

  // ----- Expiry -----

  ghost predicate Backed(w: World, m: Match) {
    m in w.payloads || m in w.db
  }

  ghost predicate ThreadBacked(w: World, th: Thread) {
    th.Publishing? || !IsFetcher(th) ==> Backed(w, th.m)
  }

  ghost predicate BackedInv(w: World) {
    && (forall m :: InQueue(w.parseQ, m) ==> Backed(w, m))
    && (forall t :: t in w.threads ==> ThreadBacked(w, w.threads[t]))
  }

  lemma TakenIsQueued(q: Queue, id: nat)
    requires id in q.live
    ensures InQueue(q, q.live[id])
  {
  }

  lemma AckAddsNothing(q: Queue, id: nat, n: Match)
    requires InQueue(Ack(q, id), n)
    ensures InQueue(q, n)
  {
  }

  lemma PutAddsOne(q: Queue, m: Match, n: Match)
    requires InQueue(Put(q, m), n)
    ensures n == m || InQueue(q, n)
  {
  }

  lemma FailAddsOne(q: Queue, id: nat, m: Match, toDead: bool, n: Match)
    requires InQueue(Fail(q, id, m, toDead), n)
    ensures n == m || InQueue(q, n)
  {
  }

  lemma ReplayAddsNothing(q: Queue, id: nat, n: Match)
    requires id in q.dead && InQueue(Replay(q, id), n)
    ensures InQueue(q, n)
  {
    assert q.dead[id] == n ==> InQueue(q, n);
  }

  lemma FetchKeepsBacked(w: World, t: nat, step: FetchStep)
    requires BackedInv(w) && FetchEnabled(w, t, step)
    ensures BackedInv(FetchAfter(w, t, step))
  {
    hide InQueue;
    var v := FetchAfter(w, t, step);
    forall n | InQueue(v.parseQ, n)
      ensures Backed(v, n)
    {
      if v.parseQ != w.parseQ {
        PutAddsOne(w.parseQ, w.threads[t].m, n);
      }
    }
  }

  lemma ParseKeepsBacked(w: World, t: nat, step: ParseStep)
    requires Inv(w) && BackedInv(w) && ParseEnabled(w, t, step)
    ensures BackedInv(ParseAfter(w, t, step))
  {
    hide InQueue, Somewhere, Ordered;
    var v := ParseAfter(w, t, step);
    if step.TakeParse? {
      TakenIsQueued(w.parseQ, step.msg);
    } else {
      assert ThreadFits(w, w.threads[t]) && ThreadBacked(w, w.threads[t]);
    }
    forall n | InQueue(v.parseQ, n)
      ensures Backed(v, n)
    {
      if step.AckParse? {
        AckAddsNothing(w.parseQ, w.threads[t].msg, n);
      } else if step.RetryParse? {
        FailAddsOne(w.parseQ, w.threads[t].msg, w.threads[t].m, step.toDead, n);
      }
    }
  }

  lemma StepKeepsBacked(w: World, e: Event)
    requires Inv(w) && BackedInv(w) && Enabled(w, e) && !e.Expire?
    ensures BackedInv(After(w, e))
  {
    hide InQueue, FetchAfter, ParseAfter, Inv;
    match e
    case Discover(m) =>
    case Fetch(t, step) => FetchKeepsBacked(w, t, step);
    case Parse(t, step) => ParseKeepsBacked(w, t, step);
    case ReplayFetch(_) =>
    case ReplayParse(msg) =>
      forall n | InQueue(After(w, e).parseQ, n)
        ensures InQueue(w.parseQ, n)
      {
        ReplayAddsNothing(w.parseQ, msg, n);
      }
    case Crash(_) =>
  }

  /** A parse task or a handler that will read or has read the payload of m. */
  ghost predicate Awaited(w: World, m: Match) {
    InQueue(w.parseQ, m)
    || exists t :: t in w.threads && w.threads[t].m == m && (w.threads[t].Publishing? || !IsFetcher(w.threads[t]))
  }

  ghost predicate Harmless(w: World, e: Event) {
    e.Expire? ==> e.m !in w.payloads || e.m in w.db || !Awaited(w, e.m)
  }

  /** An expiry leaves every parse task backed exactly if there was nothing to expire, the match is committed, or
      nobody waits for its payload. */
  lemma ExpiryExactly(w: World, m: Match)
    requires BackedInv(w)
    ensures BackedInv(After(w, Expire(m))) <==> Harmless(w, Expire(m))
  {
    hide InQueue;
    var v := After(w, Expire(m));
    forall n
      ensures Backed(v, n) <==> Backed(w, n) && (n != m || m in w.db)
    {
    }
    if Harmless(w, Expire(m)) {
      forall t | t in v.threads
        ensures ThreadBacked(v, v.threads[t])
      {
        assert ThreadBacked(w, w.threads[t]);
      }
    } else if !InQueue(w.parseQ, m) {
      var t :| t in w.threads && w.threads[t].m == m && (w.threads[t].Publishing? || !IsFetcher(w.threads[t]));
      assert !ThreadBacked(v, v.threads[t]);
    }
  }

  ghost predicate AllHarmless(es: seq<Event>) {
    es == []
    || (AllHarmless(es[..|es| - 1])
        && (Run(es[..|es| - 1]).Some? ==> Harmless(Run(es[..|es| - 1]).value, es[|es| - 1])))
  }

  lemma {:induction false} RunBacked(es: seq<Event>)
    requires Run(es).Some? && AllFaithful(es) && AllHarmless(es)
    ensures BackedInv(Run(es).value)
  {
    if es != [] {
      var w, e := Run(es[..|es| - 1]).value, es[|es| - 1];
      RunBacked(es[..|es| - 1]);
      if e.Expire? {
        ExpiryExactly(w, e.m);
      } else {
        RunInv(es[..|es| - 1]);
        StepKeepsBacked(w, e);
      }
    }
  }

  /** As long as no expiry hits a payload that is waited for, every parse task, queued or dead, has its payload
      stored or its match committed. */
  lemma PayloadPresent(es: seq<Event>, m: Match)
    requires Run(es).Some? && AllFaithful(es) && AllHarmless(es) && InQueue(Run(es).value.parseQ, m)
    ensures Backed(Run(es).value, m)
  {
    RunBacked(es);
  }

  /** Hence a parser that finds no payload drops a match that is in the database. */
  lemma MissingIsCommitted(es: seq<Event>, t: nat)
    requires Run(es).Some? && AllFaithful(es) && AllHarmless(es) && ParseEnabled(Run(es).value, t, Missing)
    ensures Run(es).value.threads[t].m in Run(es).value.db
  {
    RunBacked(es);
    assert ThreadBacked(Run(es).value, Run(es).value.threads[t]);
  }

  // ----- What the stores hold -----

  /** A step by which something happens to a match, told by the step and by what its thread works on. */
  ghost predicate Marks(w: World, e: Event, m: Match) {
    e.Parse? && e.parse == Marked(true) && e.t in w.threads && w.threads[e.t].Marking? && w.threads[e.t].id == m
  }

  ghost predicate Commits(w: World, e: Event, m: Match) {
    e.Parse? && (e.parse.Committed? || e.parse.CommitUnreported?)
    && e.t in w.threads && w.threads[e.t].Ingesting? && m == DecodedId(w.threads[e.t].m, w.threads[e.t].blob)
  }

  ghost predicate Drops(w: World, e: Event, m: Match) {
    && (if e.Fetch? then e.fetch.FetchDrop? else e.Parse? && (e.parse.Missing? || e.parse.ParseDrop?))
    && e.t in w.threads && w.threads[e.t].m == m
  }

  ghost predicate Stores(w: World, e: Event, m: Match, blob: Match) {
    e.Fetch? && (e.fetch.Stored? || e.fetch == StoreError(true))
    && e.t in w.threads && w.threads[e.t].Storing? && w.threads[e.t].m == m && w.threads[e.t].blob == blob
  }

  ghost predicate Removes(w: World, e: Event, m: Match) {
    || e == Expire(m)
    || (e.Parse? && e.parse == Deleted(true) && e.t in w.threads && w.threads[e.t].m == m)
  }

  /** Such a step was somewhere in the run. */
  ghost predicate Ever(es: seq<Event>, happens: (World, Event) -> bool) {
    exists i :: 0 <= i < |es| && Run(es[..i]).Some? && happens(Run(es[..i]).value, es[i])
  }

  lemma EverNext(es: seq<Event>, happens: (World, Event) -> bool)
    requires es != [] && Run(es).Some?
    ensures Ever(es, happens) <==> Ever(es[..|es| - 1], happens) || happens(Run(es[..|es| - 1]).value, es[|es| - 1])
  {
    var init := es[..|es| - 1];
    forall i | 0 <= i < |init|
      ensures es[..i] == init[..i] && es[i] == init[i]
    {
    }
    if Ever(init, happens) {
      var i :| 0 <= i < |init| && Run(init[..i]).Some? && happens(Run(init[..i]).value, init[i]);
      assert es[..i] == init[..i];
    }
    if Ever(es, happens) {
      var i :| 0 <= i < |es| && Run(es[..i]).Some? && happens(Run(es[..i]).value, es[i]);
      if i < |init| {
        assert es[..i] == init[..i];
      }
    }
  }

  /** In every run a match is in the dedup set, in the database or dropped exactly if a step put it there. */
  lemma {:induction false} SetsExactly(es: seq<Event>, m: Match)
    requires Run(es).Some?
    ensures m in Run(es).value.seen <==> Ever(es, (w, e) => Marks(w, e, m))
    ensures m in Run(es).value.db <==> Ever(es, (w, e) => Commits(w, e, m))
    ensures m in Run(es).value.dropped <==> Ever(es, (w, e) => Drops(w, e, m))
    ensures m in Run(es).value.published <==> Ever(es, (w, e) => e == Discover(m))
  {
    if es != [] {
      SetsExactly(es[..|es| - 1], m);
      EverNext(es, (w, e) => Marks(w, e, m));
      EverNext(es, (w, e) => Commits(w, e, m));
      EverNext(es, (w, e) => Drops(w, e, m));
      EverNext(es, (w, e) => e == Discover(m));
      SetsNext(Run(es[..|es| - 1]).value, es[|es| - 1], m);
    }
  }

  lemma SetsNext(w: World, e: Event, m: Match)
    requires Enabled(w, e)
    ensures m in After(w, e).seen <==> m in w.seen || Marks(w, e, m)
    ensures m in After(w, e).db <==> m in w.db || Commits(w, e, m)
    ensures m in After(w, e).dropped <==> m in w.dropped || Drops(w, e, m)
    ensures m in After(w, e).published <==> m in w.published || e == Discover(m)
  {
  }

  /** The blob stored last, unless removed since. */
  ghost predicate LastStored(es: seq<Event>, m: Match, blob: Match) {
    es != []
    && var w, e := Run(es[..|es| - 1]), es[|es| - 1];
       w.Some? && (Stores(w.value, e, m, blob)
                   || (LastStored(es[..|es| - 1], m, blob) && !Removes(w.value, e, m)
                       && forall other :: !Stores(w.value, e, m, other)))
  }

  lemma PayloadNext(w: World, e: Event, m: Match, blob: Match)
    requires Enabled(w, e)
    ensures m in After(w, e).payloads && After(w, e).payloads[m] == blob <==>
              Stores(w, e, m, blob)
              || (m in w.payloads && w.payloads[m] == blob && !Removes(w, e, m)
                  && forall other :: !Stores(w, e, m, other))
  {
    if e.Fetch? && (e.fetch.Stored? || e.fetch == StoreError(true)) && w.threads[e.t].m == m {
      assert Stores(w, e, m, w.threads[e.t].blob);
    }
  }

  /** In every run the payload of a match is the one last stored, unless it was deleted or expired since. */
  lemma {:induction false} PayloadExactly(es: seq<Event>, m: Match, blob: Match)
    requires Run(es).Some?
    ensures m in Run(es).value.payloads && Run(es).value.payloads[m] == blob <==> LastStored(es, m, blob)
  {
    if es != [] {
      PayloadExactly(es[..|es| - 1], m, blob);
      PayloadNext(Run(es[..|es| - 1]).value, es[|es| - 1], m, blob);
    }
  }

  // ----- What the queues hold -----

  /** The message a step takes off a queue for good, by an ack or a retry. */
  ghost predicate TakesOff(w: World, e: Event, fetch: bool, id: nat)
    requires Enabled(w, e)
  {
    if fetch then e.Fetch? && (e.fetch.AckFetch? || e.fetch.RetryFetch?) && w.threads[e.t].msg == id
    else e.Parse? && (e.parse.AckParse? || e.parse.RetryParse?) && w.threads[e.t].msg == id
  }

  ghost predicate Replays(e: Event, fetch: bool, id: nat) {
    if fetch then e == ReplayFetch(id) else e == ReplayParse(id)
  }

  /** The match a step puts on a queue, and whether it goes to the DLQ. */
  ghost predicate PutsOn(w: World, e: Event, fetch: bool, m: Match, dead: bool)
    requires Enabled(w, e)
  {
    if fetch then
      || (e == Discover(m) && !dead)
      || (e.Fetch? && e.fetch == RetryFetch(dead) && w.threads[e.t].m == m)
      || (e.ReplayFetch? && w.fetchQ.dead[e.msg] == m && !dead)
    else
      || (e.Fetch? && (e.fetch.Published? || e.fetch == PublishError(true)) && w.threads[e.t].m == m && !dead)
      || (e.Parse? && e.parse == RetryParse(dead) && w.threads[e.t].m == m)
      || (e.ReplayParse? && w.parseQ.dead[e.msg] == m && !dead)
  }

  ghost function QueueOf(w: World, fetch: bool): Queue {
    if fetch then w.fetchQ else w.parseQ
  }

  /** A message stays in its queue exactly until it is acked or retried; what is new there a step has put there,
      under a new ID. */
  lemma LiveExactly(w: World, e: Event, fetch: bool, id: nat)
    requires Ordered(w) && Enabled(w, e)
    ensures var q, r := QueueOf(w, fetch), QueueOf(After(w, e), fetch);
            if id in q.live then
              (id in r.live <==> !TakesOff(w, e, fetch, id)) && (id in r.live ==> r.live[id] == q.live[id])
            else id in r.live ==> id == q.next && PutsOn(w, e, fetch, r.live[id], false)
  {
  }

  /** A message stays in its DLQ exactly until it is replayed. */
  lemma DeadExactly(w: World, e: Event, fetch: bool, id: nat)
    requires Ordered(w) && Enabled(w, e)
    ensures var q, r := QueueOf(w, fetch), QueueOf(After(w, e), fetch);
            if id in q.dead then
              (id in r.dead <==> !Replays(e, fetch, id)) && (id in r.dead ==> r.dead[id] == q.dead[id])
            else id in r.dead ==> id == q.next && PutsOn(w, e, fetch, r.dead[id], true)
  {
  }

  lemma PutIsThere(w: World, e: Event, fetch: bool, m: Match, dead: bool)
    requires Ordered(w) && Enabled(w, e) && PutsOn(w, e, fetch, m, dead)
    ensures var q, r := QueueOf(w, fetch), QueueOf(After(w, e), fetch);
            && r.next == q.next + 1
            && if dead then q.next in r.dead && r.dead[q.next] == m else q.next in r.live && r.live[q.next] == m
  {
  }

  // ----- Where trust and expiry are needed -----

  lemma Extend(es: seq<Event>, w: World, e: Event)
    requires Run(es) == Some(w) && Enabled(w, e)
    ensures Run(es + [e]) == Some(After(w, e))
  {
    assert (es + [e])[..|es|] == es;
  }

  /** The one match m, discovered, fetched as blob and taken by a parser. */
  ghost predicate AtParser(w: World, m: Match, blob: Match) {
    && w.fetchQ.live == map[] && w.fetchQ.dead == map[] && w.parseQ.live == map[0 := m] && w.parseQ.dead == map[]
    && w.payloads == map[m := blob] && w.db == {} && w.dropped == {} && w.published == {m}
    && w.threads == map[2 := Parsing(0, m)]
  }

  lemma ReachParser(m: Match, blob: Match) returns (es: seq<Event>, w: World)
    ensures Run(es) == Some(w) && AtParser(w, m, blob)
    ensures es == [Discover(m), Fetch(1, TakeFetch(0)), Fetch(1, Fetched(blob)), Fetch(1, Stored), Fetch(1, Published),
                   Fetch(1, AckFetch), Parse(2, TakeParse(0))]
  {
    var steps := [Discover(m), Fetch(1, TakeFetch(0)), Fetch(1, Fetched(blob)), Fetch(1, Stored), Fetch(1, Published),
                  Fetch(1, AckFetch), Parse(2, TakeParse(0))];
    es, w := [], Fresh();
    for i := 0 to 7
      invariant es == steps[..i] && Run(es) == Some(w)
      invariant i == 1 ==> w.fetchQ == Queue(map[0 := m], map[], 1) && w.threads == map[]
      invariant i == 2 ==> w.fetchQ == Queue(map[0 := m], map[], 1) && w.threads == map[1 := Fetching(0, m)]
      invariant i == 3 ==> w.fetchQ == Queue(map[0 := m], map[], 1) && w.threads == map[1 := Storing(0, m, blob)]
      invariant i == 4 ==> w.fetchQ == Queue(map[0 := m], map[], 1) && w.threads == map[1 := Publishing(0, m)]
      invariant i == 5 ==> w.fetchQ == Queue(map[0 := m], map[], 1) && w.threads == map[1 := FetchDone(0, m)]
      invariant i == 6 ==> w.fetchQ == Queue(map[], map[], 1) && w.threads == map[]
      invariant i >= 1 ==> w.published == {m}
      invariant i >= 4 ==> w.payloads == map[m := blob]
      invariant i < 4 ==> w.payloads == map[]
      invariant i < 5 ==> w.parseQ == Queue(map[], map[], 0)
      invariant i >= 5 ==> w.parseQ == Queue(map[0 := m], map[], 1)
      invariant w.db == {} && w.dropped == {} && (i == 0 ==> w == Fresh())
      invariant i == 7 ==> AtParser(w, m, blob)
    {
      Extend(es, w, steps[i]);
      es, w := es + [steps[i]], After(w, steps[i]);
    }
  }

  lemma NextParse(es: seq<Event>, w: World, t: nat, step: ParseStep) returns (run: seq<Event>, v: World)
    requires Run(es) == Some(w) && ParseEnabled(w, t, step)
    ensures run == es + [Parse(t, step)] && Run(run) == Some(v) && v == ParseAfter(w, t, step)
  {
    Extend(es, w, Parse(t, step));
    run, v := es + [Parse(t, step)], ParseAfter(w, t, step);
  }

  ghost predicate Lost(w: World, m: Match) {
    m in w.published && !Somewhere(w, m)
  }

  /** m is waiting under another message of the parse stage. */
  ghost predicate OtherParse(w: World, msg: nat, m: Match) {
    (exists id :: id != msg && id in w.parseQ.live && w.parseQ.live[id] == m)
    || (exists id :: id in w.parseQ.dead && w.parseQ.dead[id] == m)
  }

  lemma AckedExactly(q: Queue, msg: nat, m: Match)
    ensures InQueue(Ack(q, msg), m) <==>
              (exists id :: id != msg && id in q.live && q.live[id] == m)
                || (exists id :: id in q.dead && q.dead[id] == m)
  {
    var p := Ack(q, msg);
    if id: nat :| id != msg && id in q.live && q.live[id] == m {
      assert p.live[id] == m;
    }
    if id :| id in p.live && p.live[id] == m {
      assert id != msg && q.live[id] == m;
    }
  }

  /** Handling a violation of a unique constraint to the end keeps the match exactly if it is in the database or
      dropped already, or waits elsewhere: on the fetch stage, or under another message of the parse stage. */
  lemma DuplicateKeptExactly(es: seq<Event>, t: nat, took: bool) returns (run: seq<Event>)
    requires Run(es).Some? && t in Run(es).value.threads && Run(es).value.threads[t].Ingesting?
    ensures run == es + [Parse(t, Duplicate)] + [Parse(t, Deleted(took))] + [Parse(t, AckParse)] && Run(run).Some?
    ensures Run(run).value.published == Run(es).value.published
    ensures var w := Run(es).value;
            var th := w.threads[t];
            Somewhere(Run(run).value, th.m) <==>
              Finished(w, th.m) || InQueue(w.fetchQ, th.m) || OtherParse(w, th.msg, th.m)
  {
    hide InQueue;
    var w := Run(es).value;
    var v;
    run, v := NextParse(es, w, t, Duplicate);
    run, v := NextParse(run, v, t, Deleted(took));
    assert v.parseQ == w.parseQ && v.fetchQ == w.fetchQ && v.db == w.db && v.dropped == w.dropped;
    AckedExactly(v.parseQ, w.threads[t].msg, w.threads[t].m);
    run, v := NextParse(run, v, t, AckParse);
  }

  /** Handling a commit to the end keeps the match exactly if the blob is its own, or under the same conditions. */
  lemma CommitKeptExactly(es: seq<Event>, t: nat, marked: bool, took: bool) returns (run: seq<Event>)
    requires Run(es).Some? && t in Run(es).value.threads && Run(es).value.threads[t].Ingesting?
    ensures run == es + [Parse(t, Committed)] + [Parse(t, Marked(marked))] + [Parse(t, Deleted(took))]
        + [Parse(t, AckParse)]
    ensures Run(run).Some?
    ensures Run(run).value.published == Run(es).value.published
    ensures var w := Run(es).value;
            var th := w.threads[t];
            Somewhere(Run(run).value, th.m) <==>
              DecodedId(th.m, th.blob) == th.m
              || Finished(w, th.m) || InQueue(w.fetchQ, th.m) || OtherParse(w, th.msg, th.m)
  {
    hide InQueue;
    var w := Run(es).value;
    var v;
    run, v := NextParse(es, w, t, Committed);
    run, v := NextParse(run, v, t, Marked(marked));
    run, v := NextParse(run, v, t, Deleted(took));
    assert v.parseQ == w.parseQ && v.fetchQ == w.fetchQ && v.dropped == w.dropped;
    assert v.db == w.db + {DecodedId(w.threads[t].m, w.threads[t].blob)};
    AckedExactly(v.parseQ, w.threads[t].msg, w.threads[t].m);
    run, v := NextParse(run, v, t, AckParse);
  }

  /** The one match of a world, seen from its parser, waits nowhere else. */
  lemma AloneAtParser(w: World, m: Match, blob: Match)
    requires AtParser(w, m, blob)
    ensures !Finished(w, m) && !InQueue(w.fetchQ, m) && !OtherParse(w, 0, m)
  {
  }

  /** So a violation of some other key, which rolls the transaction back, can lose a match. */
  lemma LostOnOtherDuplicate(m: Match) returns (es: seq<Event>)
    ensures Run(es).Some? && Lost(Run(es).value, m)
  {
    hide InQueue;
    var start, w, v;
    start, w := ReachParser(m, m);
    AloneAtParser(w, m, m);
    es, v := NextParse(start, w, 2, Found);
    StillAlone(w, v, m);
    es := DuplicateKeptExactly(es, 2, true);
  }

  lemma StillAlone(w: World, v: World, m: Match)
    requires v.parseQ == w.parseQ && v.fetchQ == w.fetchQ && v.db == w.db && v.dropped == w.dropped
    requires !Finished(w, m) && !InQueue(w.fetchQ, m) && !OtherParse(w, 0, m)
    ensures !Finished(v, m) && !InQueue(v.fetchQ, m) && !OtherParse(v, 0, m)
  {
  }

  /** So an upstream that answers with another match can lose the one asked for. */
  lemma LostOnWrongBlob(m: Match, other: Match) returns (es: seq<Event>)
    requires other != m && other != 0
    ensures Run(es).Some? && Lost(Run(es).value, m)
  {
    hide InQueue;
    var start, w, v;
    start, w := ReachParser(m, other);
    AloneAtParser(w, m, other);
    es, v := NextParse(start, w, 2, Found);
    StillAlone(w, v, m);
    es := CommitKeptExactly(es, 2, true, true);
  }

  /** From any state, the expiry of an uncommitted match with a parse task in the queue lets a parser drop it. */
  lemma ExpiryDrops(es: seq<Event>, m: Match, msg: nat, t: nat) returns (run: seq<Event>)
    requires Run(es).Some?
    requires var w := Run(es).value;
             msg in w.parseQ.live && w.parseQ.live[msg] == m && m !in w.db && t !in w.threads
    ensures run == es + [Expire(m)] + [Parse(t, TakeParse(msg))] + [Parse(t, Missing)] && Run(run).Some?
    ensures m in Run(run).value.dropped && m !in Run(run).value.db
  {
    var w := Run(es).value;
    Extend(es, w, Expire(m));
    var v;
    run, v := NextParse(es + [Expire(m)], After(w, Expire(m)), t, TakeParse(msg));
    run, v := NextParse(run, v, t, Missing);
  }

  /** After which the match may be nowhere but among the dropped ones. */
  lemma DroppedOnExpiry(m: Match) returns (es: seq<Event>)
    ensures Run(es).Some?
    ensures var w := Run(es).value; m in w.dropped && m !in w.db && !InQueue(w.fetchQ, m) && !InQueue(w.parseQ, m)
  {
    var w;
    es, w := ReachParser(m, m);
    Extend(es, w, Expire(m));
    es, w := NextParse(es + [Expire(m)], After(w, Expire(m)), 2, Missing);
    es, w := NextParse(es, w, 2, AckParse);
  }

  // ----- The handlers -----

  /** Where a handler's steps lead; None if one is not possible. */
  ghost function FetchAll(w: World, t: nat, steps: seq<FetchStep>): Option<World> {
    if steps == [] then Some(w)
    else
      match FetchAll(w, t, steps[..|steps| - 1])
      case None => None
      case Some(v) =>
        if FetchEnabled(v, t, steps[|steps| - 1]) then Some(FetchAfter(v, t, steps[|steps| - 1])) else None
  }

  ghost function ParseAll(w: World, t: nat, steps: seq<ParseStep>): Option<World> {
    if steps == [] then Some(w)
    else
      match ParseAll(w, t, steps[..|steps| - 1])
      case None => None
      case Some(v) =>
        if ParseEnabled(v, t, steps[|steps| - 1]) then Some(ParseAfter(v, t, steps[|steps| - 1])) else None
  }

  lemma FetchThen(w: World, t: nat, steps: seq<FetchStep>, v: World, step: FetchStep)
    requires FetchAll(w, t, steps) == Some(v) && FetchEnabled(v, t, step)
    ensures FetchAll(w, t, steps + [step]) == Some(FetchAfter(v, t, step))
  {
    assert (steps + [step])[..|steps|] == steps;
  }

  lemma ParseThen(w: World, t: nat, steps: seq<ParseStep>, v: World, step: ParseStep)
    requires ParseAll(w, t, steps) == Some(v) && ParseEnabled(v, t, step)
    ensures ParseAll(w, t, steps + [step]) == Some(ParseAfter(v, t, step))
  {
    assert (steps + [step])[..|steps|] == steps;
  }

  /** What a handler makes of its message. */
  datatype Returned = Nil | Drop | Error

  /** How a call ends: with its effect, without, or with its effect and an error all the same. */
  datatype Outcome = Good | Bad | BadAfterEffect

  datatype FetchAnswer = Body(blob: Match) | Permanent | Transient

  datatype IngestAnswer = Commits | CommitsUnreported | Violates | Refuses

  datatype ReadAnswer = Answers | ReadFails

  class Site {
    var fetchQ: Queue
    var parseQ: Queue
    var payloads: map<Match, Match>
    var db: set<Match>
    var seen: set<Match>
    ghost var published: set<Match>
    ghost var dropped: set<Match>

    constructor ()
      ensures World(fetchQ, parseQ, payloads, db, seen, published, dropped, map[]) == Fresh()
    {
      fetchQ, parseQ := Queue(map[], map[], 0), Queue(map[], map[], 0);
      payloads, db, seen, published, dropped := map[], {}, {}, {}, {};
    }

    /** The site with the one handler at work. */
    ghost function Value(t: nat, th: Thread): World
      reads this
    {
      World(fetchQ, parseQ, payloads, db, seen, published, dropped, map[t := th])
    }

    /** The fetcher's handleMessage for a well-formed task. */
    method HandleFetch(msg: nat, m: Match, answer: FetchAnswer, put: Outcome, publish: Outcome, ghost t: nat)
      returns (r: Returned, ghost steps: seq<FetchStep>)
      modifies this
      ensures FetchAll(old(Value(t, Fetching(msg, m))), t, steps) ==
                Some(Value(t, if r == Error then FetchFailed(msg, m) else FetchDone(msg, m)))
      ensures r == Nil <==> answer.Body? && put == Good && publish == Good
      ensures r == Drop <==> answer.Permanent?
      ensures r == Error <==> answer.Transient? || (answer.Body? && (put != Good || publish != Good))
      ensures payloads == if answer.Body? && put != Bad then old(payloads)[m := answer.blob] else old(payloads)
      ensures parseQ == if answer.Body? && put == Good && publish != Bad then Put(old(parseQ), m) else old(parseQ)
      ensures dropped == if answer.Permanent? then old(dropped) + {m} else old(dropped)
      ensures fetchQ == old(fetchQ) && db == old(db) && seen == old(seen) && published == old(published)
    {
      hide FetchAll;
      ghost var start := Value(t, Fetching(msg, m));
      steps := [];
      NoSteps(start, t);
      match answer
      case Permanent =>
        FetchThen(start, t, steps, start, FetchDrop);
        steps := steps + [FetchDrop];
        dropped := dropped + {m};
        return Drop, steps;
      case Transient =>
        FetchThen(start, t, steps, start, FetchError);
        steps := steps + [FetchError];
        return Error, steps;
      case Body(blob) =>
        FetchThen(start, t, steps, start, Fetched(blob));
        steps := steps + [Fetched(blob)];
        ghost var step := if put == Good then Stored else StoreError(put == BadAfterEffect);
        FetchThen(start, t, steps, Value(t, Storing(msg, m, blob)), step);
        steps := steps + [step];
        if put != Bad {
          payloads := payloads[m := blob];
        }
        if put != Good {
          return Error, steps;
        }
        step := if publish == Good then Published else PublishError(publish == BadAfterEffect);
        FetchThen(start, t, steps, Value(t, Publishing(msg, m)), step);
        steps := steps + [step];
        if publish != Bad {
          parseQ := Put(parseQ, m);
        }
        if publish != Good {
          return Error, steps;
        }
        return Nil, steps;
    }

    /** The ingester: commit, then mark as seen. */
    method Ingest(msg: nat, m: Match, blob: Match, answer: IngestAnswer, mark: Outcome, ghost t: nat)
      returns (err: Option<IngestError>, ghost steps: seq<ParseStep>)
      modifies this
      ensures ParseAll(old(Value(t, Ingesting(msg, m, blob))), t, steps) ==
                Some(Value(t, if err == Some(Other) then ParseFailed(msg, m) else Deleting(msg, m)))
      ensures err == None <==> answer == Commits
      ensures err == Some(AlreadySeen) <==> answer == Violates
      ensures err == Some(Other) <==> answer == Refuses || answer == CommitsUnreported
      ensures db == if answer == Commits || answer == CommitsUnreported then old(db) + {DecodedId(m, blob)} else old(db)
      ensures seen == if answer == Commits && mark != Bad then old(seen) + {DecodedId(m, blob)} else old(seen)
      ensures payloads == old(payloads) && fetchQ == old(fetchQ) && parseQ == old(parseQ)
      ensures published == old(published) && dropped == old(dropped)
    {
      hide ParseAll;
      ghost var start := Value(t, Ingesting(msg, m, blob));
      steps := [];
      NoParseSteps(start, t);
      var id := DecodedId(m, blob);
      if answer == Violates {
        ParseThen(start, t, steps, start, Duplicate);
        return Some(AlreadySeen), steps + [Duplicate];
      }
      if answer != Commits {
        ghost var step := if answer == Refuses then ParseError else CommitUnreported;
        ParseThen(start, t, steps, start, step);
        if answer == CommitsUnreported {
          db := db + {id};
        }
        return Some(Other), steps + [step];
      }
      ParseThen(start, t, steps, start, Committed);
      steps := steps + [Committed];
      db := db + {id};
      ParseThen(start, t, steps, Value(t, Marking(msg, m, id)), Marked(mark != Bad));
      steps := steps + [Marked(mark != Bad)];
      if mark != Bad {
        seen := seen + {id};
      }
      return None, steps;
    }

    /** The parser's handleMessage for a well-formed task; decodes and valid say what decoding and validation
        make of the payload. */
    method HandleParse(msg: nat, m: Match, read: ReadAnswer, decodes: Returned, valid: bool, answer: IngestAnswer,
                       mark: Outcome, delete: Outcome, ghost t: nat)
      returns (r: Returned, ghost steps: seq<ParseStep>)
      modifies this
      ensures ParseAll(old(Value(t, Parsing(msg, m))), t, steps) ==
                Some(Value(t, if r == Error then ParseFailed(msg, m) else ParseDone(msg, m)))
      ensures var ingested := read == Answers && m in old(payloads) && decodes == Nil && valid;
              && (r == Nil <==> ingested && (answer == Commits || answer == Violates))
              && payloads == (if r == Nil && delete != Bad then old(payloads) - {m} else old(payloads))
              && db == (if ingested && (answer == Commits || answer == CommitsUnreported)
                        then old(db) + {DecodedId(m, old(payloads)[m])} else old(db))
              && seen == (if ingested && answer == Commits && mark != Bad
                          then old(seen) + {DecodedId(m, old(payloads)[m])} else old(seen))
      ensures dropped == if r == Drop then old(dropped) + {m} else old(dropped)
      ensures fetchQ == old(fetchQ) && parseQ == old(parseQ) && published == old(published)
      ensures r == Drop <==> read == Answers && (m !in old(payloads) || decodes == Drop || (decodes == Nil && !valid))
    {
      hide ParseAll;
      ghost var start := Value(t, Parsing(msg, m));
      steps := [];
      NoParseSteps(start, t);
      if read == ReadFails {
        ParseThen(start, t, steps, start, GetError);
        return Error, steps + [GetError];
      }
      if m !in payloads {
        ParseThen(start, t, steps, start, Missing);
        dropped := dropped + {m};
        return Drop, steps + [Missing];
      }
      var blob := payloads[m];
      ParseThen(start, t, steps, start, Found);
      steps := steps + [Found];
      ghost var reading := Value(t, Ingesting(msg, m, blob));
      if decodes == Error {
        ParseThen(start, t, steps, reading, ParseError);
        return Error, steps + [ParseError];
      }
      if decodes == Drop || !valid {
        ParseThen(start, t, steps, reading, ParseDrop);
        dropped := dropped + {m};
        return Drop, steps + [ParseDrop];
      }
      var err;
      ghost var more;
      err, more := Ingest(msg, m, blob, answer, mark, t);
      ParseJoins(start, t, steps, reading, more);
      steps := steps + more;
      if err == Some(Other) {
        return Error, steps;
      }
      ParseThen(start, t, steps, Value(t, Deleting(msg, m)), Deleted(delete != Bad));
      steps := steps + [Deleted(delete != Bad)];
      if delete != Bad {
        payloads := payloads - {m};
      }
      return Nil, steps;
    }
  }

  datatype IngestError = AlreadySeen | Other

  lemma NoSteps(w: World, t: nat)
    ensures FetchAll(w, t, []) == Some(w)
  {
  }

  lemma NoParseSteps(w: World, t: nat)
    ensures ParseAll(w, t, []) == Some(w)
  {
  }

  lemma {:induction false} ParseJoins(w: World, t: nat, steps: seq<ParseStep>, v: World, more: seq<ParseStep>)
    requires ParseAll(w, t, steps) == Some(v)
    ensures ParseAll(w, t, steps + more) == ParseAll(v, t, more)
  {
    if more == [] {
      assert steps + more == steps;
    } else {
      ParseJoins(w, t, steps, v, more[..|more| - 1]);
      assert (steps + more)[..|steps + more| - 1] == steps + more[..|more| - 1];
    }
  }
}
