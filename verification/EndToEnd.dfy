/** The pipeline on its real queues: the handlers' steps of Pipeline, each task handed out by, and returned to, the
    Redis-streams queues of QueueNoLoss (go-ingestion/internal/worker/fetcher/fetcher.go:120-166,
    worker/parser/parser.go:91-157, queue/redisstreams/queue.go:590-607). Single Redis commands on both streams
    and single steps of any number of handlers interleave and stop anywhere. */
module EndToEnd {
  import opened Decimal
  import opened QueueTypes
  import opened RedisStreams
  import P = Pipeline
  import Q = QueueNoLoss

  type Match = P.Match

  /** The stores and the handlers at work; the site's own queues stay empty, the Redis ones take their place. */
  datatype World = World(site: P.World, fetch: Q.World<Match>, parse: Q.World<Match>)

  datatype Event =
    | FetchQueue(command: Q.Event<Match>) // on the fetch stream and its retries and DLQ; discovery publishes there
    | ParseQueue(command: Q.Event<Match>)
    | TakeFetch(t: nat, task: Task<Match>)
    | TakeParse(t: nat, task: Task<Match>)
    | Fetch(t: nat, fetch: P.FetchStep, headers: map<string, string>)
    | Parse(t: nat, parse: P.ParseStep)
    | ReturnFetch(t: nat, task: Task<Match>) // nil or ErrDrop, after which the queue may ack
    | ReturnParse(t: nat, task: Task<Match>)
    | Expire(m: Match)
    | Crash(t: nat)

  /** The configurations of the two queues. */
  datatype Queues = Queues(fetch: Config<Match>, parse: Config<Match>)

  /** Steps inside a handler. */
  predicate InFetcher(step: P.FetchStep) {
    !step.TakeFetch? && !step.AckFetch? && !step.RetryFetch?
  }

  predicate InParser(step: P.ParseStep) {
    !step.TakeParse? && !step.AckParse? && !step.RetryParse?
  }

  predicate Publishes(step: P.FetchStep) {
    step.Published? || (step.PublishError? && step.took)
  }

  ghost predicate Enabled(w: World, e: Event) {
    match e
    case FetchQueue(c) => Q.Enabled(w.fetch, c) && !c.HandlerDone?
    case ParseQueue(c) => Q.Enabled(w.parse, c) && !c.HandlerDone? && !c.Publish?
    case TakeFetch(t, task) => t !in w.site.threads && task in w.fetch.seen
    case TakeParse(t, task) => t !in w.site.threads && task in w.parse.seen
    case Fetch(t, step, _) => InFetcher(step) && P.FetchEnabled(w.site, t, step)
    case Parse(t, step) => InParser(step) && P.ParseEnabled(w.site, t, step)
    case ReturnFetch(t, task) =>
      t in w.site.threads && w.site.threads[t] == P.FetchDone(task.id, task.payload) && task in w.fetch.seen
    case ReturnParse(t, task) =>
      t in w.site.threads && w.site.threads[t] == P.ParseDone(task.id, task.payload) && task in w.parse.seen
    case Expire(_) => true
    case Crash(t) => t in w.site.threads
  }

  /** What the fetcher publishes goes to the Redis stream. */
  ghost function Published(qs: Queues, w: World, m: Match, headers: map<string, string>): Q.World<Match> {
    Q.After(qs.parse, w.parse, Q.Publish(Message(m, headers)))
  }

  ghost function After(qs: Queues, w: World, e: Event): World
    requires Enabled(w, e)
  {
    var site := w.site;
    match e
    case FetchQueue(c) => w.(fetch := Q.After(qs.fetch, w.fetch, c))
    case ParseQueue(c) => w.(parse := Q.After(qs.parse, w.parse, c))
    case TakeFetch(t, task) => w.(site := P.Goes(site, t, P.Fetching(task.id, task.payload)))
    case TakeParse(t, task) => w.(site := P.Goes(site, t, P.Parsing(task.id, task.payload)))
    case Fetch(t, step, headers) =>
      w.(site := P.FetchAfter(site, t, step).(parseQ := site.parseQ),
         parse := if Publishes(step) then Published(qs, w, site.threads[t].m, headers) else w.parse)
    case Parse(t, step) => w.(site := P.ParseAfter(site, t, step))
    case ReturnFetch(t, task) =>
      w.(site := P.Leaves(site, t), fetch := Q.After(qs.fetch, w.fetch, Q.HandlerDone(task)))
    case ReturnParse(t, task) =>
      w.(site := P.Leaves(site, t), parse := Q.After(qs.parse, w.parse, Q.HandlerDone(task)))
    case Expire(m) => w.(site := P.After(site, P.Expire(m)))
    case Crash(t) => w.(site := P.Leaves(site, t))
  }

  ghost function Run(qs: Queues, es: seq<Event>): Option<World> {
    if es == [] then Some(World(P.Fresh(), Q.Fresh(), Q.Fresh()))
    else
      match Run(qs, es[..|es| - 1])
      case None => None
      case Some(w) => if Enabled(w, es[|es| - 1]) then Some(After(qs, w, es[|es| - 1])) else None
  }

  // ----- Provisos -----

  /** The provisos of the parts, and a group on the parse stream before anything is published there that is not
      in the database or dropped already. */
  ghost predicate Safe(qs: Queues, w: World, e: Event) {
    match e
    case FetchQueue(c) => Q.Safe(qs.fetch, w.fetch, c)
    case ParseQueue(c) => Q.Safe(qs.parse, w.parse, c)
    case Fetch(t, step, _) =>
      t in w.site.threads && step.Published? ==> w.parse.db.grouped || P.Finished(w.site, w.site.threads[t].m)
    case Parse(t, step) => P.Faithful(w.site, P.Parse(t, step))
    case _ => true
  }

  ghost predicate AllSafe(qs: Queues, es: seq<Event>) {
    es == []
    || (AllSafe(qs, es[..|es| - 1])
        && (Run(qs, es[..|es| - 1]).Some? ==> Safe(qs, Run(qs, es[..|es| - 1]).value, es[|es| - 1])))
  }

  // ----- Where a match is -----

  ghost predicate Downstream(w: World, m: Match) {
    m in w.parse.published || P.Finished(w.site, m)
  }

  /** In a live entry, scheduled or dead in one of the queues, or in the database, or dropped. */
  ghost predicate Somewhere(w: World, m: Match) {
    Q.HasCopy(w.fetch.db, m, 0) || Q.HasCopy(w.parse.db, m, 0) || P.Finished(w.site, m)
  }

  ghost predicate ThreadFits(w: World, th: P.Thread) {
    && (th.FetchDone? ==> Downstream(w, th.m))
    && (th.Marking? || th.Deleting? ==> th.m in w.site.db)
    && (th.ParseDone? ==> P.Finished(w.site, th.m))
  }

  ghost predicate Sound(q: Q.World<Match>) {
    Q.WellFormed(q) && Q.Covered(q)
  }

  /** What a stage has settled is with the next one. */
  ghost predicate Handed(w: World) {
    && (forall m :: m in w.fetch.settled ==> Downstream(w, m))
    && (forall m :: m in w.parse.settled ==> P.Finished(w.site, m))
    && (forall t :: t in w.site.threads ==> ThreadFits(w, w.site.threads[t]))
  }

  // ----- Each step hands on -----

  /** Only a handler's return settles; published only grows. */
  lemma CommandSettlesNothing(cfg: Config<Match>, q: Q.World<Match>, c: Q.Event<Match>)
    requires Q.Enabled(q, c) && !c.HandlerDone?
    ensures Q.After(cfg, q, c).settled == q.settled && q.published <= Q.After(cfg, q, c).published
  {
  }

  lemma CommandKeepsSound(cfg: Config<Match>, q: Q.World<Match>, c: Q.Event<Match>)
    requires Sound(q) && Q.Enabled(q, c) && Q.Safe(cfg, q, c)
    ensures Sound(Q.After(cfg, q, c))
  {
    Q.StepKeepsWellFormed(cfg, q, c);
    Q.StepKeepsCovered(cfg, q, c);
  }

  lemma StepKeepsSound(qs: Queues, w: World, e: Event)
    requires Sound(w.fetch) && Sound(w.parse) && Enabled(w, e) && Safe(qs, w, e)
    ensures Sound(After(qs, w, e).fetch) && Sound(After(qs, w, e).parse)
  {
    hide Sound, Q.After;
    match e
    case FetchQueue(c) => CommandKeepsSound(qs.fetch, w.fetch, c);
    case ParseQueue(c) => CommandKeepsSound(qs.parse, w.parse, c);
    case ReturnFetch(_, task) => CommandKeepsSound(qs.fetch, w.fetch, Q.HandlerDone(task));
    case ReturnParse(_, task) => CommandKeepsSound(qs.parse, w.parse, Q.HandlerDone(task));
    case Fetch(t, step, headers) =>
      if Publishes(step) {
        CommandKeepsSound(qs.parse, w.parse, Q.Publish(Message(w.site.threads[t].m, headers)));
      }
    case _ =>
  }

  /** Nothing is taken back: settled, published, committed and dropped only grow. */
  ghost predicate Grows(w: World, v: World) {
    w.parse.published <= v.parse.published && w.site.db <= v.site.db && w.site.dropped <= v.site.dropped
  }

  lemma GrowsKeepsHanded(w: World, v: World)
    requires Handed(w) && Grows(w, v) && v.fetch.settled == w.fetch.settled && v.parse.settled == w.parse.settled
    requires forall t :: t in v.site.threads ==>
        (t in w.site.threads && v.site.threads[t] == w.site.threads[t]) || ThreadFits(v, v.site.threads[t])
    ensures Handed(v)
  {
  }

  lemma PublishedHas(qs: Queues, w: World, m: Match, headers: map<string, string>)
    ensures var q := Published(qs, w, m, headers);
            q.settled == w.parse.settled && q.seen == w.parse.seen && q.db.grouped == w.parse.db.grouped
            && q.published == if q.db.grouped then w.parse.published + {m} else w.parse.published
  {
  }

  lemma FetchMoves(site: P.World, t: nat, step: P.FetchStep)
    requires InFetcher(step) && P.FetchEnabled(site, t, step)
    ensures t in site.threads
    ensures var v := P.FetchAfter(site, t, step);
            && v.db == site.db && site.dropped <= v.dropped && v.seen == site.seen
            && v.threads == site.threads[t := v.threads[t]] && v.threads[t].m == site.threads[t].m
            && (v.threads[t].FetchDone? ==> v.threads[t].m in v.dropped || step.Published?)
            && P.IsFetcher(v.threads[t])
            && (v.payloads == site.payloads || v.payloads == site.payloads[v.threads[t].m := site.threads[t].blob])
            && (v.threads[t].Publishing? ==> v.threads[t].m in v.payloads)
  {
  }

  lemma FetchStepHands(qs: Queues, w: World, t: nat, step: P.FetchStep, headers: map<string, string>)
    requires Handed(w) && Enabled(w, Fetch(t, step, headers)) && Safe(qs, w, Fetch(t, step, headers))
    ensures Handed(After(qs, w, Fetch(t, step, headers)))
  {
    hide Q.After, P.Goes;
    if Publishes(step) {
      PublishedHas(qs, w, w.site.threads[t].m, headers);
    }
    FetchMoves(w.site, t, step);
    GrowsKeepsHanded(w, After(qs, w, Fetch(t, step, headers)));
  }

  lemma ParseStepHands(qs: Queues, w: World, t: nat, step: P.ParseStep)
    requires Handed(w) && Enabled(w, Parse(t, step)) && Safe(qs, w, Parse(t, step))
    ensures Handed(After(qs, w, Parse(t, step)))
  {
    assert ThreadFits(w, w.site.threads[t]);
    GrowsKeepsHanded(w, After(qs, w, Parse(t, step)));
  }

  lemma StepHands(qs: Queues, w: World, e: Event)
    requires Handed(w) && Enabled(w, e) && Safe(qs, w, e)
    ensures Handed(After(qs, w, e))
  {
    hide Q.Enabled, P.FetchAfter, P.ParseAfter;
    var v := After(qs, w, e);
    match e
    case FetchQueue(c) =>
      CommandSettlesNothing(qs.fetch, w.fetch, c);
      GrowsKeepsHanded(w, v);
    case ParseQueue(c) =>
      CommandSettlesNothing(qs.parse, w.parse, c);
      GrowsKeepsHanded(w, v);
    case Fetch(t, step, headers) => FetchStepHands(qs, w, t, step, headers);
    case Parse(t, step) => ParseStepHands(qs, w, t, step);
    case ReturnFetch(t, _) => assert ThreadFits(w, w.site.threads[t]);
    case ReturnParse(t, _) => assert ThreadFits(w, w.site.threads[t]);
    case _ => GrowsKeepsHanded(w, v);
  }

  lemma {:induction false} RunHands(qs: Queues, es: seq<Event>)
    requires Run(qs, es).Some? && AllSafe(qs, es)
    ensures var w := Run(qs, es).value; Sound(w.fetch) && Sound(w.parse) && Handed(w)
  {
    if es != [] {
      var w, e := Run(qs, es[..|es| - 1]).value, es[|es| - 1];
      RunHands(qs, es[..|es| - 1]);
      StepKeepsSound(qs, w, e);
      StepHands(qs, w, e);
    }
  }

  /** In every reachable state each match published to the fetch stream's group is undelivered, pending, scheduled or
      dead in one of the two Redis queues, or in the database, unless a handler dropped it. */
  lemma NeverNowhere(qs: Queues, es: seq<Event>, m: Match)
    requires Run(qs, es).Some? && AllSafe(qs, es) && m in Run(qs, es).value.fetch.published
    ensures Somewhere(Run(qs, es).value, m)
  {
    RunHands(qs, es);
  }

  ghost predicate Inv(w: World) {
    Sound(w.fetch) && Sound(w.parse) && Handed(w)
  }

  lemma CommandSoundExactly(cfg: Config<Match>, q: Q.World<Match>, c: Q.Event<Match>)
    requires Sound(q) && Q.PelFits(q) && Q.Enabled(q, c)
    ensures Sound(Q.After(cfg, q, c)) <==> Q.Safe(cfg, q, c)
  {
    Q.StepKeepsWellFormed(cfg, q, c);
    Q.CoveredExactly(cfg, q, c);
  }

  /** A step of any kind keeps every match accounted for exactly if it is safe. */
  lemma SafeExactly(qs: Queues, w: World, e: Event)
    requires Inv(w) && Q.PelFits(w.fetch) && Q.PelFits(w.parse) && Enabled(w, e)
    ensures Inv(After(qs, w, e)) <==> Safe(qs, w, e)
  {
    hide Sound, Handed, Q.After, Q.PelFits;
    if Safe(qs, w, e) {
      StepKeepsSound(qs, w, e);
      StepHands(qs, w, e);
    } else {
      match e
      case FetchQueue(c) => CommandSoundExactly(qs.fetch, w.fetch, c);
      case ParseQueue(c) => CommandSoundExactly(qs.parse, w.parse, c);
      case Fetch(t, step, headers) => UnheardPublish(qs, w, t, headers);
      case Parse(t, step) => UnfaithfulStep(qs, w, t, step);
    }
  }

  lemma UnheardPublish(qs: Queues, w: World, t: nat, headers: map<string, string>)
    requires Sound(w.parse) && Enabled(w, Fetch(t, P.Published, headers))
    requires !w.parse.db.grouped && !P.Finished(w.site, w.site.threads[t].m)
    ensures !Handed(After(qs, w, Fetch(t, P.Published, headers)))
  {
    hide Q.After;
    var v := After(qs, w, Fetch(t, P.Published, headers));
    PublishedHas(qs, w, w.site.threads[t].m, headers);
    assert v.site.threads[t].FetchDone? && !Downstream(v, v.site.threads[t].m);
  }

  lemma UnfaithfulStep(qs: Queues, w: World, t: nat, step: P.ParseStep)
    requires Enabled(w, Parse(t, step)) && !P.Faithful(w.site, P.Parse(t, step))
    ensures !Handed(After(qs, w, Parse(t, step)))
  {
    var v := After(qs, w, Parse(t, step));
    assert !ThreadFits(v, v.site.threads[t]);
  }

  /** A handler that returns is over, and its message settled in its queue: only then can the queue ack it. */
  lemma ReturnSettles(qs: Queues, w: World, t: nat, task: Task<Match>)
    ensures Enabled(w, ReturnFetch(t, task)) ==>
              var v := After(qs, w, ReturnFetch(t, task));
              t !in v.site.threads && v.fetch.settled == w.fetch.settled + {task.payload}
              && Q.Enabled(v.fetch, Q.SendAck(task))
    ensures Enabled(w, ReturnParse(t, task)) ==>
              var v := After(qs, w, ReturnParse(t, task));
              t !in v.site.threads && v.parse.settled == w.parse.settled + {task.payload}
              && Q.Enabled(v.parse, Q.SendAck(task))
  {
  }

  // ----- Payloads -----

  ghost predicate Backed(w: World, m: Match) {
    m in w.site.payloads || P.Finished(w.site, m)
  }

  /** Some parser may still ask for the payload. */
  ghost predicate Awaited(w: World, m: Match) {
    m in w.parse.published
    || exists t :: t in w.site.threads && w.site.threads[t].Publishing? && w.site.threads[t].m == m
  }

  ghost predicate BackedInv(w: World) {
    forall m :: Awaited(w, m) ==> Backed(w, m)
  }

  ghost predicate Harmless(w: World, e: Event) {
    e.Expire? ==> e.m !in w.site.payloads || P.Finished(w.site, e.m) || !Awaited(w, e.m)
  }

  /** An expiry leaves all that parsers may ask for backed exactly if there was nothing to expire, the match is
      committed or dropped, or no parser will ask. */
  lemma ExpiryExactly(qs: Queues, w: World, m: Match)
    requires BackedInv(w)
    ensures BackedInv(After(qs, w, Expire(m))) <==> Harmless(w, Expire(m))
  {
    hide Awaited;
    var v := After(qs, w, Expire(m));
    forall n
      ensures Awaited(v, n) <==> Awaited(w, n)
    {
      SameAwaited(w, v, n);
    }
    if !Harmless(w, Expire(m)) {
      assert Awaited(v, m) && !Backed(v, m);
    }
  }

  lemma SameAwaited(w: World, v: World, m: Match)
    requires v.parse == w.parse && v.site.threads == w.site.threads
    ensures Awaited(v, m) <==> Awaited(w, m)
  {
  }

  /** Whatever a parse task was handed out for, or is being parsed, was published. */
  ghost predicate FromPublished(w: World) {
    && (if w.parse.db.grouped then Q.Sourced(w.parse) else Q.Untouched(w.parse))
    && forall t :: t in w.site.threads && !P.IsFetcher(w.site.threads[t]) ==>
         w.site.threads[t].m in w.parse.published
  }

  lemma CommandFromPublished(cfg: Config<Match>, q: Q.World<Match>, c: Q.Event<Match>)
    requires Q.WellFormed(q) && Q.Enabled(q, c)
    requires if q.db.grouped then Q.Sourced(q) else Q.Untouched(q)
    ensures var v := Q.After(cfg, q, c); if v.db.grouped then Q.Sourced(v) else Q.Untouched(v)
  {
    hide Q.WellFormed, Q.Sourced, Q.Untouched, Q.Enabled;
    if c != Q.CreateGroup {
      Q.GroupStays(cfg, q, c);
    }
    if q.db.grouped {
      Q.StepSourced(cfg, q, c);
    } else if c == Q.CreateGroup {
      Q.CreatedSourced(cfg, q);
    } else {
      Q.UntouchedStep(cfg, q, c);
    }
  }

  lemma SeenIsPublished(q: Q.World<Match>, task: Task<Match>)
    requires if q.db.grouped then Q.Sourced(q) else Q.Untouched(q)
    requires task in q.seen
    ensures task.payload in q.published
  {
  }

  lemma ParseMoves(site: P.World, t: nat, step: P.ParseStep)
    requires InParser(step) && P.ParseEnabled(site, t, step)
    ensures t in site.threads
    ensures var v := P.ParseAfter(site, t, step);
            && site.db <= v.db && site.dropped <= v.dropped
            && v.threads == site.threads[t := v.threads[t]] && v.threads[t].m == site.threads[t].m
            && !P.IsFetcher(v.threads[t]) && !P.IsFetcher(site.threads[t])
            && (v.payloads == site.payloads
                || (site.threads[t].Deleting? && v.payloads == site.payloads - {site.threads[t].m}))
  {
  }

  lemma CommandPublishesNothing(cfg: Config<Match>, q: Q.World<Match>, c: Q.Event<Match>)
    requires Q.Enabled(q, c) && !c.Publish?
    ensures Q.After(cfg, q, c).published == q.published
  {
  }

  lemma StepFromPublished(qs: Queues, w: World, e: Event)
    requires FromPublished(w) && Sound(w.parse) && Enabled(w, e)
    ensures FromPublished(After(qs, w, e))
  {
    hide Q.After, Q.Sourced, Q.Untouched, Q.Enabled, Q.Covered, Q.WellFormed;
    hide P.FetchAfter, P.ParseAfter, P.FetchEnabled, P.ParseEnabled;
    match e
    case ParseQueue(c) =>
      CommandFromPublished(qs.parse, w.parse, c);
      CommandPublishesNothing(qs.parse, w.parse, c);
    case TakeParse(_, task) => SeenIsPublished(w.parse, task);
    case Fetch(t, step, headers) =>
      FetchMoves(w.site, t, step);
      if Publishes(step) {
        PublishIsEnabled(w.parse, Message(w.site.threads[t].m, headers));
        CommandFromPublished(qs.parse, w.parse, Q.Publish(Message(w.site.threads[t].m, headers)));
        PublishedHas(qs, w, w.site.threads[t].m, headers);
      }
    case Parse(t, step) => ParseMoves(w.site, t, step);
    case ReturnParse(_, task) =>
      DoneIsEnabled(w.parse, task);
      CommandFromPublished(qs.parse, w.parse, Q.HandlerDone(task));
      CommandPublishesNothing(qs.parse, w.parse, Q.HandlerDone(task));
    case _ =>
  }

  lemma PublishIsEnabled(q: Q.World<Match>, msg: Message<Match>)
    ensures Q.Enabled(q, Q.Publish(msg))
  {
  }

  lemma DoneIsEnabled(q: Q.World<Match>, task: Task<Match>)
    requires task in q.seen
    ensures Q.Enabled(q, Q.HandlerDone(task))
  {
  }

  /** Nobody new asks, and nothing is taken from those who ask. */
  lemma BackedStays(w: World, v: World)
    requires BackedInv(w)
    requires forall m :: Awaited(v, m) ==> Awaited(w, m) || Backed(v, m)
    requires forall m :: Backed(w, m) ==> Backed(v, m)
    ensures BackedInv(v)
  {
    hide Awaited, Backed;
  }

  lemma StepKeepsBacked(qs: Queues, w: World, e: Event)
    requires BackedInv(w) && Handed(w) && Enabled(w, e) && Harmless(w, e)
    ensures BackedInv(After(qs, w, e))
  {
    hide Q.After, Q.Enabled, P.FetchAfter, P.ParseAfter, P.FetchEnabled, P.ParseEnabled;
    var v := After(qs, w, e);
    match e
    case Expire(m) => ExpiryExactly(qs, w, m);
    case ParseQueue(c) =>
      CommandPublishesNothing(qs.parse, w.parse, c);
      BackedStays(w, v);
    case ReturnParse(_, task) =>
      DoneIsEnabled(w.parse, task);
      CommandPublishesNothing(qs.parse, w.parse, Q.HandlerDone(task));
      BackedStays(w, v);
    case Fetch(t, step, headers) => FetchKeepsBacked(qs, w, t, step, headers);
    case Parse(t, step) =>
      ParseMoves(w.site, t, step);
      assert ThreadFits(w, w.site.threads[t]);
      BackedStays(w, v);
    case _ => BackedStays(w, v);
  }

  lemma FetchKeepsBacked(qs: Queues, w: World, t: nat, step: P.FetchStep, headers: map<string, string>)
    requires BackedInv(w) && Enabled(w, Fetch(t, step, headers))
    ensures BackedInv(After(qs, w, Fetch(t, step, headers)))
  {
    hide Q.After, P.FetchAfter;
    var v := After(qs, w, Fetch(t, step, headers));
    var m := w.site.threads[t].m;
    FetchMoves(w.site, t, step);
    PublishedHas(qs, w, m, headers);
    if Publishes(step) {
      assert Awaited(w, m);
    }
    BackedStays(w, v);
  }

  ghost predicate AllHarmless(qs: Queues, es: seq<Event>) {
    es == []
    || (AllHarmless(qs, es[..|es| - 1])
        && (Run(qs, es[..|es| - 1]).Some? ==> Harmless(Run(qs, es[..|es| - 1]).value, es[|es| - 1])))
  }

  lemma {:induction false} RunBacked(qs: Queues, es: seq<Event>)
    requires Run(qs, es).Some? && AllSafe(qs, es) && AllHarmless(qs, es)
    ensures FromPublished(Run(qs, es).value) && BackedInv(Run(qs, es).value)
  {
    hide Sound, Handed, FromPublished, BackedInv, Harmless, Safe;
    if es != [] {
      var w, e := Run(qs, es[..|es| - 1]).value, es[|es| - 1];
      RunBacked(qs, es[..|es| - 1]);
      RunHands(qs, es[..|es| - 1]);
      StepFromPublished(qs, w, e);
      StepKeepsBacked(qs, w, e);
    } else {
      FreshBacked(qs);
    }
  }

  lemma FreshBacked(qs: Queues)
    ensures FromPublished(Run(qs, []).value) && BackedInv(Run(qs, []).value)
  {
  }

  /** Every match published to the parse stream has its payload or is finished, and so a parser that finds no payload,
      however late or repeated, drops a match that is committed or was dropped before. */
  lemma MissingIsFinished(qs: Queues, es: seq<Event>, t: nat)
    requires Run(qs, es).Some? && AllSafe(qs, es) && AllHarmless(qs, es)
    requires var site := Run(qs, es).value.site;
             t in site.threads && site.threads[t].Parsing? && site.threads[t].m !in site.payloads
    ensures P.Finished(Run(qs, es).value.site, Run(qs, es).value.site.threads[t].m)
  {
    RunBacked(qs, es);
    var w := Run(qs, es).value;
    assert Awaited(w, w.site.threads[t].m);
  }
}
