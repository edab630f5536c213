# Verification of the ingestion pipeline and the draft analyser

A Dafny model of the stateful cores of the repository: the Redis-streams queue and its in-memory twin, DLQ replay,
the hand-over from discovery to the database, the circuit breaker, dependency ordering of enrichment sources, the
migration runner, the proxy pool and the HTTP client cache, the draft grammar and phase numbering, the
recommender and the simulated Captain's Mode draft.

Code that changes state is modelled by classes and loops with contracts that give the whole new state. Beside each
stands a value or a step protocol, and the main results are lemmas about all of its runs:

| area | modules | main results |
|---|---|---|
| Redis queue | `QueueTypes`, `MessageCodec`, `RedisStreams`, `QueueNoLoss`, `QueueRefinement` | no published message is lost under any interleaving of single Redis commands with crashes; the queue refines the in-memory one, exactly as long as retries go to the same place; encode/decode round trips |
| in-memory queue | `InMemQueue` | each message in exactly one place; the DLQ holds exactly the messages out of retries |
| DLQ replay | `DlqReplay` | at most one copy per match ID, exactly as long as no guard of a copied message is taken back; nothing leaves the DLQ but as a copy |
| pipeline | `Pipeline`, `EndToEnd`, `PayloadStore`, `Discovery` | on plain queues and on the Redis ones, when a match can be nowhere and when not; a parse task has its payload or its match is committed, exactly as long as no awaited payload expires; a cycle publishes every uncommitted match |
| circuit breaker | `CircuitBreaker`, `BreakerInterleaving` | exactly when it opens and closes; at most one timer under any interleaving |
| enrichment | `DependencySort`, `EnrichRunner` | sorting succeeds exactly on complete acyclic graphs, with a witness for each error |
| migrations | `MigrationFiles`, `Migrator` | the database is always the fold of a prefix, each migration applied once |
| proxies | `TransportCache`, `LeasePool` | LRU order and eviction; fairness and exclusive leases |
| drafts | `DraftGrammar`, `DraftPhases`, `Recommender`, `DraftSimulation` | the matcher decides ban-deletion exactly; phase names survive dropped bans exactly when inner ban runs do; a simulated draft is greedy and complete, and legal exactly if each choice is |

`Decimal` holds decimal text, `Sequences` facts about lists. Verify everything with `dafny verify dfyconfig.toml`.

## How runs are stated

A protocol is a type of events, a predicate for when an event is possible, and a function for what it does. `Run` gives
the state after a sequence of events, or `None` if one of them was not possible; a result about reachable states is a
lemma about every sequence for which `Run` is not `None`. A crash needs no event of its own where a process that stops
just takes no further steps. Where a method follows such a protocol, its contract says so: it returns the events (as
ghost values) that lead from the old state to the new one.

What the world outside answers (clocks, handlers, models, a script's effect on the schema, whether a call errors, and
whether it errors after taking effect) is a parameter of the methods and part of the events.

## What is assumed

- Stream entry IDs are numbers that only grow. Streams are not trimmed by MAXLEN. This does not follow from leaving MaxLen unset: only Publish then sends no limit (go-ingestion/internal/queue/redisstreams/queue.go:155-158), while requeue, routeDLQ and the replay always send `MAXLEN ~ MaxLen` (queue.go:369-383, go-ingestion/internal/dlq/commands.go:119), so that 0 trims towards an empty stream.
- A Lua script is one atomic step. Outside `DlqReplay` one that reports an error had no effect.
- Header values and envelopes are valid text, so that they survive Redis and JSON unchanged. Integers in queue fields are unbounded.
- Redis keys with a TTL (replay guards, dedup keys) do not expire during a run, and the dedup set is not a Bloom filter. Payload expiry is an event.
- Each published message is told apart from the others by its payload, which no queue looks into.
- Scores are real numbers.

## Where the promise fails

Each promise below fails for some inputs of the code as it is. The lemmas named give such an input, or the exact
condition under which the promise holds, or both.

- `CoveredExactly`, `LostOnRefusedAdd`, `RefusedKeptExactly`: a maturation pass sends XADD and ZREM in a plain pipeline. If the server refuses the XADD, the ZREM still removes the member, and the message is lost unless another copy exists.
- `ExhaustedKeptExactly`: without a DLQ, the failure that exhausts the retries drops the message.
- `LostBeforeGroup`, `QueueNoLoss.KeptExactly`: the group is created at `$`, so what is published before it exists is never delivered, in any run; what is unsettled is kept exactly if it was published after that.
- `UnguardedCopiedTwice`: replay guards do not cover messages without a match ID.
- `SingleExactly`, `LostReplyExactly`, `LostReplyCopiedTwice`: when the reply of a replay script is lost, the replayer takes back the guard of a message it has copied. A second copy stays out exactly if that DEL has no effect.
- `DuplicateKeptExactly`, `LostOnOtherDuplicate`: the parser takes any unique-constraint violation for a duplicate and acks. Its match survives exactly if it is committed or dropped already, or another task holds it.
- `CommitKeptExactly`, `LostOnWrongBlob`: when the upstream answers with another match, that one is committed and the task acked. The match asked for survives exactly under the same conditions.
- `Pipeline.ExpiryExactly`, `ExpiryDrops`, `DroppedOnExpiry`: a payload that expires before it is parsed lets a parser drop the match. The expiry is harmless exactly if there is nothing to expire, the match is committed, or nothing waits for the payload.
- `UnparsedStaysOut`: a match that is committed but not yet parsed is not published again while the dedup set has it, although the database filter asks for it.
- `LateExtendExactly`, `PayloadStore.KeptExactly`, `LateExtendRevives`: extending the TTL of an expired payload revives it, exactly if no read removed it in between.
- `RetrySameExactly`, `RefinesExactly`: a retry goes different ways in the two queues exactly if the task is out of retries and the Redis queue has no DLQ, or has retries left and the Redis queue schedules it.
- `ChoiceLegalExactly`: the simulated draft takes the first recommendation unchecked. It is a legal hero, however ties are ranked, exactly if all heroes of maximal score are.
- `StuckRun`, `RecoveringExactly`: a thread that read half-open and stalls can stop the timer of a breaker that has since re-opened; the breaker then stays open for ever. This is the one way to lose the timer.
- `MatcherStopsEarly`, `PrefixIsWholeExactly`: the matcher alone accepts observed lists that cover only a prefix of the pattern; with equal pick counts it is exact.
- `TwoLocksApplyTwice`, `LocksExcludeExactly`: the advisory lock is a hash of the DSN text, so two spellings of one database do not exclude each other.
- `OrderKeptExactly`: a proxy URL spelled `__direct__` breaks the client cache's access order.
- `DroppedIsShared`: replacing the proxy list by one without a leased URL lets that URL be leased twice.

Where the code and its documentation disagree the model follows the code:

- The comments on `DerivePhaseTable` say that the acting team depends on the phase and that a draft starting with a pick is followed by `ban_1`; the code alternates teams by slot and numbers that ban phase `ban_2` (go-analysis/internal/domain/phase_table.go:59-112).
- ARCHITECTURE.md puts the database filter before the Redis dedup check; the code asks Redis first (go-ingestion/internal/worker/discovery/matches/cycle.go:143-200).
- ARCHITECTURE.md says a replay keeps the trace headers of a message in general; the code keeps `traceparent` and `tracestate` and no other header (go-ingestion/internal/dlq/commands.go:204-213).
- The matcher's comment promises the whole pattern; see `MatcherStopsEarly`.

## Model

| member | source | states |
|---|---|---|
| `DependencySort.Visitor.Visit` | go-ingestion/internal/enrich/runner.go:73-101 | The recursive visit: terminates on any graph; an error comes with a witness (a cycle through the name, or a dependency nobody provides); otherwise only sources whose dependencies are listed are appended |
| `DependencySort.Visitor.VisitAll` | go-ingestion/internal/enrich/runner.go:103-110 | The loop over all nodes lists every source, or fails with a witness |
| `DependencySort.SortByDependencies` | go-ingestion/internal/enrich/runner.go:50-110 | Succeeds if and only if all dependencies are known and the graph has no cycle; the order has each named source once, after its dependencies, is a permutation when names are distinct, and is the input itself if that is in order |
| `DependencySort.OrderedMeansAcyclic` | go-ingestion/internal/enrich/runner.go:81-98 | A complete ordered list rules out every cycle |
| `DependencySort.PathDescends` | go-ingestion/internal/enrich/runner.go:81-98 | Along any dependency path the position in an ordered list goes down |
| `DependencySort.CompleteIsPermutation` | go-ingestion/internal/enrich/runner.go:93-108 | With distinct names the ordered list is a permutation of the input |
| `EnrichRunner.RunOne` | go-ingestion/internal/enrich/runner.go:127-163 | One source: the turn stops the run exactly on a gate error or the failure of a critical source; the gate is asked first, the source starts, once, exactly if the gate says go, and then exactly its own result is recorded, last |
| `EnrichRunner.Run` | go-ingestion/internal/enrich/runner.go:112-125 | Completes if and only if no turn is cancelled or halts; otherwise names the reason and the turn it stopped at |
| `EnrichRunner.StartsAfterDependencies` | go-ingestion/internal/enrich/runner.go:112-163 | On a sorted list a source starts only after each dependency had its turn |
| `MessageCodec.SpellingInjective` | go-ingestion/internal/queue/redisstreams/queue.go:139-150 | Field names with the header prefix never collide, whatever the header names |
| `MessageCodec.Encode` | go-ingestion/internal/queue/redisstreams/queue.go:139-150 | The values Publish and requeue write: payload, retry count, prefixed headers, nothing else |
| `MessageCodec.EncodeDead` | go-ingestion/internal/queue/redisstreams/queue.go:334-379 | The values routeDLQ writes |
| `MessageCodec.CollectHeaders` | go-ingestion/internal/queue/redisstreams/queue.go:437-473 | The loop collects exactly the prefixed text fields |
| `MessageCodec.DecodeMessage` | go-ingestion/internal/queue/redisstreams/queue.go:437-473 | Decoding with both error cases; a retry field that is no number counts as 0 |
| `MessageCodec.RoundTrip` | go-ingestion/internal/queue/redisstreams/queue.go:139-150 | Decoding recovers exactly the payload, retry count and headers that were encoded |
| `MessageCodec.DeadRoundTrip` | go-ingestion/internal/queue/redisstreams/queue.go:334-379 | The same for what routeDLQ wrote |
| `MessageCodec.ReplayValues` | go-ingestion/internal/dlq/commands.go:202-213 | A replay writes payload, retry 0 and of the headers only the trace context |
| `MessageCodec.ReplayRoundTrip` | go-ingestion/internal/dlq/commands.go:202-213 | A replayed message is read back with its payload, retry 0 and its trace context |
| `InMemQueue.Queue.Publish` | go-ingestion/internal/queue/inmem/queue.go:35-46 | Appends a task with a new ID and retry count 0 |
| `InMemQueue.Queue.Pop` | go-ingestion/internal/queue/inmem/queue.go:53-90 | Takes the first tasks, at most batch, and puts them in flight |
| `InMemQueue.Queue.Ack` | go-ingestion/internal/queue/inmem/queue.go:92-97 | Takes a task out of flight |
| `InMemQueue.Queue.Retry` | go-ingestion/internal/queue/inmem/queue.go:99-113 | Out of flight with one more retry; to the DLQ beyond the limit, else to the end of the queue under a new ID |
| `InMemQueue.Queue.SubscribeRound` | go-ingestion/internal/queue/inmem/queue.go:130-157 | One round of the loop for each kind of handler outcome |
| `InMemQueue.EachMessageInOnePlace` | go-ingestion/internal/queue/inmem/queue.go:53-157 | In every run each published message is in exactly one of pending, in flight, DLQ and acknowledged |
| `InMemQueue.DlqExactly` | go-ingestion/internal/queue/queue.go:78-80 | Live retry counts equal the failures so far and stay within the limit; a message is in the DLQ exactly if it failed MaxRetries + 1 times |
| `RedisStreams.Queue.constructor` | go-ingestion/internal/queue/redisstreams/queue.go:100-137 | Creates the group at the end of the stream unless it exists |
| `RedisStreams.Queue.Publish` | go-ingestion/internal/queue/redisstreams/queue.go:139-163 | One new entry at the end of the stream, which decodes to the message with retry count 0 |
| `RedisStreams.Queue.Pop` | go-ingestion/internal/queue/redisstreams/queue.go:165-207 | Returns, in order, exactly the tasks that decode among the first undelivered entries, at most batch of them; they are pending for this consumer afterwards, and what does not decode is routed to the DLQ |
| `RedisStreams.Queue.PopPending` | go-ingestion/internal/queue/redisstreams/queue.go:214-253 | Returns, in order, exactly the tasks that decode among the first pending entries that belong to this consumer, at most max of them |
| `RedisStreams.Queue.Ack` | go-ingestion/internal/queue/redisstreams/queue.go:255-264 | The entry is no longer pending, and if configured no longer in the stream; nothing else changes |
| `RedisStreams.Queue.Retry` | go-ingestion/internal/queue/redisstreams/queue.go:266-282 | A task with one more retry counted: given up beyond the limit, else scheduled, else requeued, told by what is stored where and what it decodes to |
| `RedisStreams.Queue.ScheduleAsyncRetry` | go-ingestion/internal/queue/redisstreams/queue.go:297-332 | The asynchronous limit, else ZADD with ack in one script |
| `RedisStreams.Queue.RouteDLQ` | go-ingestion/internal/queue/redisstreams/queue.go:334-379 | Without a DLQ the task is acked; without an ID it is only added; else one script adds, acks and deletes |
| `RedisStreams.Queue.Requeue` | go-ingestion/internal/queue/redisstreams/queue.go:381-395 | One script adds the new entry, acks and deletes the old one |
| `RedisStreams.Queue.RecoverStale` | go-ingestion/internal/queue/redisstreams/queue.go:397-435 | Claims the stale entries, returns exactly those that decode, which then belong to this consumer; moves the cursor |
| `RedisStreams.Queue.DecodeBatch` | go-ingestion/internal/queue/redisstreams/queue.go:190-207 | Decodable entries in order; the rest to the DLQ with their ID and no payload |
| `RedisStreams.Queue.ProcessOne` | go-ingestion/internal/queue/redisstreams/queue.go:590-607 | Acks on nil and ErrDrop, retries on any other error or a panic |
| `RedisStreams.Queue.ReadDue` | go-ingestion/internal/queue/redisstreams/queue.go:735-747 | At most batch due members, all of them if they are fewer, none twice |
| `RedisStreams.Queue.MatureAsyncRetries` | go-ingestion/internal/queue/redisstreams/queue.go:730-779 | An uninterrupted pass takes the due members, at most batch, off the sorted set and appends an entry for each that decodes to it |
| `RedisStreams.FailedExactly` | go-ingestion/internal/queue/redisstreams/queue.go:266-395 | Where a failed task ends up in every configuration: the DLQ entry, scheduled member or stream entry it becomes, and what happens to its own entry |
| `RedisStreams.MaturedExactly` | go-ingestion/internal/queue/redisstreams/queue.go:730-779 | A pass leaves the other members, and turns the due ones into stream entries that decode to them, in order |
| `QueueNoLoss.NoMessageLost` | go-ingestion/internal/queue/redisstreams/queue.go:49-87 | In every reachable state, with any interleaving of commands, crashes, claims, replays and partial maturation, each message published since the group exists and not settled by a handler is undelivered, pending, scheduled or dead; provided that a task out of retries finds a DLQ and the server accepts the pipelined XADD, or the message is settled or has other copies |
| `QueueNoLoss.RunInvariant` | go-ingestion/internal/queue/redisstreams/queue.go:165-435 | The invariant behind it: whoever owes the removal of a scheduled member can rely on a copy under a higher ID |
| `QueueNoLoss.CoveredExactly` | go-ingestion/internal/queue/redisstreams/queue.go:165-435 | A step of any kind keeps that invariant if and only if it meets those provisos at its own state |
| `QueueNoLoss.RemoveKeeps` | go-ingestion/internal/queue/redisstreams/queue.go:730-779 | Helper: a ZREM, however late or repeated, never removes the last copy |
| `QueueNoLoss.FailKeeps` | go-ingestion/internal/queue/redisstreams/queue.go:266-282 | No failed handling, of a live task or a stale one, removes the last copy |
| `QueueNoLoss.PendingReadsAreKnown` | go-ingestion/internal/queue/redisstreams/queue.go:214-253 | In every reachable state pending reads return tasks handed out before, and all of them decode |
| `QueueNoLoss.OwnerExactly` | go-ingestion/internal/queue/redisstreams/queue.go:165-253 | In every reachable state a pending entry belongs to a consumer if and only if a delivery or claim handed it to that one last |
| `QueueNoLoss.PendingIsOwn` | go-ingestion/internal/queue/redisstreams/queue.go:214-253 | What one consumer reads of its pending entries was last handed to it, and two consumers read no entry in common |
| `QueueNoLoss.PopIsDelivery` | go-ingestion/internal/queue/redisstreams/queue.go:165-207 | Pop is one delivery step: it returns the tasks handed out, in stream order, and none is routed away |
| `QueueNoLoss.RecoverIsClaim` | go-ingestion/internal/queue/redisstreams/queue.go:397-435 | A recovery is one claim step; all it claims decodes |
| `QueueNoLoss.MaturedCounts` | go-ingestion/internal/queue/redisstreams/queue.go:284-332 | A failed task that is scheduled waits with one more retry counted |
| `QueueNoLoss.AddedDecodes` | go-ingestion/internal/queue/redisstreams/queue.go:749-777 | The entry a maturation pass adds decodes to the member, retry count included |
| `QueueNoLoss.ReplayMoves` | go-ingestion/internal/dlq/commands.go:20-27 | A replay takes the entry off the DLQ and appends one that decodes to its payload, retry count 0 and trace context |
| `QueueNoLoss.MaturePassIsRun` | go-ingestion/internal/queue/redisstreams/queue.go:730-779 | A whole maturation pass is a run of the protocol |
| `QueueNoLoss.HandlingIsRun` | go-ingestion/internal/queue/redisstreams/queue.go:590-607 | A whole handling is a run of the protocol |
| `QueueNoLoss.RefusedKeptExactly` | go-ingestion/internal/queue/redisstreams/queue.go:749-777 | Helper: after a refused XADD the pipelined ZREM leaves the message only what copies it had elsewhere |
| `QueueNoLoss.ExhaustedKeptExactly` | go-ingestion/internal/queue/redisstreams/queue.go:334-350 | The failure that exhausts the retries keeps the message exactly if there is a DLQ or another copy |
| `QueueNoLoss.LostOnRefusedAdd` | go-ingestion/internal/queue/redisstreams/queue.go:749-777 | A run that loses a message through a refused XADD |
| `QueueNoLoss.LostBeforeGroup` | go-ingestion/internal/queue/redisstreams/queue.go:130-137 | In every run, whatever was published before the group exists has no copy once the group is created |
| `QueueNoLoss.KeptExactly` | go-ingestion/internal/queue/redisstreams/queue.go:100-207 | In every reachable state with a group, a message no handler settled has a copy if and only if it was published since the group exists, under the provisos of `NoMessageLost` |
| `QueueNoLoss.SetsExactly` | go-ingestion/internal/queue/redisstreams/queue.go:139-163 | In every run a message counts as published exactly if a publish put it on a stream with a group, and as settled exactly if a handler returned for it |
| `QueueRefinement.RedisRefinesMemory` | go-ingestion/internal/queue/redisstreams/queue.go:139-207 | The same calls are possible on both queues and leave the same pending order, tasks in flight, retry counts and DLQ, up to IDs, also for handles that are no longer in flight, as long as each retry goes to the same place in both; with a DLQ and synchronous retries every retry does |
| `QueueRefinement.StepRelated` | go-ingestion/internal/queue/inmem/queue.go:35-113 | Each single call keeps the two queues related, a retry if it goes to the same place in both |
| `QueueRefinement.PopRelated` | go-ingestion/internal/queue/redisstreams/queue.go:165-207 | A delivery corresponds to a pop of the same number of tasks |
| `QueueRefinement.RetryRelated` | go-ingestion/internal/queue/redisstreams/queue.go:266-282 | A retry that goes to the same place in both, the DLQ or the end of the queue, corresponds |
| `QueueRefinement.RetrySameExactly` | go-ingestion/internal/queue/redisstreams/queue.go:266-350 | From related queues a retry leaves them the same if and only if a task out of retries finds a DLQ, and any other retry is synchronous |
| `QueueRefinement.RefinesExactly` | go-ingestion/internal/queue/redisstreams/queue.go:266-350 | After any run alike so far, one more retry keeps the queues the same if and only if it goes to the same place in both |
| `DlqReplay.Server.ReplayOne` | go-ingestion/internal/dlq/commands.go:100-139 | One listed message, which another replayer may have removed since: what is copied and deleted; exactly when it counts as replayed, skipped, failed or as nothing; a run of the step protocol, also when SETNX or the script take effect and report an error |
| `DlqReplay.Server.ReplayStream` | go-ingestion/internal/dlq/commands.go:87-140 | Every listed message is replayed, skipped or failed; as many entries leave the DLQ as copies are added, all replayed ones and of the failed ones those whose reply was lost; without errors a listed entry goes if and only if it has a payload and its match ID, if any, is neither guarded nor listed before, and with a limit that covers them all such entries are drained; a dry run changes nothing |
| `DlqReplay.NewestCount` | go-ingestion/internal/dlq/commands.go:87-87 | The listing has as many entries as there are, or limit if there are more |
| `DlqReplay.NewestExactly` | go-ingestion/internal/dlq/commands.go:87-87 | What is not listed is older than all that is, and is left out only if limit entries are listed |
| `DlqReplay.Drained` | go-ingestion/internal/dlq/commands.go:87-140 | With a limit that covers them, readable entries with free and different match IDs all leave, one replayed for each |
| `DlqReplay.OneCopyPerMatch` | go-ingestion/internal/dlq/commands.go:97-140 | Any number of concurrent, repeated and interrupted replays, whichever replies are lost, put at most one copy per match ID on a stream, as long as no guard of a copied message is taken back |
| `DlqReplay.SingleExactly` | go-ingestion/internal/dlq/commands.go:97-140 | From every state so reached a step leaves no way to a second copy if and only if it does not take back the guard of a copied message |
| `DlqReplay.LostReplyExactly` | go-ingestion/internal/dlq/commands.go:125-133 | From every such state, when the reply of a script that ran is lost, no continuation makes a second copy if and only if the DEL that follows does not take effect |
| `DlqReplay.LeavesOnlyAsCopy` | go-ingestion/internal/dlq/commands.go:20-27 | An entry leaves the DLQ only in the step that appends its payload, with retry 0, to its stream |
| `DlqReplay.LeavesExactly` | go-ingestion/internal/dlq/commands.go:20-27 | It leaves if and only if a replayer that listed it sends the script and the script runs |
| `DlqReplay.UnguardedCopiedTwice` | go-ingestion/internal/dlq/commands.go:104-114 | A message without a match ID can be copied twice |
| `DlqReplay.LostReplyCopiedTwice` | go-ingestion/internal/dlq/commands.go:125-133 | Hence every message with a match ID can be copied twice |
| `Pipeline.NeverNowhere` | go-ingestion/internal/worker/fetcher/fetcher.go:120-166 | Every match put on the fetch stream is at all times queued, dead, committed or dropped, provided a commit under another ID and a reported duplicate only happen to a match that is in the database |
| `Pipeline.SeenIsCommitted` | go-ingestion/internal/worker/ingester/ingester.go:50-83 | In every reachable state the dedup set holds only committed matches, whatever the upstream and the database answer |
| `Pipeline.SetsExactly` | go-ingestion/internal/worker/ingester/ingester.go:50-83 | In every run a match is in the dedup set, in the database, dropped or published if and only if some step of the run marked, committed, dropped or published it |
| `Pipeline.PayloadExactly` | go-ingestion/internal/worker/fetcher/fetcher.go:120-166 | In every run the payload of a match is the one stored last, unless it was deleted or expired since |
| `Pipeline.LiveExactly` | go-ingestion/internal/worker/parser/parser.go:91-157 | A message stays in its queue exactly until it is acked or retried; what is new there a discovery, publish, retry or replay has put there |
| `Pipeline.DeadExactly` | go-ingestion/internal/dlq/commands.go:20-27 | A message stays in its DLQ exactly until it is replayed; what is new there a retry has put there |
| `Pipeline.PayloadPresent` | go-ingestion/internal/worker/parser/parser.go:91-157 | Every parse task, queued or dead, has its payload stored or its match committed, as long as no payload expires that an uncommitted match waits for |
| `Pipeline.MissingIsCommitted` | go-ingestion/internal/worker/parser/parser.go:100-112 | Under the same proviso a parser that finds no payload drops a committed match |
| `Pipeline.ExpiryExactly` | go-ingestion/internal/worker/parser/parser.go:91-112 | An expiry keeps every parse task backed if and only if there is nothing to expire, the match is committed, or no task or handler waits for it |
| `Pipeline.StepKeepsInv` | go-ingestion/internal/worker/parser/parser.go:91-157 | Every step of every handler keeps the location invariant |
| `Pipeline.Site.HandleFetch` | go-ingestion/internal/worker/fetcher/fetcher.go:120-166 | The fetcher's handler is a run of its steps, and exactly what it returns, stores, publishes and drops for every answer: store before publish, drop on a permanent error, else retry |
| `Pipeline.Site.Ingest` | go-ingestion/internal/worker/ingester/ingester.go:50-83 | Exactly what is committed, marked as seen and returned for every answer: the mark follows a reported commit only |
| `Pipeline.Site.HandleParse` | go-ingestion/internal/worker/parser/parser.go:91-157 | The parser's handler is a run of its steps, and exactly what it returns, commits, marks, deletes and drops for every answer: the payload goes only after a commit or a duplicate |
| `Pipeline.DuplicateKeptExactly` | go-ingestion/internal/worker/ingester/ingester.go:55-59 | From every reachable state, handling a reported duplicate to the end leaves the match somewhere if and only if it was committed or dropped before, or another fetch or parse task holds it |
| `Pipeline.CommitKeptExactly` | go-ingestion/internal/worker/parser/decode_match.go:11-21 | Handling a commit to the end does so if and only if the blob carries the ID asked for, or one of the same conditions holds |
| `Pipeline.LostOnOtherDuplicate` | go-ingestion/internal/worker/ingester/ingester.go:55-59 | Hence a run in which a unique-constraint violation on another key loses the match |
| `Pipeline.LostOnWrongBlob` | go-ingestion/internal/worker/parser/decode_match.go:11-21 | Hence a run in which an answer for another match loses the one asked for |
| `Pipeline.ExpiryDrops` | go-ingestion/internal/worker/parser/parser.go:100-112 | From every reachable state, the expiry of an uncommitted match with a live parse task lets a parser drop it |
| `Pipeline.DroppedOnExpiry` | go-ingestion/internal/worker/parser/parser.go:100-112 | Hence a run after which the match is neither committed nor queued |
| `EndToEnd.NeverNowhere` | go-ingestion/internal/worker/fetcher/fetcher.go:120-166 | The same handlers on the two Redis queues, command by command: in every reachable state each match published to the fetch group is undelivered, pending, scheduled or dead in one of the queues, or committed, or dropped by a handler |
| `EndToEnd.SafeExactly` | go-ingestion/internal/worker/parser/parser.go:91-157 | A step of any kind keeps every match accounted for if and only if it meets the provisos of its part at its own state, and a publish to the parse stream finds a group there or is of a finished match |
| `EndToEnd.ReturnSettles` | go-ingestion/internal/queue/redisstreams/queue.go:590-607 | A handler that returns nil or ErrDrop is over and its message settled, and only then the queue can ack it |
| `EndToEnd.ExpiryExactly` | go-ingestion/internal/worker/parser/parser.go:91-112 | An expiry keeps all payloads that parsers may ask for if and only if there is nothing to expire, the match is finished, or it was neither published to the parse stream nor is about to be |
| `EndToEnd.MissingIsFinished` | go-ingestion/internal/worker/parser/parser.go:100-112 | As long as every expiry is of that kind, a parser that finds no payload, however late or repeated its task, drops a match that is committed or was dropped before |
| `PayloadStore.Store.Put` | go-ingestion/internal/payload/inmem/store.go:27-39 | Stores the data, with a deadline if the TTL is positive |
| `PayloadStore.Store.Get` | go-ingestion/internal/payload/inmem/store.go:41-55 | Returns live data, deletes an expired entry on sight |
| `PayloadStore.Store.Delete` | go-ingestion/internal/payload/inmem/store.go:57-62 | Removes the entry |
| `PayloadStore.Store.ExtendTTL` | go-ingestion/internal/payload/inmem/store.go:64-77 | Moves the deadline of any entry there is, an hour if the TTL is not positive |
| `PayloadStore.GetExactly` | go-ingestion/internal/payload/inmem/store.go:41-55 | Over every run Get finds the data of the last Put exactly until its deadline and unless deleted, provided each extension that came too late came after a read that found the payload expired |
| `PayloadStore.LateExtendExactly` | go-ingestion/internal/payload/inmem/store.go:64-77 | After every such run, an extension that comes too late brings the expired data back if and only if no read came since its deadline |
| `PayloadStore.KeptExactly` | go-ingestion/internal/payload/inmem/store.go:41-77 | The promise holds at every moment of a run if and only if each late extension in it came after such a read |
| `PayloadStore.LateExtendRevives` | go-ingestion/internal/payload/inmem/store.go:64-77 | Hence at one choice of times: a late extension revives an expired payload, and not if a read came in between |
| `Discovery.Seen.MarkSeen` | go-ingestion/internal/dedup/inmem/seen.go:21-29 | Adds the key and says whether it was there |
| `Discovery.Seen.CheckBatch` | go-ingestion/internal/dedup/inmem/seen.go:38-47 | Answers for exactly the keys asked |
| `Discovery.UnknownIDs` | go-ingestion/internal/storage/matchstore/matchpg/store.go:109-145 | The candidates without a row under their start time, or with one that is not parsed |
| `Discovery.Cycle.FirstFilter` | go-ingestion/internal/worker/discovery/matches/cycle.go:146-172 | Passes what the dedup set does not have, or everything if it does not answer |
| `Discovery.Cycle.SecondFilter` | go-ingestion/internal/worker/discovery/matches/cycle.go:174-200 | Passes what the database does not know, or everything if it does not answer |
| `Discovery.Cycle.RunOnce` | go-ingestion/internal/worker/discovery/matches/cycle.go:139-222 | Publishes the wanted matches in order, pushed plus skipped being the number discovered; a failed publish stops with a prefix published |
| `Discovery.UncommittedAreWanted` | go-ingestion/internal/worker/discovery/matches/cycle.go:143-200 | Whichever filters run or fail, every discovered match that is not in the database is wanted, in order |
| `Discovery.ReachableCycleWantsUncommitted` | go-ingestion/internal/worker/discovery/matches/cycle.go:143-200 | The same from every reachable state of the pipeline, without assuming anything of the dedup set |
| `Discovery.WantedExactly` | go-ingestion/internal/worker/discovery/matches/cycle.go:143-200 | With both filters answering, exactly which matches are published |
| `Discovery.WantedByRows` | go-ingestion/internal/worker/discovery/matches/cycle.go:143-200 | The same told by the rows: not in the dedup set, and under some start time it was discovered with no row or one that is not parsed |
| `Discovery.UnparsedIsWanted` | go-ingestion/internal/worker/discovery/matches/cycle.go:174-200 | A committed unparsed match outside the dedup set is published again |
| `Discovery.UnparsedStaysOut` | go-ingestion/internal/worker/discovery/matches/cycle.go:146-169 | A committed unparsed match is held back by the dedup set |
| `CircuitBreaker.CircuitBreaker.Allow` | go-ingestion/internal/resilience/circuit_breaker.go:37-46 | Refuses exactly in the open state |
| `CircuitBreaker.CircuitBreaker.RecordFailure` | go-ingestion/internal/resilience/circuit_breaker.go:48-71 | The whole new state, with exactly one live timer in the open state |
| `CircuitBreaker.CircuitBreaker.RecordSuccess` | go-ingestion/internal/resilience/circuit_breaker.go:73-98 | The whole new state; three successes close a half-open breaker |
| `CircuitBreaker.CircuitBreaker.TimerFires` | go-ingestion/internal/resilience/circuit_breaker.go:109-123 | The timer moves an open breaker to half-open |
| `CircuitBreaker.OpensExactly` | go-ingestion/internal/resilience/circuit_breaker.go:48-71 | Since it last closed the breaker is open exactly if some stretch of outcomes has failures exceeding successes by the threshold |
| `CircuitBreaker.CounterIsWorstSuffix` | go-ingestion/internal/resilience/circuit_breaker.go:63-97 | The failure counter is the worst balance of any recent stretch |
| `CircuitBreaker.ClosesExactly` | go-ingestion/internal/resilience/circuit_breaker.go:73-98 | It closes exactly on the third success in a row after a timer fired |
| `CircuitBreaker.RunInvariant` | go-ingestion/internal/resilience/circuit_breaker.go:48-98 | Over every run a timer waits exactly in the open state, and the counters stay in their ranges |
| `CircuitBreaker.ResilientIngester.Ingest` | go-ingestion/internal/worker/ingester/resilient.go:33-55 | A rejected call is not recorded; duplicates and the constraint codes 23505 and 23503 are not counted; anything else is one outcome |
| `BreakerInterleaving.AtMostOneTimer` | go-ingestion/internal/resilience/circuit_breaker.go:48-123 | Under any interleaving of loads, swaps, stores and lock sections, live timers and pending starts together are at most one, and none unless open |
| `BreakerInterleaving.FailureAlone` | go-ingestion/internal/resilience/circuit_breaker.go:48-71 | RecordFailure without interruption, operation by operation, is one step of the breaker, and starts a timer if it opens it |
| `BreakerInterleaving.SuccessAlone` | go-ingestion/internal/resilience/circuit_breaker.go:73-98 | So is RecordSuccess without interruption |
| `BreakerInterleaving.TimerAlone` | go-ingestion/internal/resilience/circuit_breaker.go:109-123 | And a timer that runs out |
| `BreakerInterleaving.StateMoves` | go-ingestion/internal/resilience/circuit_breaker.go:48-123 | The state moves only along Closed to Open, Open to HalfOpen, HalfOpen to Open or Closed, and a timer fires only in Open |
| `BreakerInterleaving.RecoveringExactly` | go-ingestion/internal/resilience/circuit_breaker.go:53-69 | A step leaves an open breaker without a way out exactly if it is a stopTimer by a thread that read half-open before the breaker re-opened |
| `BreakerInterleaving.StuckRun` | go-ingestion/internal/resilience/circuit_breaker.go:48-59 | A run of the two calls that ends open with no timer and no call in progress |
| `BreakerInterleaving.StuckForever` | go-ingestion/internal/resilience/circuit_breaker.go:100-123 | No step leads out of that state |
| `DraftGrammar.IsSubsequenceRemovesOnlyBans` | go-ingestion/internal/worker/parser/decode_draft.go:94-116 | Accepts exactly the non-empty ban-deletions of a prefix of the pattern |
| `DraftGrammar.GreedyExact` | go-ingestion/internal/worker/parser/decode_draft.go:94-116 | Greedy matching finds a ban-deletion whenever there is one |
| `DraftGrammar.MatcherExact` | go-ingestion/internal/worker/parser/decode_draft.go:94-116 | With equal pick counts the matcher accepts exactly the ban-deletions of the whole pattern |
| `DraftGrammar.PrefixIsWholeExactly` | go-ingestion/internal/worker/parser/decode_draft.go:99-103 | A ban-deletion of a prefix is one of the whole exactly if the pick counts agree |
| `DraftGrammar.MatcherStopsEarly` | go-ingestion/internal/worker/parser/decode_draft.go:99-103 | Alone it accepts a list that covers only a prefix |
| `DraftGrammar.ValidateDraft` | go-ingestion/internal/worker/parser/decode_draft.go:49-92 | Accepts exactly the 16 to 24 entry, 10 pick ban-deletions of a known era pattern; otherwise the first check that fails |
| `DraftGrammar.ClosestEra` | go-ingestion/internal/worker/parser/decode_draft.go:211-242 | The fallback loop: the first matched era with the fewest declined bans, or unknown exactly when every matched pattern is more than twice as long as the draft |
| `DraftGrammar.DetectDraftEra` | go-ingestion/internal/worker/parser/decode_draft.go:211-242 | The same for a whole draft, an exact match being such an era |
| `DraftGrammar.ValidDraftHasEra` | go-ingestion/internal/worker/parser/decode_draft.go:49-92 | A validated draft always gets an era, and the draft declines bans of that era's pattern |
| `DraftGrammar.EraShapes` | go-ingestion/internal/worker/parser/decode_draft.go:12-47 | Which slots of the three era patterns are picks |
| `DraftPhases.AssignPhases` | go-ingestion/internal/worker/parser/decode_draft.go:132-158 | The ingestion side's phase numbers |
| `DraftPhases.PhaseNames` | go-ingestion/internal/worker/parser/decode_draft.go:160-189 | The ingestion side's names |
| `DraftPhases.DerivePhaseTable` | go-analysis/internal/domain/phase_table.go:69-112 | The analysis side's table: numbers, names, kinds and acting teams |
| `DraftPhases.SameNumberSameRun` | go-analysis/internal/domain/phase_table.go:86-112 | Two slots share a number exactly within one maximal run |
| `DraftPhases.BanIffEven` | go-analysis/internal/domain/phase_table.go:80-112 | A slot is a ban exactly if its number is even |
| `DraftPhases.SameNameSameRun` | go-analysis/internal/domain/phase_table.go:69-112 | Two slots share a name exactly within one maximal run of picks or bans |
| `DraftPhases.TextInjective` | go-analysis/internal/domain/phase_table.go:93-100 | Different names are spelled differently |
| `DraftPhases.TextSpells` | go-analysis/internal/domain/phase_table.go:93-100 | A name is "pick_" or "ban_" and its number |
| `DraftPhases.AssignedLabelExactly` | go-ingestion/internal/worker/parser/decode_draft.go:132-189 | The ingestion side names a slot by its kind and counts the runs of that kind from 1 |
| `DraftPhases.DerivedLabelExactly` | go-analysis/internal/domain/phase_table.go:69-100 | So does the analysis side, except that in a draft that starts with a pick it counts ban runs from 2 |
| `DraftPhases.NamesAgreeExactly` | go-ingestion/internal/worker/parser/decode_draft.go:132-176 | The two sides' names agree exactly for drafts that start with a ban or have no ban at all |
| `DraftPhases.DerivedStableExactly` | go-analysis/internal/domain/phase_table.go:59-112 | Dropping bans keeps every surviving entry's number exactly if every ban run between two picks keeps a ban |
| `DraftPhases.AssignedStableExactly` | go-ingestion/internal/worker/parser/decode_draft.go:118-158 | On the ingestion side exactly if moreover the draft still starts with the same kind |
| `DraftPhases.DerivedNamesStableExactly` | go-analysis/internal/domain/phase_table.go:59-112 | Dropping bans keeps every surviving entry's name exactly if every ban run between two picks keeps a ban |
| `DraftPhases.AssignedNamesStableExactly` | go-ingestion/internal/worker/parser/decode_draft.go:118-176 | On the ingestion side exactly if every ban run between two picks keeps a ban and either the draft still starts with the same kind or no ban is left |
| `MigrationFiles.VersionTextExactly` | go-core/migrator/runner.go:38-38 | The version found is that of the one way the file name pattern can match |
| `MigrationFiles.ReadFiles` | go-core/migrator/runner.go:189-210 | The directory loop: every matching file in order, or the error of the first candidate that is not good |
| `MigrationFiles.FoundExactly` | go-core/migrator/runner.go:189-210 | The migrations found are exactly those whose file has a name of the pattern's form with their version in it, their name and their script |
| `MigrationFiles.FirstDuplicate` | go-core/migrator/runner.go:213-218 | The neighbour check finds a duplicate exactly if there is one |
| `MigrationFiles.LoadMigrations` | go-core/migrator/runner.go:183-220 | Succeeds exactly if all candidates are readable with versions in range and distinct; all of them, by version |
| `MigrationFiles.DistinctPermuted` | go-core/migrator/runner.go:211-218 | Whether versions coincide does not depend on the sort |
| `MigrationFiles.OneOrder` | go-core/migrator/runner.go:211-219 | Every load of the same files gives the same list, although the sort is not stable |
| `Migrator.Database.Apply` | go-core/migrator/runner.go:240-259 | Script, row and commit as one transaction, with a lost commit answer |
| `Migrator.Database.RunMigrations` | go-core/migrator/runner.go:97-123 | A run of the step protocol; on success exactly the migrations not applied before are appended, in order, and counted; else it stops at the first one that fails, with those before it applied |
| `Migrator.PrefixAlways` | go-core/migrator/runner.go:97-119 | After any number of runs that stop, fail or crash anywhere, also side by side under one lock ID, the database is the fold of a prefix of the sorted list, each applied once and recorded under its file name |
| `Migrator.AtMostOnce` | go-core/migrator/runner.go:108-119 | Whatever files the runs are given, no version is applied twice |
| `Migrator.SuccessMeansAll` | go-core/migrator/runner.go:108-122 | A run that reaches the end of its list has all of it applied |
| `Migrator.NothingAfterSuccess` | go-core/migrator/runner.go:108-119 | Once all is applied later runs change nothing |
| `Migrator.TwoLocksApplyTwice` | go-core/migrator/runner.go:125-132 | With two lock IDs a migration can be applied twice |
| `Migrator.LocksExcludeExactly` | go-core/migrator/runner.go:125-132 | For a script that can run twice: under two lock IDs no run applies anything twice if and only if they are equal |
| `TransportCache.Doer.GetClient` | go-ingestion/internal/proxy/httpdo/doer.go:321-363 | The whole new cache for a hit, a miss with and without eviction, and both errors |
| `TransportCache.Doer.TouchAccessOrder` | go-ingestion/internal/proxy/httpdo/doer.go:365-373 | Moves the URL to the end |
| `TransportCache.Doer.DirectClient` | go-ingestion/internal/proxy/httpdo/doer.go:271-292 | The direct entry, outside the access order |
| `TransportCache.Doer.EvictIdleEntries` | go-ingestion/internal/proxy/httpdo/doer.go:388-407 | Closes and removes exactly the idle entries, in map and order |
| `TransportCache.Doer.Close` | go-ingestion/internal/proxy/httpdo/doer.go:409-421 | Closes every client and empties the cache |
| `TransportCache.RunInvariant` | go-ingestion/internal/proxy/httpdo/doer.go:321-421 | Over every run the access order lists the cached proxy URLs, each once, by last use; at most 101 entries; each client built is cached or closed once |
| `TransportCache.EvictsLeastRecent` | go-ingestion/internal/proxy/httpdo/doer.go:344-354 | A full cache gives up exactly the proxy URL used longest ago |
| `TransportCache.IdleEvictionIsPrefix` | go-ingestion/internal/proxy/httpdo/doer.go:388-407 | With a clock that does not go back idle eviction removes a prefix of the access order, the idle ones |
| `TransportCache.OrderKeptExactly` | go-ingestion/internal/proxy/httpdo/doer.go:330-362 | A request keeps the order right exactly if its URL is not the reserved key or it fails |
| `LeasePool.Pool.Acquire` | go-ingestion/internal/proxy/inmem/pool.go:34-61 | The first free proxy from the cursor on, the cursor then one place after it, or none if all are leased |
| `LeasePool.Pool.Replace` | go-ingestion/internal/proxy/inmem/pool.go:72-93 | The new list, the cursor at its start, only listed URLs still leased |
| `LeasePool.Pool.Add` | go-ingestion/internal/proxy/inmem/pool.go:95-113 | Appends each new URL once, in the order of the list given |
| `LeasePool.Lease.Release` | go-ingestion/internal/proxy/inmem/lease.go:20-28 | Only the first call reaches the pool |
| `LeasePool.FailsExactly` | go-ingestion/internal/proxy/inmem/pool.go:41-60 | Acquire fails exactly when every proxy is leased |
| `LeasePool.FreeProxyComesRound` | go-ingestion/internal/proxy/inmem/pool.go:45-52 | A proxy that stays free is handed out within n successful Acquires |
| `LeasePool.ExclusiveAlways` | go-ingestion/internal/proxy/inmem/lease.go:20-28 | While no Replace drops a leased URL no two unreleased leases share one, with releases split and repeated |
| `LeasePool.DroppedIsShared` | go-ingestion/internal/proxy/inmem/pool.go:84-91 | A Replace that drops a leased URL always opens the way to a second lease on it |
| `Recommender.Combine` | go-analysis/internal/recommend/ensemble.go:31-54 | Pass-through without value scores or weight, else the weighted sum under the same heroes, with the hero's own score where the value model has none |
| `Recommender.ImitationWeighs` | go-analysis/internal/recommend/ensemble.go:43-52 | Raising a scored hero's imitation score by d raises its combined score by the imitation weight times d |
| `Recommender.ValueWeighs` | go-analysis/internal/recommend/ensemble.go:38-52 | Raising its value score by d raises it by the value weight times d; of several value scores the last counts |
| `Recommender.BalancedExactly` | go-analysis/internal/recommend/ensemble.go:24-30 | With the balanced weights a hero is put at least as high as another if and only if seven times its imitation lead is at least three times its value lag |
| `Recommender.ImitationDecides` | go-analysis/internal/recommend/ensemble.go:24-30 | Where the models disagree by as much the imitation model decides |
| `Recommender.UnscoredKeptExactly` | go-analysis/internal/recommend/ensemble.go:43-47 | Helper: a hero the value model does not score keeps its score exactly if the weights add up to one |
| `Recommender.AgreementKept` | go-analysis/internal/recommend/ensemble.go:48-51 | Helper: a hero both models prefer is preferred |
| `Recommender.Recommend` | go-analysis/internal/recommend/recommender.go:62-131 | Errors, the value model's fallback, and the k best ranked from 1, nothing left out scoring higher |
| `Recommender.FirstIsMaximal` | go-analysis/internal/recommend/recommender.go:97-104 | The first recommendation has maximal combined score |
| `DraftSimulation.NewDraftState` | go-analysis/internal/domain/draft.go:71-131 | Both sides' teams, rosters and lists by perspective; drafted is exactly what either side picked or banned |
| `DraftSimulation.LegalHeroes` | go-analysis/internal/domain/draft.go:176-185 | The catalog's heroes not drafted, in order |
| `DraftSimulation.LegalExactly` | go-analysis/internal/domain/draft.go:176-185 | Legal is in the catalog, a real hero, and not drafted |
| `DraftSimulation.SimulateDraft` | go-analysis/internal/api/handlers_draft.go:143-213 | For any catalog and models: the slots of the steps rise, and a slot is left out if and only if the features or the imitation scorer err at it for the heroes legal there, so that steps and erring slots make 24 unless a step without recommendations ends the draft; each step has the K best for the state its acting side is in, and its first hero goes to that side's list; all heroes picked and banned are distinct, real and in the catalog if and only if every choice is legal at its slot, as it is when the imitation scorer names only heroes it was asked about; without errors and with 24 heroes, 24 steps and 5 picks and 7 bans a side |
| `DraftSimulation.StepsAndErrors` | go-analysis/internal/api/handlers_draft.go:166-170 | An error skips its slot and no other: steps and erring slots are as many as the slots gone through |
| `DraftSimulation.ChoiceLegalExactly` | go-analysis/internal/recommend/recommender.go:94-104 | The choice is a candidate, however ties are ranked, if and only if every hero of maximal combined score is one |
| `DraftSimulation.CmSlots` | go-analysis/internal/domain/phase_table.go:27-52 | Helper: the slots of each kind and side in the fixed table |
| `DraftSimulation.SomeLegal` | go-analysis/internal/api/handlers_draft.go:193-198 | The early stop does not happen while the catalog has undrafted heroes |

## Left out

- HTTP, TLS, logging, telemetry, metrics, configuration and the binaries' wiring: nothing to prove.
- The Redis-backed proxy pool: its Lua scripts (acquire, release, record_*) are not part of this model.
- Redis and Postgres themselves: the data the commands in use change, and a table of rows; COPY, upserts and partitions are not modelled.
- MAXLEN trimming, Bloom filters, and the expiry of replay guards and dedup keys: see "What is assumed".
- The feature sources, LightGBM and the Python trainer: scores are whatever the model parameters answer.
- Field-by-field JSON decoding of matches; a payload is represented by the match ID it carries.
- Backoff, jitter, backpressure, worker fan-out and polling intervals of the subscriber loops: no result depends on them; the due time of a scheduled retry is a parameter.
- Fine-grained liveness of the circuit breaker: `StuckRun` shows that the code does not have it.
- MessageCodec.DecodeMessage: integers are unbounded, so a retry field too large for an int is read instead of counting as 0.
- RedisStreams.Queue.Publish: XADD errors and its MAXLEN argument are not modelled; the caller that sees an error publishes again or stops.
- RedisStreams.Queue.Pop: one read without the blocking wait; of the server's errors only the missing group is modelled.
- RedisStreams.Queue.RouteDLQ: the stored reason is the caller's text; error texts that contain Go type names are shortened. The MAXLEN argument is not modelled.
- RedisStreams.Queue.Requeue: the MAXLEN argument that the script always passes is not modelled.
- EndToEnd.NeverNowhere: the failed handler's retry is a command of the queue, possible for any task handed out, failed or not; the queues' methods are tied to those commands in QueueNoLoss.
- RedisStreams.Queue.RecoverStale: which entries are idle long enough, and the cursor the server returns, are parameters.
- RedisStreams.Queue.MatureAsyncRetries: members are well-formed envelopes, so the branch that skips an undecodable one is absent.
- InMemQueue.Queue.Pop: one look at the queue, without the wait for a deadline; a negative batch, which panics, is excluded.
- QueueRefinement.RedisRefinesMemory: each retry has to go to the same place in both queues, which `RefinesExactly` shows to be needed.
- QueueNoLoss.NoMessageLost: covers messages published after the consumer group exists; `LostBeforeGroup` and `KeptExactly` show that no others are kept.
- DlqReplay.Server.ReplayStream: no replayer runs beside it (the step protocol has any number); the body of the loop over DLQ names; names without a target are skipped before it. List and Purge are not modelled.
- Discovery.Cycle.RunOnce: starts from the references the query returned; the fetch with its retries and the parsing of rows are not modelled, and marshalling a task cannot fail.
- Discovery.UnknownIDs: the query as a join over a set of rows; query errors are the parameter readFails of the cycle.
- Pipeline.Site.HandleParse: decoding and validation are parameters; the TTL extension after a failed ingest changes no state kept here.
- PayloadStore.LateExtendRevives: one choice of times; `LateExtendExactly` has the general statement.
- Migrator.Database.RunMigrations: starts with the advisory lock taken; opening the connection, the lock query and the tracking table are not modelled.
- MigrationFiles.SortByVersion: an insertion sort stands for sort.Slice, of which only a sorted permutation is used.
- Recommender.SortByValue: the same; scores are real numbers, so NaN, for which the order is not defined, does not occur.
- Recommender.Recommend: explanations, names and risk texts are not modelled.
- DraftSimulation.NewDraftState: the phase table is the fixed one, and is not part of the state.
- DraftSimulation.SimulateDraft: the hero names of a step are not modelled.
- TransportCache.Doer.Close: closing twice panics in the Go code; the cleanup ticker and the requests themselves are not modelled.
- LeasePool.Pool.Acquire: success and failure counts, contexts and hold times are not modelled.
- EnrichRunner.Run: what a source does is a parameter; gates answer once.
