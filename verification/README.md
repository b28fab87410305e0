# ContextLedger: a verified model

ContextLedger keeps facts in a bitemporal, append-only ledger and surrounds it with pipelines and
caches that must agree with it. This project models the rules that code runs, as explicit states
and atomic steps, and proves what holds in every reachable state.

| module | what it models |
|---|---|
| `Common` | shared types: `Option`, `Result`, errors, instants, ids, the ideal hash |
| `Sorting` | stable sorting by a key, as `sorted` does it |
| `Temporal` | the reference reader: what was known when, what was valid when, what changed |
| `Ledger` | supersession, transaction time, closing and writing versions, contradictions, the SQL reader |
| `Receipts` | relied-on validation and the sealed receipt document |
| `Decisions` | one tenant's database: versions, evidence links, revocations, snapshots, decisions |
| `Events` | outbox, relay, Kafka log, deduplicating consumer, dead letters |
| `Graph` | what each row merges into the provenance graph |
| `Tables` | the projected tables with all their columns, and which of them reach the graph |
| `Projector` | the outbox-driven graph projector and its worker |
| `Embeddings` | the embedding job queue: leases, fencing tokens, retries, shared vectors |
| `TtlStore` | the key-value store with expiring keys |
| `RateLimit` | the fixed-window rate limiter |
| `Idempotency` | the `Idempotency-Key` reservation machine |
| `RetrievalCache` | the generation-keyed cache of search results and privacy ceilings |
| `Ranking` | reciprocal rank fusion with trust |

`dafny verify dfyconfig.toml` checks everything.

## Assumptions

The code relies on these, and the model states them by its shape:

- A database transaction is one step, at its transaction time; a store or broker call is one step.
- Ids, lease tokens and event ids are never issued twice. SHA-256 is an ideal hash: equal digests
  have equal preimages. Values, texts and headers read back as they were written.
- One graph projector runs at a time; writers interleave with it freely.
- The embedding provider is a deterministic function that may fail.
- The store is up, an idempotent execution ends within its lock, and the retrieval generation key
  does not expire during the run considered. The store's clock does not go backwards.
- Scores are exact reals.

## What turned out differently from the documentation

- The rate limiter's own comment allows "up to twice the limit" across a boundary. The exact bound
  for a half-open interval one window long is `2 * limit - 1`, and it is attained
  (`RateLimit.RateLimitBound`, `RateLimit.RateLimitBoundAttained`).
- A client that waits `Retry-After` seconds can still meet the old window, exactly when rounding the
  rest of the window to milliseconds drops up to half a millisecond above a whole number of seconds
  (`RateLimit.RetryAfterReachesReset`).
- The retrieval cache promises never to widen what a caller may read. The key uses the role read
  before the lookup, the result the role read again with the database. When the visible scopes
  change in between, the stored result is for other scopes than its key
  (`RetrievalCache.PromotionWidensTheCache`), and exactly then (`RetrievalCache.ScopesKeptIffSteady`).
- New decision contexts are said to exclude revoked versions. A context is searched in one transaction
  and captured in another, and may be pinned to a future `known_at`: a version revoked in between,
  at an instant not after `known_at`, is captured (`Decisions.RevokedVersionIsCaptured`), and exactly
  then (`Decisions.CapturedRevokedIff`).
- Later knowledge is said not to leak into old receipts. With a future `known_at` it does
  (`Decisions.LaterWriteLeaks`), exactly when a version is ended or evidence is linked at an instant not
  after `known_at` (`Decisions.ShownAsCapturedIff`); not with a `known_at` before the clock
  (`Decisions.PastContextShownAsCaptured`).
- The idempotency fingerprint joins its parts with NUL bytes. It names the request among those whose
  path and query hold no NUL; a request shares its fingerprint with no other request at all exactly
  when it holds no NUL anywhere (`Idempotency.FingerprintUniqueIff`).
- An event can be both counted and dead-lettered (`Events.CountedAndDeadLettered`): exactly when no
  attempt succeeds, and it was counted before or some attempt committed but reported a failure
  (`Events.CountedAndDeadLetteredIff`).
- Contradiction detection has to look at the previous version before it is closed: after closing, the
  rule finds nothing (`Ledger.DetectionAfterClosingFindsNothing`).

## Model

| member | source | states |
|---|---|---|
| `Temporal.HistoryComposes` | backend/app/temporal/reference.py:31-55 | the history as known at K1, read as known at K2, is the history as known at the earlier of the two |
| `Temporal.TimelineSingleMatch` | backend/app/temporal/reference.py:58-68 | on non-overlapping windows at most one version matches any instant |
| `Temporal.ResolveOnTimeline` | backend/app/temporal/reference.py:58-68 | then `resolve` never raises, and answers v exactly when v is in the known history and valid at t |
| `Temporal.TakesEffectAtStart` | backend/app/temporal/reference.py:39-68 | a version of the history takes effect at t exactly when t is its start |
| `Temporal.NoTransitionNoChange` | backend/app/temporal/reference.py:71-92 | equal answers at both ends and no start in between mean the same answer throughout |
| `Temporal.TransitionsAreTakingEffect` | backend/app/temporal/reference.py:71-92 | the listed transitions are exactly the versions that become the answer in (start, end] |
| `Temporal.ChangeBetweenExact` | backend/app/temporal/reference.py:71-92 | `change_between` is None exactly when the answer is the same at every instant of [start, end]; otherwise before and after are the answers at the ends and the transitions are exact, in version order, each once |
| `Temporal.ChangeRefusedIff` | backend/app/temporal/reference.py:71-83 | an empty interval, and nothing else, is refused |
| `Ledger.FactRepository.Latest` | backend/app/repositories/facts.py:116-126 | a stored version with the highest number, or none when there are none |
| `Ledger.FactRepository.CloseVersion` | backend/app/repositories/facts.py:145-159 | exactly the open row with that id gets its end and the instant it was learned; nothing else changes |
| `Ledger.FactRepository.RecordVersion` | backend/app/services/facts.py:111-197 | a rejected write changes nothing; an accepted one leaves the specified rows and contradictions, and the chain invariant holds again |
| `Ledger.RecordAcceptsExactly` | backend/app/domain/facts.py:63-115 | a write is accepted exactly when its window is not empty and comes after every stored window, and its id is new |
| `Ledger.RecordRefusals` | backend/app/domain/facts.py:63-115 | which error a refused write gets: an empty window, one that does not come last, a taken id |
| `Ledger.TransactionTimeIsLeast` | backend/app/repositories/facts.py:128-143 | the recorded instant is the least one not before the clock and after the latest version's |
| `Ledger.RecordExtends` | backend/app/services/facts.py:151-184 | an accepted write ends the open last row where the new one starts and adds a row with the next number and a strictly later transaction time |
| `Ledger.RecordKeepsChain` | backend/app/services/facts.py:151-184 | numbers 1..n, each superseding the previous one, strictly increasing transaction time, no overlap: kept by every write |
| `Ledger.HistoryIsPrefix` | backend/app/temporal/reference.py:45-55 | for every K the known history of a chain is a prefix of it, each row as known at K |
| `Ledger.ChainIsTimeline` | backend/app/temporal/reference.py:45-68 | for every K the known history of a chain has no overlapping validity, so `resolve` cannot raise |
| `Ledger.EveryRunIsConsistent` | backend/app/services/facts.py:111-197 | after any writes, with any windows and a clock that may step back, the rows are a chain and the stored contradictions are those recomputed from history |
| `Ledger.ClaimsAreNeverAltered` | backend/app/repositories/facts.py:145-195 | over every run each version, as claimed when recorded, says exactly what one of the writes said |
| `Ledger.ContradictionsMatchHistory` | backend/app/services/facts.py:164-231 | a row joins versions i-1 and i exactly when, as each was claimed, sources and values differ, i-1 was observed before any end it had, and i claims to start by then |
| `Ledger.DetectionAfterClosingFindsNothing` | backend/app/services/facts.py:164-184 | detecting after closing instead of before would find no conflict at all |
| `Ledger.ContradictionContent` | backend/app/domain/contradictions.py:59-76 | the row names both versions, prefers the higher-ranked one (the earlier on a tie) and carries the more sensitive scope |
| `Ledger.HistoryStableIffRecordedLater` | backend/app/temporal/reference.py:27-55 | the history as known at k is unchanged by a run exactly when every version it adds is recorded after k |
| `Ledger.SqlRowMatchesReference` | backend/app/repositories/temporal.py:34-62 | one row passes the SQL condition exactly when it is known, valid at T as known at K, and not revoked as known at K |
| `Ledger.RevocationHides` | backend/app/repositories/temporal.py:34-42 | a known, valid row passes exactly if it is not revoked at all, for the latest knowledge, or not revoked by K |
| `Ledger.AtMostOneSqlRow` | backend/app/repositories/temporal.py:80-106 | at most one row of a fact passes, for every T and K |
| `Ledger.SqlRefinesReference` | backend/app/repositories/temporal.py:34-62 | the passing rows are exactly the version the reference resolves if it is not revoked as known at K, and none otherwise |
| `Receipts.ValidateReliedOnExact` | backend/app/domain/decisions.py:69-84 | accepted exactly when the citations are distinct and all in context; the result is the same citations in id order |
| `Receipts.ReceiptDocumentInjective` | backend/app/domain/decisions.py:87-147 | two valid contents seal to the same document exactly when they agree on every covered field, up to scope order and fact order |
| `Decisions.StepKeepsInv` | backend/app/services/decisions.py:192-296 | every transaction keeps foreign keys, chains, seals, exact impact rows and fresh contexts, and only appends |
| `Decisions.TimeTravelStable` | backend/app/repositories/temporal.py:34-62 | over every run of transactions after k, "valid at t as known at k" never changes, for any fact and t |
| `Decisions.AnswerIsResolved` | backend/app/repositories/temporal.py:80-106 | the stored answer is the reference's answer unless it is revoked as known at k |
| `Decisions.ReceiptReverifies` | backend/app/services/decisions.py:298-375 | a recorded decision, over any context, re-verifies in every later state |
| `Decisions.SealedDocument` | backend/app/services/decisions.py:136-163 | the sealed document holds every stored column under its own name, and each fact in position order with its value's hash and citation flag |
| `Decisions.SealCoversColumns` | backend/app/domain/decisions.py:87-147 | two stored decisions have the same receipt hash exactly when they agree on every decision, snapshot and fact column, scopes up to order |
| `Decisions.ShownAsCapturedIff` | backend/app/services/decisions.py:319-347 | from the search on, over every run, a fact and its evidence are shown as they were then exactly if no accepted transaction ends that version, or links evidence the reader may see, at an instant not after `known_at` |
| `Decisions.PastContextShownAsCaptured` | backend/app/services/decisions.py:192-252 | so with `known_at` before the clock, and a clock that does not go back, receipts show what was captured for good |
| `Decisions.LaterWriteLeaks` | backend/app/services/decisions.py:199-203 | an input with a future `known_at` on which a later write changes what is shown |
| `Decisions.RevocationImpactExact` | backend/app/services/revocations.py:222-308 | the stored impact rows are the decisions recorded before from such a context, the report adds exactly the later ones, citation flags match, and contexts searched later that know about the revocation leave the version out |
| `Decisions.CapturedRevokedIff` | backend/app/services/decisions.py:211-250 | in every reachable state a context captured after a revocation it knows about holds the version exactly if the revocation came between its search and its capture, at an instant not after `known_at` |
| `Decisions.RevokedBetweenSearchAndCapture` | backend/app/services/decisions.py:211-250 | from any state such a run stores the revoked version in a new context |
| `Decisions.RevokedVersionIsCaptured` | backend/app/services/decisions.py:199-203 | a concrete one |
| `Decisions.PastContextCapturedFresh` | backend/app/services/decisions.py:192-252 | with `known_at` before the clock, and a clock that does not go back, it cannot happen |
| `Decisions.DistinctOnDropsNothing` | backend/app/repositories/temporal.py:80-106 | `DISTINCT ON (fact_id)` keeps every passing row |
| `Decisions.DecisionStore.DecisionsHolding` | backend/app/services/revocations.py:222-246 | exactly the decisions whose snapshot holds the version, each with its citation flag |
| `Decisions.DecisionStore.RevokeVersion` | backend/app/services/revocations.py:80-142 | the version named or else the latest; not of the fact, or not readable, is not found, and revoked before is a conflict, each exactly then and without effect; otherwise the step of the model and the report computed afterwards |
| `Decisions.NamedTarget` | backend/app/services/revocations.py:97-110 | a named version is revoked exactly if it is the fact's and readable |
| `Decisions.LatestTarget` | backend/app/services/revocations.py:97-110 | without a name, the version with the highest number, if readable |
| `Decisions.DecisionStore.RecordDecision` | backend/app/services/decisions.py:254-296 | accepted exactly when the model accepts it, refused with its error and without effect; stored under a new id as the command says, with exactly its citations and the receipt it returns |
| `Decisions.CitationsShow` | backend/app/services/decisions.py:254-296 | over every run a decision stays stored as its transaction said, and receipts and impacts flag a version as cited exactly if that transaction cited it |
| `Decisions.DecisionsWereDecided` | backend/app/services/decisions.py:254-296 | the stored decisions are exactly those an accepted transaction of the run made |
| `Decisions.DecisionStore.ReadReceipt` | backend/app/services/decisions.py:298-375 | the facts in position order, redacted exactly above the reader's ceiling, each as known at `known_at` with its citation flag and revocation instant, and an integrity check that succeeds |
| `Decisions.EvidenceListed` | backend/app/repositories/evidence.py:119-144 | a receipt lists exactly the evidence linked by `known_at` that the reader may see, in order of link, capture and id |
| `Events.StepKeepsInv` | backend/app/events/consumer.py:97-178 | every step of relays and consumers, crashes included, keeps the protocol's invariant |
| `Events.BelongsIff` | backend/app/events/handlers.py:30-39 | recorded facts, captured evidence and recorded decisions are counted, each in its tenant's and day's own counter, and nothing else is |
| `Events.CountedExactlyOnce` | backend/app/repositories/events.py:51-86 | in every reachable state a counter is the number of distinct processed events of its tenant, day and kind, at most the committed ones |
| `Events.NothingLost` | backend/app/workers/event_relay.py:60-77 | every committed subscribed event is in the outbox, in the log at or beyond the committed offset, processed, or dead-lettered |
| `Events.DrainedIsComplete` | backend/app/workers/event_consumers.py:38-68 | once the outbox is empty and offsets have caught up, every event was counted or is a dead letter |
| `Events.RelayMovesEvent` | backend/app/workers/event_relay.py:60-71 | claiming, publishing and deleting moves any free row from the outbox to the end of its partition and changes nothing else |
| `Events.AttemptsExact` | backend/app/events/consumer.py:97-144 | an event is processed after its attempts exactly if it was before or an attempt commits, and the message is handled exactly if an attempt that takes place succeeds |
| `Events.CountedAndDeadLetteredIff` | backend/app/events/consumer.py:97-131 | a message is dead-lettered although its event is counted exactly if no attempt succeeds and the event was counted before or an attempt lost its acknowledgement |
| `Events.CountedAndDeadLettered` | backend/app/events/consumer.py:97-131 | for every retry limit: the last attempt, an earlier one, or a redelivery do that |
| `Events.NextOffsets` | backend/app/events/consumer.py:184-190 | for each partition one past its last processed offset, and nothing else |
| `Events.OffsetsArePositions` | backend/app/workers/event_consumers.py:50-64 | after a batch these offsets are the consumer's read positions |
| `Events.Pipeline.RelayOnce` | backend/app/workers/event_relay.py:60-71 | a batch is removed from the outbox only when all of it was acknowledged and the commit succeeded |
| `Events.Pipeline.Drain` | backend/app/workers/event_relay.py:73-77 | without faults the rows other relays hold remain and all others were published; the total is how many those were |
| `Events.Pipeline.Process` | backend/app/events/consumer.py:97-178 | the effect is applied once exactly if an attempt commits; dead-lettered exactly if the broker is up and the message is undecodable or no attempt succeeds; an outcome means the message is settled |
| `Events.Pipeline.ReadBatch` | backend/app/workers/event_consumers.py:50-58 | when nothing raises, each partition is read as often as the poll names it, up to the end of its log, and every record read is processed |
| `Events.Pipeline.ConsumeBatch` | backend/app/workers/event_consumers.py:50-64 | offsets are committed only after every record of the batch was processed, and then to the read positions |
| `Events.Pipeline.CatchUp` | backend/app/workers/event_consumers.py:38-68 | a consumer that starts at the committed offsets and meets no fault commits the end of every log |
| `Events.Pipeline.RelayAndConsume` | backend/app/workers/event_relay.py:73-77 | after draining and catching up, every committed subscribed event no other relay holds is counted unless it was dead-lettered before; with none of either, each counter is the number of committed events of its tenant, day and kind |
| `Graph.MergesMember` | backend/app/provenance/projection.py:43-122 | a row's statement sets its own node, ensures exactly the far ends, and sets exactly its relationships |
| `Graph.MergedNode` | backend/app/provenance/projection.py:18-21 | after any consistent merges a node holds its own SET clause, else what it held, else a placeholder |
| `Graph.MergeOrderIrrelevant` | backend/app/provenance/projection.py:18-21 | the same clauses in any order and with any repeats give the same graph |
| `Graph.RowOrderIrrelevant` | backend/app/provenance/projection.py:18-21 | the same rows of one database, in any order and with any repeats, give the same graph |
| `Graph.ProjectionUnique` | backend/app/provenance/projection.py:1-21 | a database has one projection |
| `Graph.RebuildIsProjection` | backend/app/provenance/projection.py:18-21 | rebuilding from nothing, in any order, gives it |
| `Graph.GraphDeterminesDatabase` | backend/app/provenance/projection.py:43-122 | the merged graph determines the graph rows it was merged from |
| `Tables.SameGraphRowIff` | backend/app/provenance/projection.py:139-232 | two table rows become the same graph row exactly when they agree outside the columns the graph never sees |
| `Tables.ExcerptCountsThroughItsHash` | backend/app/domain/evidence.py:58-60 | where the stored hash is computed from the excerpt, evidence rows become the same graph row only with the same excerpt |
| `Tables.SameProjectionIff` | backend/app/provenance/projection.py:139-232 | two databases have the same projection exactly when they agree outside those columns |
| `Tables.NodeRowsShown` | backend/app/provenance/projection.py:139-232 | in the projection every row's node has the row's columns by name, null ones absent and no others, and its relationships go exactly where the reference columns say |
| `Tables.LinkRowsShown` | backend/app/provenance/projection.py:139-232 | every link row's relationship runs between the ids of its two columns, with its properties by name |
| `Projector.StepKeepsInv` | backend/app/workers/graph.py:66-80 | writers and the projector, with failures on either side of the commit, keep the invariant |
| `Projector.MissingRowIsQueued` | backend/migrations/versions/0008_graph_outbox.py:33-49 | in every reachable state a row whose current projection is missing has an event that outlives the open transaction |
| `Projector.Converged` | backend/app/workers/graph.py:66-88 | with an empty outbox the graph is exactly the projection of the database |
| `Projector.EmptyOutboxMeansConverged` | backend/app/workers/graph.py:66-88 | it is also the graph that a rebuild in any order gives |
| `Projector.ApplyTables` | backend/app/provenance/graph.py:40-54 | every row of every table is merged, and counted once |
| `Projector.GroupKeys` | backend/app/repositories/graph_outbox.py:51-59 | every key under its table, duplicates collapsed, no empty group |
| `Projector.GraphProjector.Load` | backend/app/repositories/graph_outbox.py:51-70 | the current row of every claimed event, and no other |
| `Projector.GraphProjector.RunOnce` | backend/app/workers/graph.py:66-80 | with writers committing in between: exactly the claimed events are gone after it was written, and any fault leaves them all |
| `Projector.GraphProjector.Drain` | backend/app/workers/graph.py:82-88 | however writers interleave, the outbox ends empty and the graph is the projection of the database |
| `Embeddings.StepKeepsInv` | backend/app/workers/embeddings.py:101-211 | every step of every worker keeps the queue's invariant |
| `Embeddings.StatusesMeanWhatTheySay` | backend/app/repositories/embeddings.py:123-168 | RUNNING exactly when leased, SUCCEEDED only with an embedding, FAILED only after `max_attempts` |
| `Embeddings.StaleStaysStale` | backend/app/repositories/embeddings.py:238-269 | a replaced or released token never becomes current again |
| `Embeddings.StaleWorkerChangesNothing` | backend/app/repositories/embeddings.py:238-269 | once replaced, nothing that worker does later changes the job's row |
| `Embeddings.CompletedExactlyOnce` | backend/app/repositories/embeddings.py:238-251 | over every run `complete` returns True exactly once for a SUCCEEDED job and never for another |
| `Embeddings.AttemptsCountClaims` | backend/app/repositories/embeddings.py:152-166 | over every run a job's attempts are how often it was leased |
| `Embeddings.TerminalForever` | backend/app/repositories/embeddings.py:123-168 | SUCCEEDED and FAILED rows never change again |
| `Embeddings.StoredVectorsAreRight` | backend/app/workers/embeddings.py:118-176 | every stored vector, fresh, shared or reused, is the provider's vector for the version's own text |
| `Embeddings.ReuseStaysInTenant` | backend/app/repositories/embeddings.py:197-213 | a reused vector was stored for a version of the same tenant with the same text |
| `Embeddings.LookupAlwaysSucceeds` | backend/app/workers/embeddings.py:158-172 | the lookup before writing finds a vector for every job of the batch |
| `Embeddings.RetryDelayDoubles` | backend/app/domain/embeddings.py:41-45 | the delay starts at the base and doubles with every attempt until the cap |
| `Embeddings.ClaimJobs` | backend/app/repositories/embeddings.py:123-168 | due jobs only, at most a batch, all of them if fewer; each gets the batch's token and one more attempt |
| `Embeddings.DueExactly` | backend/app/repositories/embeddings.py:127-138 | a pending job is claimable once available, a running one once its lease has run out too, a finished one never |
| `Embeddings.CollectTexts` | backend/app/workers/embeddings.py:138-143 | each uncached text once |
| `Embeddings.SendChunks` | backend/app/workers/embeddings.py:144-155 | every text sent once, in order, in non-empty chunks within the provider's limit; a failing call ends the loop |
| `Embeddings.ReadCached` | backend/app/workers/embeddings.py:131-136 | a stored vector for every job whose tenant has one for its text, never another tenant's |
| `Embeddings.WriteJobs` | backend/app/workers/embeddings.py:158-176 | embeddings inserted where absent, jobs completed where the lease holds, with exact counts of completed, lost and reused |
| `Embeddings.CompletedRows` | backend/app/repositories/embeddings.py:238-251 | completing releases the held rows as SUCCEEDED and leaves the others untouched |
| `Embeddings.FailJobs` | backend/app/workers/embeddings.py:191-206 | held jobs fail for good or go back to PENDING after their delay, others are untouched; the count includes exhausted jobs whose lease was lost |
| `Embeddings.EmbeddingWorker.Process` | backend/app/workers/embeddings.py:118-211 | the texts sent are exactly those with nothing to reuse, each once; then every job has its embedding and held ones are completed, or a failed call stored nothing and held ones are failed or queued again, with exact counts |
| `Embeddings.EmbeddingWorker.EnqueueMissing` | backend/app/repositories/embeddings.py:82-121 | unless the limit was reached, every version has a job or an embedding afterwards |
| `Embeddings.EmbeddingWorker.LeaseBatch` | backend/app/workers/embeddings.py:106-113 | a leased batch of the due jobs, or nothing at all |
| `Embeddings.EmbeddingWorker.RunOnce` | backend/app/workers/embeddings.py:101-116 | reconcile, lease and process; without a failing call every claimed job is completed or its lease was lost |
| `TtlStore.MemoryStore.FindLive` | backend/app/cache/store.py:73-78 | the live entry; dropping an expired one changes nothing anyone can see |
| `TtlStore.MemoryStore.Set` | backend/app/cache/store.py:84-91 | writes unless asked not to replace a live key; all other keys look the same at all later times |
| `TtlStore.MemoryStore.GetAndDelete` | backend/app/cache/store.py:93-97 | the live value, gone afterwards |
| `TtlStore.MemoryStore.Increment` | backend/app/cache/store.py:102-112 | one more than the live count, with the window it was created with |
| `RateLimit.RateLimiter.Hit` | backend/app/cache/rate_limit.py:37-54 | only the subject's counter changes, it is gone once its window expires; allowed up to the limit with the rest remaining, refused with the time left in the window |
| `RateLimit.RateLimiter.HitAll` | backend/app/cache/rate_limit.py:37-54 | over a whole run of hits each is allowed as the windows imply, at most 2 * limit - 1 in any interval one window long |
| `RateLimit.WindowBound` | backend/app/cache/rate_limit.py:37-54 | each counter window allows at most `limit` hits |
| `RateLimit.RateLimitBound` | backend/app/cache/rate_limit.py:37-54 | any half-open interval one window long contains at most 2 * limit - 1 allowed hits |
| `RateLimit.RateLimitBoundAttained` | backend/app/cache/rate_limit.py:7-8 | for every limit and window that many hits do get through |
| `RateLimit.RetryAfterReachesReset` | backend/app/cache/rate_limit.py:49-54 | exactly when waiting `Retry-After` seconds reaches a new window |
| `Idempotency.FingerprintInjective` | backend/app/cache/idempotency.py:97-102 | among requests without NUL in path and query the fingerprint names the request |
| `Idempotency.FingerprintUniqueIff` | backend/app/cache/idempotency.py:97-102 | no other request shares the fingerprint exactly when the request holds no NUL byte |
| `Idempotency.Capture` | backend/app/cache/idempotency.py:180-220 | what is stored is the whole body of a 2xx of at most one MiB, or nothing |
| `Idempotency.StorableExactly` | backend/app/cache/idempotency.py:212-221 | exactly a 2xx of at most one MiB is stored, whole |
| `Idempotency.BodyInOrder` | backend/app/cache/idempotency.py:200-204 | chunks are joined in sending order |
| `Idempotency.NoStartNoStore` | backend/app/cache/idempotency.py:183-214 | an application that never starts a response leaves nothing stored |
| `Idempotency.KeptExactly` | backend/app/cache/idempotency.py:195-199 | a header is kept exactly if its name, in lower case, is one of the three |
| `Idempotency.AtMostOneInFlight` | backend/app/cache/idempotency.py:97-124 | in every reachable state at most one execution is in flight |
| `Idempotency.ReplaysAreGenuine` | backend/app/cache/idempotency.py:147-178 | every replay is the response of a finished execution of a request with the same fingerprint |
| `Idempotency.ReplaysWereSent` | backend/app/cache/idempotency.py:147-226 | every replay is a status 200 to 299 that an execution of the run sent, with its kept headers and whole body |
| `Idempotency.InFlightAnswers` | backend/app/cache/idempotency.py:147-174 | while an execution is in flight an identical request is told to wait and a different one is refused |
| `Idempotency.StoredResponseAnswersAll` | backend/app/cache/idempotency.py:97-124 | while a stored response lives nothing executes, identical requests get that response and different ones are refused |
| `Idempotency.FinishedAnswersAll` | backend/app/cache/idempotency.py:207-226 | from the moment a storable execution finishes, and for the whole TTL, its response answers every identical request and nothing else executes |
| `Idempotency.OtherOutcomesRelease` | backend/app/cache/idempotency.py:207-214 | after any other outcome the next request executes |
| `Idempotency.IdempotencyMiddleware.Begin` | backend/app/cache/idempotency.py:106-124 | the key is reserved exactly when it was free; otherwise the answer follows from the record read |
| `Idempotency.IdempotencyMiddleware.Complete` | backend/app/cache/idempotency.py:207-233 | the reservation is replaced by the storable response, or deleted |
| `RetrievalCache.VisiblePrivacyScopes` | backend/app/domain/retrieval.py:64-74 | a scope is visible exactly when it is within the role's maximum and every ceiling given |
| `RetrievalCache.VisibleByRole` | backend/app/domain/retrieval.py:46-50 | what each role sees without ceilings |
| `RetrievalCache.VisibleMonotone` | backend/app/domain/retrieval.py:64-74 | ceilings only narrow, higher roles only widen |
| `RetrievalCache.AnswersAreFresh` | backend/app/cache/retrieval.py:60-77 | every answer, hit or miss, includes every write whose invalidation had finished when the generation was read |
| `RetrievalCache.SteadyRunsKeepScopes` | backend/app/services/retrieval.py:201-233 | while visible scopes do not change between the two role reads, every answer is for the key's scopes |
| `RetrievalCache.ScopesKeptIffSteady` | backend/app/services/retrieval.py:201-309 | over every run, all computed results, cache entries and answers are for the scopes of their keys exactly while no search's two role reads disagree |
| `RetrievalCache.AnswersComeFromReads` | backend/app/services/retrieval.py:238-309 | every answer carries the scopes that some read of the run saw for its key, whatever happened in between |
| `RetrievalCache.PromotionWidensTheCache` | backend/app/services/retrieval.py:201-309 | a run in which a viewer is answered with restricted scopes |
| `RetrievalCache.RetrievalService.SearchOnce` | backend/app/services/retrieval.py:189-309 | the cached result if there is one under the current key, else a current one, stored unless degraded |
| `Ranking.RankedIsRanking` | backend/app/domain/retrieval.py:134-137 | sorting and deduplicating ranks each version once, by its best hit, best first |
| `Ranking.RankingUnique` | backend/app/domain/retrieval.py:134-137 | a branch has one ranking, and it depends only on which hits there are |
| `Ranking.BranchOrders` | backend/app/domain/retrieval.py:134-135 | smaller distances and higher text scores rank first, ties by id |
| `Ranking.Dedupe` | backend/app/domain/retrieval.py:160-168 | each version's first hit, in order |
| `Ranking.Fuse` | backend/app/domain/retrieval.py:122-157 | bad weights and constants are refused; otherwise every version found, once, with its ranks, in strict order of score and id |
| `Ranking.FusedUnique` | backend/app/domain/retrieval.py:122-157 | the result depends only on which hits each branch gave, not on order, repeats or set iteration |
| `Ranking.LineMeans` | backend/app/domain/retrieval.py:140-157 | each line carries its branches' ranks and numbers and its trust, and lines are in order of score, ties by id |
| `Ranking.RrfOfOneBranch` | backend/app/domain/retrieval.py:143 | found by one branch only, the rrf is the reciprocal of k plus the rank |
| `Ranking.BetterRankScoresHigher` | backend/app/domain/retrieval.py:143 | a better rank in one branch, all else equal, gives a strictly higher rrf |
| `Ranking.WeightExtremes` | backend/app/domain/retrieval.py:13-15 | weight 0 is pure relevance, weight 1 scores an untrusted fact 0, full trust costs nothing |
| `Ranking.ScoreBounds` | backend/app/domain/retrieval.py:143-154 | 0 <= score <= rrf <= 2 / (k + 1) for weight and trust in [0, 1] |
| `Ranking.RaisingTrustNeverDemotes` | backend/app/domain/retrieval.py:139-157 | raising one version's trust never moves it down |
| `Ranking.TrustScoreBounds` | backend/app/domain/retrieval.py:94-95 | trust is authority in hundredths of the confidence, in [0, 1] for authority 0..100 and confidence 0..1 |

## Left out

- FastAPI, ASGI, MCP, CLI, settings, logging, metrics, tracing and the frontend: no hard properties.
- OpenAI and LangChain providers, prompts, evaluation and benchmarks.
- Full-text ranking, vector search and graph traversal queries: candidate lists are arbitrary inputs.
- JSON encoding, base64, time zones and UTC normalisation, JWT and password hashing.
- Roles, memberships, permission checks and input normalisation, except the privacy ceilings.
- Which of the pending rows a claim takes first: outboxes and queues are sets, and a claim takes any
  rows up to its batch size. Per-tenant order in Kafka is therefore not claimed.
- Two graph projectors at once, executions that outlive their lock, an expiring generation key and an
  unreachable store.
- An outbox event that names an unknown table: the triggers only write known ones.
- Deleting rows: the tables are append-only or updated in place.
- Floating-point rounding of scores.
- Events.StepKeepsInv: the retrieval-cache invalidator, the second subscriber, is modelled as the
  invalidation step of `RetrievalCache`, not as a second consumer group.
- Decisions.DecisionStore.RevokeVersion: permission checks and the length of the reason are left out;
  the readable scopes are a parameter.
- Embeddings.ClaimJobs: which due jobs come first (`available_at`, then `created_at`) is left out; it
  takes any.
- Ranking.Fuse: truncation to the requested limit happens outside it and is not modelled.
