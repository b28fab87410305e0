/**
 The embedding job queue (`app/repositories/embeddings.py`) and its workers
 (`app/workers/embeddings.py`): leases with fencing tokens, retries, and vectors shared by content
 hash within a tenant. One provider model is in use.
 */
module Embeddings {
  import opened Common

  type Vector = seq<real>

  type Digest = Sha256<string>

  /** A fact version's tenant and rendered text; neither ever changes. */
  datatype Version = Version(org: Id, text: string)

  datatype Status = PENDING | RUNNING | SUCCEEDED | FAILED

  /** `uuid4()` at claim time: never issued twice. */
  datatype Token = Token(serial: nat, job: Id)

  datatype Job = Job(
    org: Id, status: Status, token: Option<Token>, lockedAt: Option<Instant>, attempts: nat, availableAt: Instant)

  datatype Embedding = Embedding(org: Id, vector: Vector, digest: Digest)

  datatype CacheKey = CacheKey(org: Id, digest: Digest)

  /** A vector taken from a stored embedding, and the version it was stored for. */
  datatype Cached = Cached(source: Id, vector: Vector)

  /** `ClaimedJob`; the token is the batch's serial with the job's name. */
  datatype Claimed = Claimed(org: Id, attempts: nat)

  datatype Phase = Leased | CacheRead | Embedded

  datatype Batch = Batch(
    serial: nat, jobs: map<Id, Claimed>, phase: Phase, cache: map<CacheKey, Cached>, computed: map<Digest, Vector>)

  /** Jobs and embeddings are unique per fact version, so they are named by it. */
  datatype State = State(
    versions: map<Id, Version>, jobs: map<Id, Job>, embeddings: map<Id, Embedding>,
    serial: nat, workers: map<nat, Batch>)

  const START := State(map[], map[], map[], 0, map[])

  datatype Config = Config(provider: string -> Vector, maxAttempts: nat, lease: nat, retryBase: nat, retryCap: nat)

  datatype Step =
    | AddVersion(id: Id, version: Version)
    | Enqueue(ids: set<Id>, now: Instant)
    | Claim(worker: nat, ids: set<Id>, now: Instant)
    | ReadCache(worker: nat, picks: map<CacheKey, Id>)
    | CallProvider(worker: nat)
    | Write(worker: nat)
    | RecordFailure(worker: nat, now: Instant)
    | Crash(worker: nat)

  // ----- the operations of the store -----

  function DocumentHash(text: string): Digest {
    Sha256(text)
  }

  function Pow2(n: nat): nat {
    if n == 0 then 1 else 2 * Pow2(n - 1)
  }

  function RetryDelay(c: Config, attempts: nat): nat {
    if attempts < 1 then 0
    else
      var d := c.retryBase * Pow2(attempts - 1);
      if d < c.retryCap then d else c.retryCap
  }

  function Min(a: nat, b: nat): nat { if a < b then a else b }

  /** The delay starts at the base and doubles with every attempt until the cap holds it. */
  lemma RetryDelayDoubles(c: Config, attempts: nat)
    requires attempts >= 1
    ensures RetryDelay(c, 1) == Min(c.retryBase, c.retryCap)
    ensures RetryDelay(c, attempts + 1) == Min(2 * RetryDelay(c, attempts), c.retryCap)
  {
  }

  predicate Due(job: Job, lease: nat, now: Instant) {
    && job.availableAt <= now
    && (|| job.status == PENDING
        || (job.status == RUNNING && job.lockedAt.Some? && job.lockedAt.value < now - lease))
  }

  function Lease(job: Job, token: Token, now: Instant): Job {
    job.(status := RUNNING, token := Some(token), lockedAt := Some(now), attempts := job.attempts + 1)
  }

  /** The job row after `complete`, and after `fail`, by the holder of a token. */
  function Complete(job: Job, token: Token): Job {
    if job.token == Some(token) then job.(status := SUCCEEDED, token := None, lockedAt := None) else job
  }

  function Fail(c: Config, job: Job, token: Token, attempts: nat, now: Instant): Job {
    if job.token != Some(token) then job
    else if attempts >= c.maxAttempts then job.(status := FAILED, token := None, lockedAt := None)
    else job.(status := PENDING, token := None, lockedAt := None, availableAt := now + RetryDelay(c, attempts))
  }

  function ClaimAll(jobs: map<Id, Job>, ids: set<Id>, serial: nat, now: Instant): map<Id, Job> {
    map v | v in jobs :: if v in ids then Lease(jobs[v], Token(serial, v), now) else jobs[v]
  }

  function CompleteAll(jobs: map<Id, Job>, serial: nat, ids: set<Id>): map<Id, Job> {
    map v | v in jobs :: if v in ids then Complete(jobs[v], Token(serial, v)) else jobs[v]
  }

  function FailAll(c: Config, jobs: map<Id, Job>, serial: nat, claimed: map<Id, Claimed>, now: Instant): map<Id, Job> {
    map v | v in jobs :: if v in claimed then Fail(c, jobs[v], Token(serial, v), claimed[v].attempts, now) else jobs[v]
  }

  /** The vector a worker stores for a job: the cached one, else the fresh one. */
  function VectorFor(b: Batch, org: Id, digest: Digest): Option<Vector> {
    if CacheKey(org, digest) in b.cache then Some(b.cache[CacheKey(org, digest)].vector)
    else if digest in b.computed then Some(b.computed[digest])
    else None
  }

  predicate CanSave(s: State, b: Batch, v: Id) {
    v in b.jobs && v in s.versions && VectorFor(b, b.jobs[v].org, DocumentHash(s.versions[v].text)).Some?
  }

  function Saved(s: State, b: Batch, v: Id): Embedding
    requires CanSave(s, b, v)
  {
    var d := DocumentHash(s.versions[v].text);
    Embedding(b.jobs[v].org, VectorFor(b, b.jobs[v].org, d).value, d)
  }

  function SaveAll(s: State, b: Batch, ids: set<Id>): map<Id, Embedding> {
    s.embeddings + map v | v in ids && v !in s.embeddings && CanSave(s, b, v) :: Saved(s, b, v)
  }

  predicate Uncached(s: State, b: Batch, v: Id) {
    v in b.jobs && v in s.versions && CacheKey(b.jobs[v].org, DocumentHash(s.versions[v].text)) !in b.cache
  }

  /** The texts of the batch that no stored vector covers. */
  function ToEmbed(s: State, b: Batch): set<string> {
    set v | v in b.jobs && Uncached(s, b, v) :: s.versions[v].text
  }

  /** The provider's vectors, by content hash. */
  function Vectors(c: Config, texts: set<string>): (r: map<Digest, Vector>)
    ensures forall t :: t in texts ==> DocumentHash(t) in r
    ensures forall d :: d in r ==> d.preimage in texts && r[d] == c.provider(d.preimage)
  {
    map t | t in texts :: DocumentHash(t) := c.provider(t)
  }

  // ----- steps -----

  predicate Stage(s: State, w: nat, phase: Phase) {
    w in s.workers && s.workers[w].phase == phase
  }

  predicate Allowed(c: Config, s: State, step: Step) {
    match step
    case AddVersion(id, _) => id !in s.versions
    case Enqueue(ids, _) => ids <= s.versions.Keys && ids !! s.jobs.Keys && ids !! s.embeddings.Keys
    case Claim(w, ids, now) =>
      w !in s.workers && ids <= s.jobs.Keys && forall v :: v in ids ==> Due(s.jobs[v], c.lease, now)
    case ReadCache(w, picks) =>
      && Stage(s, w, Leased)
      && (forall k :: k in picks ==>
            picks[k] in s.embeddings && s.embeddings[picks[k]].org == k.org
              && s.embeddings[picks[k]].digest == k.digest)
    case CallProvider(w) => Stage(s, w, CacheRead)
    case Write(w) => Stage(s, w, Embedded)
    case RecordFailure(w, _) => Stage(s, w, CacheRead)
    case Crash(w) => w in s.workers
  }

  function Next(c: Config, s: State, step: Step): State {
    if !Allowed(c, s, step) then s else
    match step
    case AddVersion(id, version) => s.(versions := s.versions[id := version])
    case Enqueue(ids, now) =>
      s.(jobs := s.jobs + (map v | v in ids :: Job(s.versions[v].org, PENDING, None, None, 0, now)))
    case Claim(w, ids, now) =>
      var claimed := map v | v in ids :: Claimed(s.jobs[v].org, s.jobs[v].attempts + 1);
      var b := Batch(s.serial, claimed, Leased, map[], map[]);
      s.(jobs := ClaimAll(s.jobs, ids, s.serial, now), serial := s.serial + 1, workers := s.workers[w := b])
    case ReadCache(w, picks) =>
      var b := s.workers[w];
      var cache := map k | k in picks :: Cached(picks[k], s.embeddings[picks[k]].vector);
      s.(workers := s.workers[w := b.(phase := CacheRead, cache := cache)])
    case CallProvider(w) =>
      var b := s.workers[w];
      s.(workers := s.workers[w := b.(phase := Embedded, computed := Vectors(c, ToEmbed(s, b)))])
    case Write(w) =>
      var b := s.workers[w];
      s.(jobs := CompleteAll(s.jobs, b.serial, b.jobs.Keys),
         embeddings := SaveAll(s, b, b.jobs.Keys),
         workers := s.workers - {w})
    case RecordFailure(w, now) =>
      s.(jobs := FailAll(c, s.jobs, s.workers[w].serial, s.workers[w].jobs, now), workers := s.workers - {w})
    case Crash(w) => s.(workers := s.workers - {w})
  }

  ghost function Run(c: Config, s: State, steps: seq<Step>): State {
    if steps == [] then s else Next(c, Run(c, s, steps[..|steps| - 1]), steps[|steps| - 1])
  }

  // ----- what every reachable state satisfies -----

  ghost predicate JobOk(c: Config, s: State, v: Id)
    requires v in s.jobs
  {
    var j := s.jobs[v];
    && v in s.versions && j.org == s.versions[v].org
    && (j.status == RUNNING <==> j.token.Some?)
    && (j.token.Some? ==> j.token.value.job == v && j.token.value.serial < s.serial)
    && (j.status == SUCCEEDED ==> v in s.embeddings)
    && (j.status == FAILED ==> j.attempts >= c.maxAttempts)
  }

  /** A stored vector is the provider's vector for the version's own text. */
  ghost predicate EmbeddingOk(c: Config, s: State, v: Id)
    requires v in s.embeddings
  {
    && v in s.versions
    && s.embeddings[v] == Embedding(s.versions[v].org, c.provider(s.versions[v].text), DocumentHash(s.versions[v].text))
  }

  /** A claimed job: while its token is current, the worker's view of the attempts is, too. */
  ghost predicate HeldOk(s: State, b: Batch, v: Id)
    requires v in b.jobs
  {
    && v in s.jobs && b.jobs[v].org == s.jobs[v].org
    && (s.jobs[v].token == Some(Token(b.serial, v)) ==> s.jobs[v].attempts == b.jobs[v].attempts)
  }

  /** A reused vector was stored for a version of the same tenant with the same text. */
  ghost predicate CacheOk(c: Config, s: State, b: Batch, k: CacheKey)
    requires k in b.cache
  {
    var u := b.cache[k].source;
    && u in s.embeddings && u in s.versions && s.versions[u].org == k.org
    && DocumentHash(s.versions[u].text) == k.digest && b.cache[k].vector == c.provider(s.versions[u].text)
  }

  ghost predicate FreshOk(c: Config, b: Batch) {
    forall d :: d in b.computed ==> b.computed[d] == c.provider(d.preimage)
  }

  ghost predicate BatchOk(c: Config, s: State, b: Batch) {
    && b.serial < s.serial
    && (forall v :: v in b.jobs ==> HeldOk(s, b, v))
    && (forall k :: k in b.cache ==> CacheOk(c, s, b, k))
    && FreshOk(c, b)
    && (b.phase == Embedded ==> forall v :: v in b.jobs ==> CanSave(s, b, v))
  }

  ghost predicate Inv(c: Config, s: State) {
    && (forall v :: v in s.jobs ==> JobOk(c, s, v))
    && (forall v :: v in s.embeddings ==> EmbeddingOk(c, s, v))
    && (forall w :: w in s.workers ==> BatchOk(c, s, s.workers[w]))
    && (forall w, x :: w in s.workers && x in s.workers && w != x ==> s.workers[w].serial != s.workers[x].serial)
  }

  lemma VectorForRight(c: Config, s: State, b: Batch, v: Id)
    requires v in b.jobs && BatchOk(c, s, b) && CanSave(s, b, v)
    ensures VectorFor(b, b.jobs[v].org, DocumentHash(s.versions[v].text)).value == c.provider(s.versions[v].text)
  {
  }

  // ----- each part of the invariant is kept by each step -----

  lemma StepKeepsJobs(c: Config, s: State, step: Step, v: Id)
    requires Inv(c, s) && v in Next(c, s, step).jobs
    ensures JobOk(c, Next(c, s, step), v)
  {
    if v in s.jobs {
      assert JobOk(c, s, v);
    }
    if Allowed(c, s, step) && (step.Write? || step.RecordFailure?) {
      var b := s.workers[step.worker];
      assert BatchOk(c, s, b);
      if v in b.jobs {
        assert HeldOk(s, b, v);
      }
    }
  }

  lemma StepKeepsEmbeddings(c: Config, s: State, step: Step, v: Id)
    requires Inv(c, s) && v in Next(c, s, step).embeddings
    ensures EmbeddingOk(c, Next(c, s, step), v)
  {
    if v in s.embeddings {
      assert EmbeddingOk(c, s, v);
    } else {
      var b := s.workers[step.worker];
      assert BatchOk(c, s, b) && HeldOk(s, b, v) && JobOk(c, s, v);
      VectorForRight(c, s, b, v);
    }
  }

  /** What was true of a batch's jobs, sources and texts stays true when the state grows like this. */
  ghost predicate Extends(s: State, t: State, b: Batch) {
    && s.serial <= t.serial
    && (forall v :: v in s.versions ==> v in t.versions && t.versions[v] == s.versions[v])
    && s.embeddings.Keys <= t.embeddings.Keys
    && (forall v :: v in b.jobs && v in s.jobs ==>
          v in t.jobs && t.jobs[v].org == s.jobs[v].org
          && (t.jobs[v].token == Some(Token(b.serial, v)) ==> t.jobs[v] == s.jobs[v]))
  }

  lemma ExtendsKeepsBatch(c: Config, s: State, t: State, b: Batch)
    requires BatchOk(c, s, b) && Extends(s, t, b)
    ensures BatchOk(c, t, b)
  {
  }

  lemma StepExtends(c: Config, s: State, step: Step, b: Batch)
    requires b.serial < s.serial
    ensures Extends(s, Next(c, s, step), b)
  {
  }

  lemma ClaimedBatchOk(c: Config, s: State, step: Step)
    requires Inv(c, s) && step.Claim? && Allowed(c, s, step)
    ensures BatchOk(c, Next(c, s, step), Next(c, s, step).workers[step.worker])
  {
  }

  lemma CachedBatchOk(c: Config, s: State, step: Step)
    requires Inv(c, s) && step.ReadCache? && Allowed(c, s, step)
    ensures BatchOk(c, Next(c, s, step), Next(c, s, step).workers[step.worker])
  {
    var t := Next(c, s, step);
    var b, d := s.workers[step.worker], t.workers[step.worker];
    assert BatchOk(c, s, b);
    forall v | v in d.jobs ensures HeldOk(t, d, v) {
      assert HeldOk(s, b, v);
    }
    forall k | k in d.cache ensures CacheOk(c, t, d, k) {
      assert EmbeddingOk(c, s, step.picks[k]);
    }
  }

  lemma EmbeddedBatchOk(c: Config, s: State, step: Step)
    requires Inv(c, s) && step.CallProvider? && Allowed(c, s, step)
    ensures BatchOk(c, Next(c, s, step), Next(c, s, step).workers[step.worker])
  {
    var t := Next(c, s, step);
    var b, d := s.workers[step.worker], t.workers[step.worker];
    assert BatchOk(c, s, b);
    forall v | v in d.jobs ensures HeldOk(t, d, v) && CanSave(t, d, v) {
      assert HeldOk(s, b, v) && JobOk(c, s, v);
      var text := s.versions[v].text;
      assert CacheKey(b.jobs[v].org, DocumentHash(text)) !in b.cache ==> text in ToEmbed(s, b);
    }
    forall k | k in d.cache ensures CacheOk(c, t, d, k) {
      assert CacheOk(c, s, b, k);
    }
  }

  lemma StepKeepsBatch(c: Config, s: State, step: Step, w: nat)
    requires Inv(c, s) && w in Next(c, s, step).workers
    ensures BatchOk(c, Next(c, s, step), Next(c, s, step).workers[w])
  {
    if Allowed(c, s, step) && step.Claim? && w == step.worker {
      ClaimedBatchOk(c, s, step);
    } else if Allowed(c, s, step) && step.ReadCache? && w == step.worker {
      CachedBatchOk(c, s, step);
    } else if Allowed(c, s, step) && step.CallProvider? && w == step.worker {
      EmbeddedBatchOk(c, s, step);
    } else {
      assert Next(c, s, step).workers[w] == s.workers[w];
      StepExtends(c, s, step, s.workers[w]);
      ExtendsKeepsBatch(c, s, Next(c, s, step), s.workers[w]);
    }
  }

  lemma StepKeepsSerials(c: Config, s: State, step: Step, w: nat, x: nat)
    requires Inv(c, s) && w in Next(c, s, step).workers && x in Next(c, s, step).workers && w != x
    ensures Next(c, s, step).workers[w].serial != Next(c, s, step).workers[x].serial
  {
  }

  lemma StepKeepsInv(c: Config, s: State, step: Step)
    requires Inv(c, s)
    ensures Inv(c, Next(c, s, step))
  {
    var t := Next(c, s, step);
    forall v | v in t.jobs ensures JobOk(c, t, v) {
      StepKeepsJobs(c, s, step, v);
    }
    forall v | v in t.embeddings ensures EmbeddingOk(c, t, v) {
      StepKeepsEmbeddings(c, s, step, v);
    }
    forall w | w in t.workers ensures BatchOk(c, t, t.workers[w]) {
      StepKeepsBatch(c, s, step, w);
    }
    forall w, x | w in t.workers && x in t.workers && w != x ensures t.workers[w].serial != t.workers[x].serial {
      StepKeepsSerials(c, s, step, w, x);
    }
  }

  lemma {:induction false} RunKeepsInv(c: Config, s: State, steps: seq<Step>)
    requires Inv(c, s)
    ensures Inv(c, Run(c, s, steps))
  {
    if steps != [] {
      RunKeepsInv(c, s, steps[..|steps| - 1]);
      StepKeepsInv(c, Run(c, s, steps[..|steps| - 1]), steps[|steps| - 1]);
    }
  }

  // ----- the queue's guarantees over whole runs -----

  /** RUNNING iff leased; SUCCEEDED has an embedding; FAILED has used up its attempts. */
  lemma StatusesMeanWhatTheySay(c: Config, steps: seq<Step>, v: Id)
    requires v in Run(c, START, steps).jobs
    ensures var s := Run(c, START, steps);
            && (s.jobs[v].status == RUNNING <==> s.jobs[v].token.Some?)
            && (s.jobs[v].status == SUCCEEDED ==> v in s.embeddings)
            && (s.jobs[v].status == FAILED ==> s.jobs[v].attempts >= c.maxAttempts)
  {
    RunKeepsInv(c, START, steps);
    assert JobOk(c, Run(c, START, steps), v);
  }

  /** Every stored vector, fresh, shared or reused, is the provider's vector for the version's own text. */
  lemma StoredVectorsAreRight(c: Config, steps: seq<Step>, v: Id)
    requires v in Run(c, START, steps).embeddings
    ensures var s := Run(c, START, steps);
            v in s.versions && s.embeddings[v].org == s.versions[v].org
              && s.embeddings[v].vector == c.provider(s.versions[v].text)
  {
    RunKeepsInv(c, START, steps);
    assert EmbeddingOk(c, Run(c, START, steps), v);
  }

  /** A vector taken from storage belongs to a version of the same tenant with the same text. */
  lemma ReuseStaysInTenant(c: Config, steps: seq<Step>, w: nat, k: CacheKey)
    requires w in Run(c, START, steps).workers && k in Run(c, START, steps).workers[w].cache
    ensures var s := Run(c, START, steps);
            var u := s.workers[w].cache[k].source;
            u in s.embeddings && u in s.versions && s.versions[u].org == k.org
              && DocumentHash(s.versions[u].text) == k.digest
  {
    RunKeepsInv(c, START, steps);
    assert BatchOk(c, Run(c, START, steps), Run(c, START, steps).workers[w]);
    assert CacheOk(c, Run(c, START, steps), Run(c, START, steps).workers[w], k);
  }

  /** A worker about to write has a vector for every one of its jobs: `fresh[digest]` never misses. */
  lemma LookupAlwaysSucceeds(c: Config, steps: seq<Step>, w: nat, v: Id)
    requires Stage(Run(c, START, steps), w, Embedded) && v in Run(c, START, steps).workers[w].jobs
    ensures CanSave(Run(c, START, steps), Run(c, START, steps).workers[w], v)
    ensures v in Next(c, Run(c, START, steps), Write(w)).embeddings
  {
    RunKeepsInv(c, START, steps);
    assert BatchOk(c, Run(c, START, steps), Run(c, START, steps).workers[w]);
  }

  ghost predicate Current(s: State, token: Token) {
    token.job in s.jobs && s.jobs[token.job].token == Some(token)
  }

  lemma StaleStep(c: Config, s: State, step: Step, token: Token)
    requires token.serial < s.serial && !Current(s, token)
    ensures !Current(Next(c, s, step), token) && token.serial < Next(c, s, step).serial
  {
  }

  /** A replaced or released token never becomes current again. */
  lemma {:induction false} StaleStaysStale(c: Config, s: State, steps: seq<Step>, token: Token)
    requires token.serial < s.serial && !Current(s, token)
    ensures !Current(Run(c, s, steps), token) && token.serial < Run(c, s, steps).serial
  {
    if steps != [] {
      StaleStaysStale(c, s, steps[..|steps| - 1], token);
      StaleStep(c, Run(c, s, steps[..|steps| - 1]), steps[|steps| - 1], token);
    }
  }

  /** Once a worker's token for a job was replaced, nothing it does later changes the job's row. */
  lemma StaleWorkerChangesNothing(c: Config, s: State, steps: seq<Step>, w: nat, v: Id, step: Step)
    requires var t := Run(c, s, steps);
             w in t.workers && v in t.jobs && t.workers[w].serial < s.serial
               && !Current(s, Token(t.workers[w].serial, v))
    requires step == Write(w) || (step.RecordFailure? && step.worker == w)
    ensures Next(c, Run(c, s, steps), step).jobs[v] == Run(c, s, steps).jobs[v]
  {
    StaleStaysStale(c, s, steps, Token(Run(c, s, steps).workers[w].serial, v));
  }

  predicate Terminal(status: Status) {
    status == SUCCEEDED || status == FAILED
  }

  lemma TerminalStep(c: Config, s: State, step: Step, v: Id)
    requires Inv(c, s) && v in s.jobs && Terminal(s.jobs[v].status)
    ensures v in Next(c, s, step).jobs && Next(c, s, step).jobs[v] == s.jobs[v]
  {
  }

  /** SUCCEEDED and FAILED rows never change again. */
  lemma {:induction false} TerminalForever(c: Config, s: State, steps: seq<Step>, v: Id)
    requires Inv(c, s) && v in s.jobs && Terminal(s.jobs[v].status)
    ensures v in Run(c, s, steps).jobs && Run(c, s, steps).jobs[v] == s.jobs[v]
  {
    if steps != [] {
      TerminalForever(c, s, steps[..|steps| - 1], v);
      RunKeepsInv(c, s, steps[..|steps| - 1]);
      TerminalStep(c, Run(c, s, steps[..|steps| - 1]), steps[|steps| - 1], v);
    }
  }

  /** The step in which `complete` returns True for the job. */
  ghost predicate Completes(c: Config, s: State, step: Step, v: Id) {
    step.Write? && Allowed(c, s, step) && v in s.workers[step.worker].jobs
      && Current(s, Token(s.workers[step.worker].serial, v))
  }

  ghost function Completions(c: Config, steps: seq<Step>, v: Id): nat {
    if steps == [] then 0
    else
      var init := steps[..|steps| - 1];
      Completions(c, init, v) + if Completes(c, Run(c, START, init), steps[|steps| - 1], v) then 1 else 0
  }

  lemma CompletionStep(c: Config, s: State, step: Step, v: Id)
    requires Inv(c, s)
    ensures var t := Next(c, s, step);
            v in t.jobs && t.jobs[v].status == SUCCEEDED <==>
              (v in s.jobs && s.jobs[v].status == SUCCEEDED) || Completes(c, s, step, v)
    ensures Completes(c, s, step, v) ==> v in s.jobs && s.jobs[v].status == RUNNING
  {
    if v in s.jobs {
      assert JobOk(c, s, v);
    }
  }

  /** The step leases the job. */
  ghost predicate Claims(c: Config, s: State, step: Step, v: Id) {
    step.Claim? && Allowed(c, s, step) && v in step.ids
  }

  ghost function ClaimCount(c: Config, steps: seq<Step>, v: Id): nat {
    if steps == [] then 0
    else
      var init := steps[..|steps| - 1];
      ClaimCount(c, init, v) + if Claims(c, Run(c, START, init), steps[|steps| - 1], v) then 1 else 0
  }

  lemma AttemptsStep(c: Config, s: State, step: Step, v: Id)
    ensures v in Next(c, s, step).jobs ==>
              Next(c, s, step).jobs[v].attempts ==
              (if v in s.jobs then s.jobs[v].attempts else 0) + if Claims(c, s, step, v) then 1 else 0
    ensures v in s.jobs ==> v in Next(c, s, step).jobs
    ensures v !in s.jobs ==> !Claims(c, s, step, v)
  {
  }

  /** Over every run, a job's attempts are how often it was leased. */
  lemma {:induction false} AttemptsCountClaims(c: Config, steps: seq<Step>, v: Id)
    ensures var s := Run(c, START, steps);
            ClaimCount(c, steps, v) == if v in s.jobs then s.jobs[v].attempts else 0
  {
    if steps != [] {
      var init := steps[..|steps| - 1];
      AttemptsCountClaims(c, init, v);
      AttemptsStep(c, Run(c, START, init), steps[|steps| - 1], v);
    }
  }

  /** `complete` returns True exactly once for a SUCCEEDED job and never for another. */
  lemma {:induction false} CompletedExactlyOnce(c: Config, steps: seq<Step>, v: Id)
    ensures var s := Run(c, START, steps);
            Completions(c, steps, v) == if v in s.jobs && s.jobs[v].status == SUCCEEDED then 1 else 0
  {
    if steps != [] {
      var init := steps[..|steps| - 1];
      CompletedExactlyOnce(c, init, v);
      RunKeepsInv(c, START, init);
      CompletionStep(c, Run(c, START, init), steps[|steps| - 1], v);
    }
  }

  // ----- the worker's loops -----

  ghost function Concat(calls: seq<seq<string>>): seq<string> {
    if calls == [] then [] else Concat(calls[..|calls| - 1]) + calls[|calls| - 1]
  }

  /** The batch's texts that are not cached, each once, in some order. */
  method CollectTexts(s: State, b: Batch) returns (items: seq<string>)
    ensures Distinct(items) && forall t :: t in items <==> t in ToEmbed(s, b)
  {
    items := [];
    var todo := b.jobs.Keys;
    while todo != {}
      invariant todo <= b.jobs.Keys && Distinct(items)
      invariant forall t :: t in items ==> t in ToEmbed(s, b)
      invariant forall v :: v in b.jobs && v !in todo && Uncached(s, b, v) ==> s.versions[v].text in items
      decreases todo
    {
      var v :| v in todo;
      todo := todo - {v};
      if Uncached(s, b, v) && s.versions[v].text !in items {
        items := items + [s.versions[v].text];
      }
    }
  }

  /** One provider call: `zip(digests, vectors, strict=True)` merged into the dictionary. */
  method Merge(c: Config, computed: map<Digest, Vector>, chunk: seq<string>) returns (r: map<Digest, Vector>)
    ensures forall d :: d in r <==> d in computed || d.preimage in chunk
    ensures forall d :: d in r ==> r[d] == if d.preimage in chunk then c.provider(d.preimage) else computed[d]
  {
    r := computed;
    for i := 0 to |chunk|
      invariant forall d :: d in r <==> d in computed || d.preimage in chunk[..i]
      invariant forall d :: d in r ==> r[d] == if d.preimage in chunk[..i] then c.provider(d.preimage) else computed[d]
    {
      assert chunk[..i + 1] == chunk[..i] + [chunk[i]];
      r := r[DocumentHash(chunk[i]) := c.provider(chunk[i])];
    }
    assert chunk[..|chunk|] == chunk;
  }

  /**
   Send the texts in chunks. When no call fails, every text was sent once, in order, in non-empty
   chunks no larger than the provider takes; a failing call ends the loop.
   */
  method SendChunks(c: Config, items: seq<string>, maxBatchSize: nat, failing: nat -> bool)
    returns (ok: bool, calls: seq<seq<string>>, computed: map<Digest, Vector>)
    requires maxBatchSize > 0
    ensures forall i :: 0 <= i < |calls| ==> 0 < |calls[i]| <= maxBatchSize
    ensures Concat(calls) <= items && (ok ==> Concat(calls) == items)
    ensures ok <==> forall i :: 0 <= i < |calls| ==> !failing(i)
    ensures ok ==> forall d :: d in computed <==> d.preimage in items
    ensures ok ==> forall d :: d in computed ==> computed[d] == c.provider(d.preimage)
  {
    calls, computed := [], map[];
    var i := 0;
    while i < |items|
      invariant 0 <= i <= |items|
      invariant Concat(calls) == items[..i]
      invariant forall j :: 0 <= j < |calls| ==> 0 < |calls[j]| <= maxBatchSize && !failing(j)
      invariant forall d :: d in computed <==> d.preimage in items[..i]
      invariant forall d :: d in computed ==> computed[d] == c.provider(d.preimage)
    {
      var end := if i + maxBatchSize < |items| then i + maxBatchSize else |items|;
      var chunk := items[i..end];
      assert items[..end] == items[..i] + chunk;
      assert (calls + [chunk])[..|calls|] == calls;
      calls := calls + [chunk];
      if failing(|calls| - 1) {
        return false, calls, computed;
      }
      computed := Merge(c, computed, chunk);
      i := end;
    }
    assert items[..i] == items;
    ok := true;
  }

  lemma VectorsAreComputed(c: Config, texts: set<string>, items: seq<string>, computed: map<Digest, Vector>)
    requires forall t :: t in items <==> t in texts
    requires forall d :: d in computed <==> d.preimage in items
    requires forall d :: d in computed ==> computed[d] == c.provider(d.preimage)
    ensures computed == Vectors(c, texts)
  {
  }

  /** A stored embedding that a job may reuse: same tenant, same text. */
  predicate Reusable(s: State, b: Batch, v: Id, u: Id) {
    && v in b.jobs && v in s.versions && u in s.embeddings
    && s.embeddings[u].org == b.jobs[v].org && s.embeddings[u].digest == DocumentHash(s.versions[v].text)
  }

  ghost predicate NothingToReuse(s: State, b: Batch, v: Id) {
    v in b.jobs && v in s.versions && !exists u :: Reusable(s, b, v, u)
  }

  /** The jobs whose tenant already has a vector for their text. */
  ghost function CanReuse(s: State, b: Batch): set<Id> {
    set v | v in b.jobs && exists u :: Reusable(s, b, v, u)
  }

  /** The text of some job that has nothing to reuse. */
  ghost predicate MustSend(s: State, b: Batch, text: string) {
    exists v :: NothingToReuse(s, b, v) && s.versions[v].text == text
  }

  lemma PicksAreReusable(s: State, b: Batch, picks: map<CacheKey, Id>, v: Id)
    requires forall k :: k in picks ==>
               picks[k] in s.embeddings && s.embeddings[picks[k]].org == k.org
                 && s.embeddings[picks[k]].digest == k.digest
    requires forall x, u :: Reusable(s, b, x, u) ==> CacheKey(s.embeddings[u].org, s.embeddings[u].digest) in picks
    ensures NothingToReuse(s, b, v) <==>
            v in b.jobs && v in s.versions && CacheKey(b.jobs[v].org, DocumentHash(s.versions[v].text)) !in picks
  {
    if v in b.jobs && v in s.versions {
      var k := CacheKey(b.jobs[v].org, DocumentHash(s.versions[v].text));
      if k in picks {
        assert Reusable(s, b, v, picks[k]);
      }
    }
  }

  /** `cached_vectors`, tenant by tenant: a stored vector for a job's text, whenever the tenant has one. */
  method ReadCached(s: State, b: Batch) returns (picks: map<CacheKey, Id>)
    ensures forall k :: k in picks ==>
              picks[k] in s.embeddings && s.embeddings[picks[k]].org == k.org
                && s.embeddings[picks[k]].digest == k.digest
    ensures forall v, u :: Reusable(s, b, v, u) ==> CacheKey(s.embeddings[u].org, s.embeddings[u].digest) in picks
  {
    picks := map[];
    var todo := b.jobs.Keys;
    while todo != {}
      invariant todo <= b.jobs.Keys
      invariant forall k :: k in picks ==>
                  picks[k] in s.embeddings && s.embeddings[picks[k]].org == k.org
                    && s.embeddings[picks[k]].digest == k.digest
      invariant forall v, u :: v !in todo && Reusable(s, b, v, u) ==>
                CacheKey(s.embeddings[u].org, s.embeddings[u].digest) in picks
      decreases todo
    {
      var v :| v in todo;
      todo := todo - {v};
      if exists u :: u in s.embeddings && Reusable(s, b, v, u) {
        var u :| u in s.embeddings && Reusable(s, b, v, u);
        picks := picks[CacheKey(s.embeddings[u].org, s.embeddings[u].digest) := u];
      }
    }
  }

  /** The jobs among these whose lease the batch still holds. */
  ghost function Held(jobs: map<Id, Job>, serial: nat, ids: set<Id>): set<Id> {
    set v | v in ids && v in jobs && jobs[v].token == Some(Token(serial, v))
  }

  /** The jobs among these whose vector came from storage. */
  ghost function Reused(s: State, b: Batch, ids: set<Id>): set<Id> {
    set v | v in ids && v in b.jobs && !Uncached(s, b, v)
  }

  lemma NothingWritten(s: State, b: Batch)
    ensures CompleteAll(s.jobs, b.serial, {}) == s.jobs && SaveAll(s, b, {}) == s.embeddings
            && Held(s.jobs, b.serial, {}) == {} && Reused(s, b, {}) == {}
  {
  }

  lemma CompleteOneMore(jobs: map<Id, Job>, serial: nat, ids: set<Id>, v: Id)
    requires v in jobs && v !in ids
    ensures CompleteAll(jobs, serial, ids + {v}) ==
            CompleteAll(jobs, serial, ids)[v := Complete(jobs[v], Token(serial, v))]
    ensures CompleteAll(jobs, serial, ids)[v] == jobs[v]
  {
  }

  lemma SaveOneMore(s: State, b: Batch, ids: set<Id>, v: Id)
    requires CanSave(s, b, v) && v !in ids
    ensures v in SaveAll(s, b, ids) <==> v in s.embeddings
    ensures SaveAll(s, b, ids + {v}) == if v in s.embeddings then SaveAll(s, b, ids)
            else SaveAll(s, b, ids)[v := Saved(s, b, v)]
  {
  }

  lemma HoldOneMore(jobs: map<Id, Job>, serial: nat, ids: set<Id>, v: Id)
    requires v in jobs && v !in ids
    ensures |Held(jobs, serial, ids + {v})| ==
            |Held(jobs, serial, ids)| + if jobs[v].token == Some(Token(serial, v)) then 1 else 0
  {
    assert Held(jobs, serial, ids + {v}) ==
           Held(jobs, serial, ids) + if jobs[v].token == Some(Token(serial, v)) then {v} else {};
  }

  lemma ReuseOneMore(s: State, b: Batch, ids: set<Id>, v: Id)
    requires v in b.jobs && v !in ids
    ensures |Reused(s, b, ids + {v})| == |Reused(s, b, ids)| + if Uncached(s, b, v) then 0 else 1
  {
    assert Reused(s, b, ids + {v}) == Reused(s, b, ids) + if Uncached(s, b, v) then {} else {v};
  }

  /** What the write loop has done when these jobs are still to do. */
  ghost predicate Written(
    s: State, b: Batch, todo: set<Id>, jobs: map<Id, Job>, embeddings: map<Id, Embedding>,
    succeeded: nat, lost: nat, reused: nat)
  {
    var done := b.jobs.Keys - todo;
    && todo <= b.jobs.Keys
    && jobs == CompleteAll(s.jobs, b.serial, done) && embeddings == SaveAll(s, b, done)
    && succeeded == |Held(s.jobs, b.serial, done)| && succeeded + lost == |done|
    && reused == |Reused(s, b, done)|
  }

  lemma NothingYet(s: State, b: Batch)
    ensures Written(s, b, b.jobs.Keys, s.jobs, s.embeddings, 0, 0, 0)
  {
    NothingWritten(s, b);
    assert b.jobs.Keys - b.jobs.Keys == {};
  }

  lemma AllWritten(
    s: State, b: Batch, jobs: map<Id, Job>, embeddings: map<Id, Embedding>, succeeded: nat, lost: nat, reused: nat)
    requires Written(s, b, {}, jobs, embeddings, succeeded, lost, reused)
    ensures jobs == CompleteAll(s.jobs, b.serial, b.jobs.Keys) && embeddings == SaveAll(s, b, b.jobs.Keys)
    ensures succeeded == |Held(s.jobs, b.serial, b.jobs.Keys)| && succeeded + lost == |b.jobs|
    ensures reused == |Reused(s, b, b.jobs.Keys)|
  {
    assert b.jobs.Keys - {} == b.jobs.Keys;
  }

  /** One turn of the write loop: save where absent, complete where the lease still holds. */
  method WriteJob(
    s: State, b: Batch, v: Id, ghost todo: set<Id>, jobs: map<Id, Job>, embeddings: map<Id, Embedding>,
    succeeded: nat, lost: nat, reused: nat)
    returns (jobs': map<Id, Job>, embeddings': map<Id, Embedding>, succeeded': nat, lost': nat, reused': nat)
    requires CanSave(s, b, v) && v in s.jobs && v in todo
    requires Written(s, b, todo, jobs, embeddings, succeeded, lost, reused)
    ensures Written(s, b, todo - {v}, jobs', embeddings', succeeded', lost', reused')
  {
    ghost var done := b.jobs.Keys - todo;
    assert b.jobs.Keys - (todo - {v}) == done + {v};
    HoldOneMore(s.jobs, b.serial, done, v);
    ReuseOneMore(s, b, done, v);
    CompleteOneMore(s.jobs, b.serial, done, v);
    SaveOneMore(s, b, done, v);
    var cached := CacheKey(b.jobs[v].org, DocumentHash(s.versions[v].text)) in b.cache;
    var held := jobs[v].token == Some(Token(b.serial, v));
    embeddings' := if v in embeddings then embeddings else embeddings[v := Saved(s, b, v)];
    jobs' := jobs[v := Complete(jobs[v], Token(b.serial, v))];
    succeeded' := succeeded + if held then 1 else 0;
    lost' := lost + if held then 0 else 1;
    reused' := reused + if cached then 1 else 0;
  }

  /** A row whose lease was lost is untouched; another is released as SUCCEEDED, with nothing else changed. */
  ghost predicate CompletedRow(before: Job, after: Job, token: Token) {
    if before.token != Some(token) then after == before
    else
      && after.status == SUCCEEDED && after.token == None && after.lockedAt == None
      && after.org == before.org && after.attempts == before.attempts && after.availableAt == before.availableAt
  }

  /** What completing a batch does to each of its rows. */
  lemma CompletedRows(s: State, b: Batch)
    requires forall v :: v in b.jobs ==> v in s.jobs
    ensures forall v :: v in b.jobs ==>
              CompletedRow(s.jobs[v], CompleteAll(s.jobs, b.serial, b.jobs.Keys)[v], Token(b.serial, v))
  {
  }

  /** The write loop over the whole batch, with its counts. */
  method WriteJobs(s: State, b: Batch)
    returns (jobs: map<Id, Job>, embeddings: map<Id, Embedding>, succeeded: nat, lost: nat, reused: nat)
    requires forall v :: v in b.jobs ==> CanSave(s, b, v) && v in s.jobs
    ensures jobs == CompleteAll(s.jobs, b.serial, b.jobs.Keys) && embeddings == SaveAll(s, b, b.jobs.Keys)
    ensures succeeded == |Held(s.jobs, b.serial, b.jobs.Keys)| && succeeded + lost == |b.jobs|
    ensures reused == |Reused(s, b, b.jobs.Keys)|
  {
    jobs, embeddings, succeeded, lost, reused := s.jobs, s.embeddings, 0, 0, 0;
    var todo := b.jobs.Keys;
    NothingYet(s, b);
    while todo != {}
      invariant todo <= b.jobs.Keys && Written(s, b, todo, jobs, embeddings, succeeded, lost, reused)
      decreases todo
    {
      var v :| v in todo;
      jobs, embeddings, succeeded, lost, reused :=
        WriteJob(s, b, v, todo, jobs, embeddings, succeeded, lost, reused);
      todo := todo - {v};
    }
    AllWritten(s, b, jobs, embeddings, succeeded, lost, reused);
  }

  ghost function Exhausted(c: Config, claimed: map<Id, Claimed>): set<Id> {
    set v | v in claimed && claimed[v].attempts >= c.maxAttempts
  }

  /** A row whose lease was lost is untouched; another is released, for good once its attempts are used up. */
  ghost predicate FailedRow(c: Config, before: Job, after: Job, token: Token, attempts: nat, now: Instant) {
    if before.token != Some(token) then after == before
    else
      && after.token == None && after.lockedAt == None
      && after.org == before.org && after.attempts == before.attempts
      && (attempts >= c.maxAttempts ==> after.status == FAILED && after.availableAt == before.availableAt)
      && (attempts < c.maxAttempts ==> after.status == PENDING && after.availableAt == now + RetryDelay(c, attempts))
  }

  lemma FailMeans(c: Config, job: Job, token: Token, attempts: nat, now: Instant)
    ensures FailedRow(c, job, Fail(c, job, token, attempts, now), token, attempts, now)
  {
  }

  /** One job's row after the failure loop has reached it. */
  function Failed(c: Config, s: State, b: Batch, v: Id, now: Instant): Job
    requires v in s.jobs && v in b.jobs
  {
    Fail(c, s.jobs[v], Token(b.serial, v), b.jobs[v].attempts, now)
  }

  /** The failure loop. `failed` counts the exhausted jobs, whether or not their lease still holds. */
  method FailJobs(c: Config, s: State, b: Batch, now: Instant) returns (jobs: map<Id, Job>, failed: nat)
    requires forall v :: v in b.jobs ==> v in s.jobs
    ensures jobs == FailAll(c, s.jobs, b.serial, b.jobs, now)
    ensures failed == |Exhausted(c, b.jobs)|
    ensures forall v :: v in b.jobs ==> FailedRow(c, s.jobs[v], jobs[v], Token(b.serial, v), b.jobs[v].attempts, now)
  {
    jobs, failed := s.jobs, 0;
    var todo := b.jobs.Keys;
    ghost var final: set<Id> := {};
    while todo != {}
      invariant todo <= b.jobs.Keys && jobs.Keys == s.jobs.Keys
      invariant forall v :: v in jobs && (v !in b.jobs || v in todo) ==> jobs[v] == s.jobs[v]
      invariant forall v :: v in b.jobs && v !in todo ==> jobs[v] == Failed(c, s, b, v, now)
      invariant final == set v | v in b.jobs && v !in todo && b.jobs[v].attempts >= c.maxAttempts
      invariant failed == |final|
      decreases todo
    {
      var v :| v in todo;
      todo := todo - {v};
      if b.jobs[v].attempts >= c.maxAttempts {
        final := final + {v};
        failed := failed + 1;
      }
      jobs := jobs[v := Fail(c, jobs[v], Token(b.serial, v), b.jobs[v].attempts, now)];
    }
    assert final == Exhausted(c, b.jobs);
    assert jobs == FailAll(c, s.jobs, b.serial, b.jobs, now);
    forall v | v in b.jobs
      ensures FailedRow(c, s.jobs[v], jobs[v], Token(b.serial, v), b.jobs[v].attempts, now)
    {
      FailMeans(c, s.jobs[v], Token(b.serial, v), b.jobs[v].attempts, now);
    }
  }

  /** A job is claimable: it is available, and it waits or its lease has run out. */
  lemma DueExactly(job: Job, lease: nat, now: Instant)
    ensures job.status == PENDING ==> (Due(job, lease, now) <==> job.availableAt <= now)
    ensures job.status == RUNNING && job.lockedAt.Some? ==>
              (Due(job, lease, now) <==> job.availableAt <= now && job.lockedAt.value + lease < now)
    ensures job.status == SUCCEEDED || job.status == FAILED ==> !Due(job, lease, now)
  {
  }

  /** Available, and pending or past its lease. */
  predicate Claimable(job: Job, lease: nat, now: Instant) {
    job.availableAt <= now
    && (job.status == PENDING || (job.status == RUNNING && job.lockedAt.Some? && job.lockedAt.value + lease < now))
  }

  /** Lease up to `batchSize` due jobs; fewer only when no other is due. */
  method ClaimJobs(c: Config, s: State, batchSize: nat, now: Instant) returns (ids: set<Id>, jobs: map<Id, Job>)
    ensures ids <= s.jobs.Keys && |ids| <= batchSize && forall v :: v in ids ==> Due(s.jobs[v], c.lease, now)
    ensures |ids| < batchSize ==> forall v :: v in s.jobs && Due(s.jobs[v], c.lease, now) ==> v in ids
    ensures jobs == ClaimAll(s.jobs, ids, s.serial, now)
    ensures forall v :: v in ids ==> Claimable(s.jobs[v], c.lease, now)
    ensures |ids| < batchSize ==> forall v :: v in s.jobs && Claimable(s.jobs[v], c.lease, now) ==> v in ids
    ensures jobs.Keys == s.jobs.Keys && forall v :: v in jobs && v !in ids ==> jobs[v] == s.jobs[v]
    ensures forall v :: v in ids ==>
              jobs[v] == s.jobs[v].(status := RUNNING, token := Some(Token(s.serial, v)), lockedAt := Some(now),
                                    attempts := s.jobs[v].attempts + 1)
  {
    ids, jobs := {}, s.jobs;
    while |ids| < batchSize && exists v :: v in s.jobs && v !in ids && Due(s.jobs[v], c.lease, now)
      invariant ids <= s.jobs.Keys && |ids| <= batchSize && jobs.Keys == s.jobs.Keys
      invariant forall v :: v in ids ==> Due(s.jobs[v], c.lease, now)
      invariant forall v :: v in jobs ==>
                jobs[v] == if v in ids then Lease(s.jobs[v], Token(s.serial, v), now) else s.jobs[v]
      decreases batchSize - |ids|
    {
      var v :| v in s.jobs && v !in ids && Due(s.jobs[v], c.lease, now);
      jobs := jobs[v := Lease(jobs[v], Token(s.serial, v), now)];
      ids := ids + {v};
    }
    assert jobs == ClaimAll(s.jobs, ids, s.serial, now);
  }

  predicate IsMissing(s: State, v: Id) {
    v in s.versions && v !in s.jobs && v !in s.embeddings
  }

  /** Up to `limit` versions with neither a job nor an embedding; fewer only when there are no more. */
  method FindMissing(s: State, limit: nat) returns (ids: set<Id>)
    ensures |ids| <= limit && forall v :: v in ids ==> IsMissing(s, v)
    ensures |ids| < limit ==> forall v :: IsMissing(s, v) ==> v in ids
  {
    ids := {};
    var rest := s.versions.Keys;
    while |ids| < limit && rest != {}
      invariant |ids| <= limit && rest <= s.versions.Keys
      invariant forall v :: v in ids ==> IsMissing(s, v) && v !in rest
      invariant forall v :: IsMissing(s, v) && v !in rest ==> v in ids
      decreases rest
    {
      var v :| v in rest;
      rest := rest - {v};
      if IsMissing(s, v) {
        ids := ids + {v};
      }
    }
  }

  /** After the cache was read, the reused jobs are those that could reuse a vector before. */
  lemma ReusedIsReusable(s: State, read: State, w: nat)
    requires w in s.workers && w in read.workers && read.workers[w].jobs == s.workers[w].jobs
    requires forall v :: v in s.workers[w].jobs ==> v in s.versions
    requires forall v :: Uncached(read, read.workers[w], v) <==> NothingToReuse(s, s.workers[w], v)
    ensures Reused(read, read.workers[w], read.workers[w].jobs.Keys) == CanReuse(s, s.workers[w])
  {
  }

  class EmbeddingWorker {
    const config: Config
    const worker: nat
    var state: State
    ghost var trace: seq<Step>

    ghost predicate Reached()
      reads this
    {
      state == Run(config, START, trace)
    }

    constructor (config: Config, worker: nat)
      ensures Reached() && state == START && this.config == config && this.worker == worker
    {
      this.config, this.worker := config, worker;
      state, trace := START, [];
    }

    method Do(step: Step)
      requires Reached()
      modifies this
      ensures Reached() && state == Next(config, old(state), step) && trace == old(trace) + [step]
    {
      assert (trace + [step])[..|trace|] == trace;
      state, trace := Next(config, state, step), trace + [step];
    }

    /** Lease a batch and commit; no batch when nothing is due. */
    method LeaseBatch(batchSize: nat, now: Instant) returns (claimed: nat)
      requires Reached() && worker !in state.workers
      modifies this
      ensures Reached() && claimed <= batchSize
      ensures claimed == 0 ==> state == old(state)
      ensures claimed > 0 ==> Stage(state, worker, Leased) && |state.workers[worker].jobs| == claimed
    {
      var ids, jobs := ClaimJobs(config, state, batchSize, now);
      if ids == {} {
        return 0;
      }
      Do(Claim(worker, ids, now));
      assert state.jobs == jobs && state.workers[worker].jobs.Keys == ids;
      claimed := |ids|;
    }

    /** `texts` and the cache lookups, in one read transaction. */
    method ReadBatch()
      requires Reached() && Stage(state, worker, Leased)
      modifies this
      ensures Reached() && Stage(state, worker, CacheRead)
      ensures state.workers.Keys == old(state).workers.Keys
              && state.workers[worker].jobs == old(state).workers[worker].jobs
      ensures state.versions == old(state).versions && state.embeddings == old(state).embeddings
      ensures state.jobs == old(state).jobs && state.workers[worker].serial == old(state).workers[worker].serial
      ensures forall v :: Uncached(state, state.workers[worker], v) <==>
              NothingToReuse(old(state), old(state).workers[worker], v)
    {
      var picks := ReadCached(state, state.workers[worker]);
      Do(ReadCache(worker, picks));
      forall v ensures Uncached(state, state.workers[worker], v) <==>
             NothingToReuse(old(state), old(state).workers[worker], v) {
        PicksAreReusable(old(state), old(state).workers[worker], picks, v);
      }
    }

    lemma BatchIsKnown()
      requires Reached() && worker in state.workers
      ensures forall v :: v in state.workers[worker].jobs ==> v in state.versions
    {
      RunKeepsInv(config, START, trace);
      assert BatchOk(config, state, state.workers[worker]);
      forall v | v in state.workers[worker].jobs ensures v in state.versions {
        assert HeldOk(state, state.workers[worker], v) && JobOk(config, state, v);
      }
    }

    lemma BatchHasRows()
      requires Reached() && worker in state.workers
      ensures forall v :: v in state.workers[worker].jobs ==> v in state.jobs
    {
      RunKeepsInv(config, START, trace);
      assert BatchOk(config, state, state.workers[worker]);
      forall v | v in state.workers[worker].jobs ensures v in state.jobs {
        assert HeldOk(state, state.workers[worker], v);
      }
    }

    lemma ReadyToWrite()
      requires Reached() && Stage(state, worker, Embedded)
      ensures forall v :: v in state.workers[worker].jobs ==>
              CanSave(state, state.workers[worker], v) && v in state.jobs
    {
      BatchHasRows();
      RunKeepsInv(config, START, trace);
      assert BatchOk(config, state, state.workers[worker]);
    }

    method WriteBatch() returns (succeeded: nat, lost: nat, reused: nat)
      requires Reached() && Stage(state, worker, Embedded)
      modifies this
      ensures Reached() && worker !in state.workers
      ensures forall v :: v in old(state).workers[worker].jobs ==> v in state.embeddings
      ensures succeeded == |Held(old(state).jobs, old(state).workers[worker].serial,
              old(state).workers[worker].jobs.Keys)|
      ensures succeeded + lost == |old(state).workers[worker].jobs|
      ensures reused == |Reused(old(state), old(state).workers[worker], old(state).workers[worker].jobs.Keys)|
      ensures state.jobs ==
              CompleteAll(old(state).jobs, old(state).workers[worker].serial, old(state).workers[worker].jobs.Keys)
    {
      ReadyToWrite();
      var jobs, embeddings;
      jobs, embeddings, succeeded, lost, reused := WriteJobs(state, state.workers[worker]);
      Do(Write(worker));
      assert state.jobs == jobs && state.embeddings == embeddings;
    }

    method FailBatch(now: Instant) returns (failed: nat)
      requires Reached() && Stage(state, worker, CacheRead)
      modifies this
      ensures Reached() && worker !in state.workers && state.embeddings == old(state).embeddings
      ensures var b := old(state).workers[worker];
              && failed == |Exhausted(config, b.jobs)|
              && state.jobs == FailAll(config, old(state).jobs, b.serial, b.jobs, now)
    {
      BatchHasRows();
      var jobs;
      jobs, failed := FailJobs(config, state, state.workers[worker], now);
      Do(RecordFailure(worker, now));
      assert state.jobs == jobs;
    }

    /**
     `_process`: every text missing from the tenant's stored vectors is sent exactly once. Then either
     every job of the batch has its embedding and the held ones are completed, or a failed provider
     call stored nothing and the held ones are failed or queued again.
     */
    method Process(maxBatchSize: nat, failing: nat -> bool, now: Instant)
      returns (calls: seq<seq<string>>, succeeded: nat, failed: nat, lost: nat, reused: nat)
      requires Reached() && Stage(state, worker, Leased) && maxBatchSize > 0
      modifies this
      ensures Reached() && worker !in state.workers
      ensures forall i :: 0 <= i < |calls| ==> 0 < |calls[i]| <= maxBatchSize
      ensures Distinct(Concat(calls))
      ensures var s, b := old(state), old(state).workers[worker];
              if forall i :: 0 <= i < |calls| ==> !failing(i) then
                && (forall t :: t in Concat(calls) <==> MustSend(s, b, t))
                && (forall v :: v in b.jobs ==> v in state.embeddings)
                && state.jobs == CompleteAll(s.jobs, b.serial, b.jobs.Keys)
                && succeeded == |Held(s.jobs, b.serial, b.jobs.Keys)| && succeeded + lost == |b.jobs| && failed == 0
                && reused == |CanReuse(s, b)|
              else
                && state.embeddings == s.embeddings
                && state.jobs == FailAll(config, s.jobs, b.serial, b.jobs, now)
                && failed == |Exhausted(config, b.jobs)| && succeeded == lost == reused == 0
    {
      BatchIsKnown();
      ReadBatch();
      ghost var read := state;
      var items := CollectTexts(state, state.workers[worker]);
      var ok, computed;
      ok, calls, computed := SendChunks(config, items, maxBatchSize, failing);
      succeeded, failed, lost, reused := 0, 0, 0, 0;
      if ok {
        VectorsAreComputed(config, ToEmbed(state, state.workers[worker]), items, computed);
        Do(CallProvider(worker));
        assert state.workers[worker].computed == computed;
        ReusedIsReusable(old(state), read, worker);
        assert Reused(state, state.workers[worker], state.workers[worker].jobs.Keys) ==
               Reused(read, read.workers[worker], read.workers[worker].jobs.Keys);
        succeeded, lost, reused := WriteBatch();
      } else {
        failed := FailBatch(now);
      }
    }

    /** The reconciliation sweep: no version is forgotten unless the limit was reached. */
    method EnqueueMissing(limit: nat, now: Instant) returns (enqueued: nat)
      requires Reached()
      modifies this
      ensures Reached() && enqueued <= limit
      ensures state == old(state).(jobs := state.jobs) && old(state).jobs.Keys <= state.jobs.Keys
      ensures forall v :: v in old(state).jobs ==> state.jobs[v] == old(state).jobs[v]
      ensures forall v :: v in state.jobs && v !in old(state).jobs ==>
                v in state.versions && state.jobs[v] == Job(state.versions[v].org, PENDING, None, None, 0, now)
      ensures enqueued < limit ==> forall v :: v in state.versions ==> v in state.jobs || v in state.embeddings
    {
      var ids := FindMissing(state, limit);
      Do(Enqueue(ids, now));
      enqueued := |ids|;
    }

    /** One iteration: reconcile, lease a batch, process it. */
    method RunOnce(batchSize: nat, maxBatchSize: nat, failing: nat -> bool, now: Instant)
      returns (enqueued: nat, claimed: nat, succeeded: nat, failed: nat, lost: nat)
      requires Reached() && worker !in state.workers && maxBatchSize > 0
      modifies this
      ensures Reached() && worker !in state.workers && claimed <= batchSize
      ensures claimed == 0 ==> state.embeddings == old(state).embeddings
      ensures (forall i :: !failing(i)) ==> succeeded + lost == claimed && failed == 0
    {
      enqueued := EnqueueMissing(batchSize * 4, now);
      claimed := LeaseBatch(batchSize, now);
      succeeded, failed, lost := 0, 0, 0;
      if claimed > 0 {
        var calls, reused;
        calls, succeeded, failed, lost, reused := Process(maxBatchSize, failing, now);
      }
    }
  }
}
