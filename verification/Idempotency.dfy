/** `Idempotency-Key` reservations for one caller and key (`app/cache/idempotency.py`). */
module Idempotency {
  import opened Common
  import opened TtlStore

  newtype byte = x: int | 0 <= x < 256

  type Bytes = seq<byte>

  // ----- requests and their fingerprints -----

  /** A POST request; the other methods pass through untouched. */
  datatype Request = Request(path: Bytes, query: Bytes, body: Bytes)

  const POST: Bytes := [80, 79, 83, 84]

  /** The four parts joined with NUL bytes. */
  function Material(r: Request): Bytes {
    POST + [0] + Tail(r)
  }

  function Tail(r: Request): Bytes {
    r.path + [0] + (r.query + [0] + r.body)
  }

  function Fingerprint(r: Request): Sha256<Bytes> {
    Sha256(Material(r))
  }

  /** The first NUL separates the same prefix and rest. */
  lemma FirstNul(a: Bytes, x: Bytes, b: Bytes, y: Bytes)
    requires a + [0] + x == b + [0] + y && 0 !in a && 0 !in b
    ensures a == b && x == y
  {
    var s := a + [0] + x;
    assert s[|a|] == 0 && s[|b|] == (b + [0] + y)[|b|] == 0;
    assert a == s[..|a|] == (b + [0] + y)[..|b|] == b;
    assert x == s[|a| + 1..] == (b + [0] + y)[|b| + 1..] == y;
  }

  lemma SameTail(r: Request, q: Request)
    ensures Fingerprint(r) == Fingerprint(q) <==> Tail(r) == Tail(q)
  {
    if Material(r) == Material(q) {
      FirstNul(POST, Tail(r), POST, Tail(q));
    }
  }

  /** Among requests whose path and query hold no NUL byte, the fingerprint names the request. */
  lemma FingerprintInjective(r: Request, q: Request)
    requires 0 !in r.path && 0 !in r.query && 0 !in q.path && 0 !in q.query
    ensures Fingerprint(r) == Fingerprint(q) <==> r == q
  {
    if Fingerprint(r) == Fingerprint(q) {
      SameTail(r, q);
      FirstNul(r.path, r.query + [0] + r.body, q.path, q.query + [0] + q.body);
      FirstNul(r.query, r.body, q.query, q.body);
    }
  }

  function Nuls(s: Bytes): nat {
    if s == [] then 0 else Nuls(s[..|s| - 1]) + if s[|s| - 1] == 0 then 1 else 0
  }

  lemma {:induction false} NulsAppend(a: Bytes, b: Bytes)
    ensures Nuls(a + b) == Nuls(a) + Nuls(b)
  {
    if b == [] {
      assert a + b == a;
    } else {
      NulsAppend(a, b[..|b| - 1]);
      assert (a + b)[..|a + b| - 1] == a + b[..|b| - 1];
    }
  }

  lemma {:induction false} NoNuls(s: Bytes)
    ensures Nuls(s) == 0 <==> 0 !in s
  {
    if s != [] {
      NoNuls(s[..|s| - 1]);
      assert s == s[..|s| - 1] + [s[|s| - 1]];
    }
  }

  lemma TailNuls(r: Request)
    ensures Nuls(Tail(r)) == Nuls(r.path) + Nuls(r.query) + Nuls(r.body) + 2
  {
    assert Nuls([0]) == 1 by {
      NulsAppend([], [0]);
    }
    NulsAppend(r.path + [0], r.query + [0] + r.body);
    NulsAppend(r.path, [0]);
    NulsAppend(r.query + [0], r.body);
    NulsAppend(r.query, [0]);
  }

  lemma SplitAtNul(s: Bytes) returns (a: Bytes, b: Bytes)
    requires 0 in s
    ensures s == a + [0] + b
  {
    var i :| 0 <= i < |s| && s[i] == 0;
    a, b := s[..i], s[i + 1..];
  }

  /** A different request with the same fingerprint, for any request that holds a NUL byte. */
  lemma Collision(r: Request) returns (q: Request)
    requires 0 in r.path || 0 in r.query || 0 in r.body
    ensures q != r && Fingerprint(q) == Fingerprint(r)
  {
    if 0 in r.path {
      var a, b := SplitAtNul(r.path);
      q := Request(a, b, r.query + [0] + r.body);
    } else if 0 in r.query {
      var a, b := SplitAtNul(r.query);
      q := Request(r.path, a, b + [0] + r.body);
    } else {
      var a, b := SplitAtNul(r.body);
      q := Request(r.path + [0] + r.query, a, b);
    }
    assert Tail(q) == Tail(r);
    SameTail(q, r);
  }

  ghost predicate Unique(r: Request) {
    forall q :: Fingerprint(q) == Fingerprint(r) ==> q == r
  }

  /** No other request at all shares the fingerprint, exactly when the request holds no NUL byte. */
  lemma FingerprintUniqueIff(r: Request)
    ensures Unique(r) <==> 0 !in r.path && 0 !in r.query && 0 !in r.body
  {
    if 0 in r.path || 0 in r.query || 0 in r.body {
      var q := Collision(r);
    } else {
      forall q | Fingerprint(q) == Fingerprint(r) ensures q == r {
        SameTail(q, r);
        TailNuls(q);
        TailNuls(r);
        NoNuls(r.path);
        NoNuls(r.query);
        NoNuls(r.body);
        NoNuls(q.path);
        NoNuls(q.query);
        FingerprintInjective(q, r);
      }
    }
  }

  // ----- capturing the response -----

  datatype Response = Response(status: int, headers: seq<(string, string)>, body: Bytes)

  datatype Message = ResponseStart(status: int, headers: seq<(string, string)>) | ResponseBody(chunk: Bytes)

  const MAX_STORED_BODY: nat := 1024 * 1024

  const REPLAYED_HEADERS: set<string> := {"content-type", "location", "etag"}

  function BodyOf(messages: seq<Message>): Bytes {
    if messages == [] then []
    else
      var m := messages[|messages| - 1];
      BodyOf(messages[..|messages| - 1]) + if m.ResponseBody? then m.chunk else []
  }

  function StatusOf(messages: seq<Message>): int {
    if messages == [] then 500
    else
      var m := messages[|messages| - 1];
      if m.ResponseStart? then m.status else StatusOf(messages[..|messages| - 1])
  }

  /** Header names are ASCII. */
  function Lower(name: string): string {
    seq(|name|, i requires 0 <= i < |name| => if 'A' <= name[i] <= 'Z' then name[i] - 'A' + 'a' else name[i])
  }

  function Kept(headers: seq<(string, string)>): seq<(string, string)> {
    if headers == [] then []
    else
      var h := headers[|headers| - 1];
      Kept(headers[..|headers| - 1]) + if Lower(h.0) in REPLAYED_HEADERS then [(Lower(h.0), h.1)] else []
  }

  function HeadersOf(messages: seq<Message>): seq<(string, string)> {
    if messages == [] then []
    else
      var m := messages[|messages| - 1];
      HeadersOf(messages[..|messages| - 1]) + if m.ResponseStart? then Kept(m.headers) else []
  }

  /** The response worth storing: a 2xx of at most one MiB. */
  function Storable(messages: seq<Message>): Option<Response> {
    if 200 <= StatusOf(messages) < 300 && |BodyOf(messages)| <= MAX_STORED_BODY
    then Some(Response(StatusOf(messages), HeadersOf(messages), BodyOf(messages)))
    else None
  }

  /** Exactly a 2xx of at most one MiB is stored, whole. */
  lemma StorableExactly(messages: seq<Message>)
    ensures Storable(messages).Some? <==> 200 <= StatusOf(messages) < 300 && |BodyOf(messages)| <= 1024 * 1024
    ensures Storable(messages).Some? ==>
              Storable(messages).value == Response(StatusOf(messages), HeadersOf(messages), BodyOf(messages))
  {
  }

  /** Chunks are joined in sending order, and a response start adds nothing. */
  lemma {:induction false} BodyInOrder(a: seq<Message>, b: seq<Message>)
    ensures BodyOf(a + b) == BodyOf(a) + BodyOf(b)
  {
    if b == [] {
      assert a + b == a;
    } else {
      BodyInOrder(a, b[..|b| - 1]);
      assert (a + b)[..|a + b| - 1] == a + b[..|b| - 1];
    }
  }

  lemma BodyOfOne(m: Message)
    ensures BodyOf([m]) == if m.ResponseBody? then m.chunk else []
  {
    assert [m][..0] == [];
  }

  /** The status is that of the last response start. */
  lemma {:induction false} LastStatus(a: seq<Message>, status: int, headers: seq<(string, string)>, b: seq<Message>)
    requires forall i :: 0 <= i < |b| ==> b[i].ResponseBody?
    ensures StatusOf(a + [ResponseStart(status, headers)] + b) == status
  {
    var all := a + [ResponseStart(status, headers)] + b;
    if b != [] {
      LastStatus(a, status, headers, b[..|b| - 1]);
      assert all[..|all| - 1] == a + [ResponseStart(status, headers)] + b[..|b| - 1];
    }
  }

  /** An application that never starts a response has failed: nothing is stored. */
  lemma {:induction false} NoStartNoStore(messages: seq<Message>)
    requires forall i :: 0 <= i < |messages| ==> messages[i].ResponseBody?
    ensures StatusOf(messages) == 500 && Storable(messages).None?
  {
    if messages != [] {
      NoStartNoStore(messages[..|messages| - 1]);
    }
  }

  /** A header is kept exactly if its name, in lower case, is one of the three; the name is kept in lower case. */
  lemma {:induction false} KeptExactly(headers: seq<(string, string)>, h: (string, string))
    ensures h in Kept(headers) <==>
            && h.0 in {"content-type", "location", "etag"}
            && exists i :: 0 <= i < |headers| && Lower(headers[i].0) == h.0 && headers[i].1 == h.1
  {
    if headers != [] {
      var init := headers[..|headers| - 1];
      KeptExactly(init, h);
      assert forall i :: 0 <= i < |init| ==> init[i] == headers[i];
    }
  }

  method KeepHeaders(headers: seq<(string, string)>) returns (kept: seq<(string, string)>)
    ensures kept == Kept(headers)
  {
    kept := [];
    for i := 0 to |headers|
      invariant kept == Kept(headers[..i])
    {
      assert headers[..i + 1][..i] == headers[..i];
      var name := Lower(headers[i].0);
      if name in REPLAYED_HEADERS {
        kept := kept + [(name, headers[i].1)];
      }
    }
    assert headers[..|headers|] == headers;
  }

  ghost function Joined(chunks: seq<Bytes>): Bytes {
    if chunks == [] then [] else Joined(chunks[..|chunks| - 1]) + chunks[|chunks| - 1]
  }

  method Join(chunks: seq<Bytes>) returns (body: Bytes)
    ensures body == Joined(chunks)
  {
    body := [];
    for i := 0 to |chunks|
      invariant body == Joined(chunks[..i])
    {
      assert chunks[..i + 1][..i] == chunks[..i];
      body := body + chunks[i];
    }
    assert chunks[..|chunks|] == chunks;
  }

  /**
   Collect what the application sends. Chunks stop being kept once the limit is passed, yet what is
   stored in the end is always the whole body, or nothing.
   */
  method Capture(messages: seq<Message>) returns (stored: Option<Response>)
    ensures stored == Storable(messages)
  {
    var status, size := 500, 0;
    var headers: seq<(string, string)> := [];
    var chunks: seq<Bytes> := [];
    for i := 0 to |messages|
      invariant status == StatusOf(messages[..i]) && headers == HeadersOf(messages[..i])
      invariant size == |BodyOf(messages[..i])|
      invariant size <= MAX_STORED_BODY ==> Joined(chunks) == BodyOf(messages[..i])
    {
      assert messages[..i + 1][..i] == messages[..i];
      match messages[i]
      case ResponseStart(s, hs) =>
        status := s;
        var kept := KeepHeaders(hs);
        headers := headers + kept;
      case ResponseBody(chunk) =>
        size := size + |chunk|;
        if size <= MAX_STORED_BODY {
          assert (chunks + [chunk])[..|chunks|] == chunks;
          chunks := chunks + [chunk];
        }
    }
    assert messages[..|messages|] == messages;
    if !(200 <= status < 300) || size > MAX_STORED_BODY {
      return None;
    }
    var body := Join(chunks);
    stored := Some(Response(status, headers, body));
  }

  // ----- the reservation machine -----

  datatype Record = Pending(fingerprint: Sha256<Bytes>) | Done(fingerprint: Sha256<Bytes>, response: Response)

  type Slot = Option<Entry<Record>>

  datatype Answer = Replayed(response: Response) | KeyReused | InUse

  datatype Running = Running(request: Request, started: Instant)

  /** One caller's key. `running` are executions in flight, `refused` requests that found the key taken. */
  datatype State = State(
    now: Instant, slot: Slot, running: map<nat, Running>, refused: map<nat, Request>,
    starts: nat, finished: seq<(Request, Response)>, answers: seq<(Request, Answer)>)

  datatype Config = Config(ttl: nat, lock: nat)

  datatype Step =
    | Reserve(process: nat, request: Request)            // SET NX
    | Look(process: nat)                                 // GET after a refusal, and the answer
    | Finish(process: nat, messages: seq<Message>)       // store the response, or release the key
    | Raise(process: nat)                                // the application raised: release the key
    | Crash(process: nat)                                // the process died: nothing is released
    | Tick(until: Instant)

  function LiveSlot(slot: Slot, now: Instant): Slot {
    if slot.Some? && slot.value.expires > now then slot else None
  }

  /** `_answer_existing`. The key's entries are records: counters live under other keys. */
  function AnswerExisting(slot: Slot, fingerprint: Sha256<Bytes>): Answer {
    if slot.None? || slot.value.value.Count? then InUse
    else
      var record := slot.value.value.record;
      if record.fingerprint != fingerprint then KeyReused
      else if record.Pending? then InUse
      else Replayed(record.response)
  }

  /** Time passes only while every execution in flight stays within its lock. */
  predicate Allowed(c: Config, s: State, step: Step) {
    match step
    case Reserve(p, _) => p !in s.running && p !in s.refused
    case Look(p) => p in s.refused
    case Finish(p, _) => p in s.running
    case Raise(p) => p in s.running
    case Crash(p) => p in s.running || p in s.refused
    case Tick(t) => t >= s.now && forall p :: p in s.running ==> t < s.running[p].started + c.lock
  }

  function Reserved(c: Config, s: State, p: nat, r: Request): State {
    if LiveSlot(s.slot, s.now).Some? then s.(refused := s.refused[p := r])
    else
      s.(slot := Some(Entry(Record(Pending(Fingerprint(r))), s.now + c.lock)),
         running := s.running[p := Running(r, s.now)], starts := s.starts + 1)
  }

  function Finished(c: Config, s: State, p: nat, messages: seq<Message>): State
    requires p in s.running
  {
    var r := s.running[p].request;
    match Storable(messages)
    case None => s.(slot := None, running := s.running - {p})
    case Some(response) =>
      s.(slot := Some(Entry(Record(Done(Fingerprint(r), response)), s.now + c.ttl)),
         running := s.running - {p}, finished := s.finished + [(r, response)])
  }

  function Next(c: Config, s: State, step: Step): State {
    if !Allowed(c, s, step) then s else
    match step
    case Reserve(p, r) => Reserved(c, s, p, r)
    case Look(p) =>
      var answer := AnswerExisting(LiveSlot(s.slot, s.now), Fingerprint(s.refused[p]));
      s.(refused := s.refused - {p}, answers := s.answers + [(s.refused[p], answer)])
    case Finish(p, messages) => Finished(c, s, p, messages)
    case Raise(p) => s.(slot := None, running := s.running - {p})
    case Crash(p) => s.(running := s.running - {p}, refused := s.refused - {p})
    case Tick(t) => s.(now := t)
  }

  ghost function Run(c: Config, s: State, steps: seq<Step>): State {
    if steps == [] then s else Next(c, Run(c, s, steps[..|steps| - 1]), steps[|steps| - 1])
  }

  function Start(now: Instant): State {
    State(now, None, map[], map[], 0, [], [])
  }

  ghost predicate Produced(finished: seq<(Request, Response)>, fingerprint: Sha256<Bytes>, response: Response) {
    exists i :: 0 <= i < |finished| && finished[i].1 == response && Fingerprint(finished[i].0) == fingerprint
  }

  /** An execution in flight holds the key with its own reservation. */
  ghost predicate Holds(c: Config, s: State, p: nat)
    requires p in s.running
  {
    && s.now < s.running[p].started + c.lock
    && s.slot == Some(Entry(Record(Pending(Fingerprint(s.running[p].request))), s.running[p].started + c.lock))
  }

  ghost predicate Inv(c: Config, s: State) {
    && (forall p, q :: p in s.running && q in s.running ==> p == q)
    && (forall p :: p in s.running ==> Holds(c, s, p))
    && (s.slot.Some? ==> s.slot.value.value.Record?)
    && (s.slot.Some? && s.slot.value.value.record.Done? ==>
          Produced(s.finished, s.slot.value.value.record.fingerprint, s.slot.value.value.record.response))
    && (forall i :: 0 <= i < |s.answers| && s.answers[i].1.Replayed? ==>
          Produced(s.finished, Fingerprint(s.answers[i].0), s.answers[i].1.response))
  }

  lemma ProducedGrows(finished: seq<(Request, Response)>, last: (Request, Response))
    ensures forall f, r :: Produced(finished, f, r) ==> Produced(finished + [last], f, r)
    ensures Produced(finished + [last], Fingerprint(last.0), last.1)
  {
    var more := finished + [last];
    forall f, r | Produced(finished, f, r) ensures Produced(more, f, r) {
      var i :| 0 <= i < |finished| && finished[i].1 == r && Fingerprint(finished[i].0) == f;
      assert more[i] == finished[i];
    }
    assert more[|finished|] == last;
  }

  lemma StepKeepsInv(c: Config, s: State, step: Step)
    requires c.lock > 0 && Inv(c, s)
    ensures Inv(c, Next(c, s, step))
  {
    if step.Finish? && Allowed(c, s, step) && Storable(step.messages).Some? {
      ProducedGrows(s.finished, (s.running[step.process].request, Storable(step.messages).value));
    }
  }

  lemma {:induction false} RunKeepsInv(c: Config, s: State, steps: seq<Step>)
    requires c.lock > 0 && Inv(c, s)
    ensures Inv(c, Run(c, s, steps))
  {
    if steps != [] {
      RunKeepsInv(c, s, steps[..|steps| - 1]);
      StepKeepsInv(c, Run(c, s, steps[..|steps| - 1]), steps[|steps| - 1]);
    }
  }

  /** In every reachable state at most one execution is in flight. */
  lemma AtMostOneInFlight(c: Config, now: Instant, steps: seq<Step>, p: nat, q: nat)
    requires c.lock > 0
    requires p in Run(c, Start(now), steps).running && q in Run(c, Start(now), steps).running
    ensures p == q
  {
    RunKeepsInv(c, Start(now), steps);
  }

  /** Every replay is the stored response of a finished execution of a request with the same fingerprint. */
  lemma ReplaysAreGenuine(c: Config, now: Instant, steps: seq<Step>, i: nat)
    requires c.lock > 0 && i < |Run(c, Start(now), steps).answers| && Run(c, Start(now), steps).answers[i].1.Replayed?
    ensures var s := Run(c, Start(now), steps);
            Produced(s.finished, Fingerprint(s.answers[i].0), s.answers[i].1.response)
  {
    RunKeepsInv(c, Start(now), steps);
  }

  /** Some transaction of the run finished a request with this fingerprint, by sending this response. */
  ghost predicate SentBy(c: Config, now: Instant, before: seq<Step>, x: Step, f: Sha256<Bytes>, response: Response) {
    && x.Finish? && x.process in Run(c, Start(now), before).running
    && Fingerprint(Run(c, Start(now), before).running[x.process].request) == f
    && response.status == StatusOf(x.messages) && 200 <= response.status < 300
    && response.body == BodyOf(x.messages) && |response.body| <= 1024 * 1024
    && response.headers == HeadersOf(x.messages)
  }

  ghost predicate Sent(c: Config, now: Instant, steps: seq<Step>, f: Sha256<Bytes>, response: Response) {
    Ever((before, x) => SentBy(c, now, before, x, f, response), steps)
  }

  lemma {:induction false} FinishedWasSent(c: Config, now: Instant, steps: seq<Step>, i: nat)
    requires i < |Run(c, Start(now), steps).finished|
    ensures var f := Run(c, Start(now), steps).finished[i]; Sent(c, now, steps, Fingerprint(f.0), f.1)
  {
    if steps != [] {
      var init, x := steps[..|steps| - 1], steps[|steps| - 1];
      assert steps == init + [x];
      var s := Run(c, Start(now), init);
      var f := Run(c, Start(now), steps).finished[i];
      EverOneMore((before, y) => SentBy(c, now, before, y, Fingerprint(f.0), f.1), init, x);
      if i < |s.finished| {
        FinishedWasSent(c, now, init, i);
        assert s.finished[i] == f;
      } else {
        assert SentBy(c, now, init, x, Fingerprint(f.0), f.1);
      }
    }
  }

  /**
   Every replay ever given is a success, status 200 to 299, that some execution of a request with the
   same fingerprint sent in this run, with its kept headers and its whole body of at most one MiB.
   */
  lemma ReplaysWereSent(c: Config, now: Instant, steps: seq<Step>, i: nat)
    requires c.lock > 0 && i < |Run(c, Start(now), steps).answers| && Run(c, Start(now), steps).answers[i].1.Replayed?
    ensures var a := Run(c, Start(now), steps).answers[i];
            200 <= a.1.response.status < 300 && Sent(c, now, steps, Fingerprint(a.0), a.1.response)
  {
    ReplaysAreGenuine(c, now, steps, i);
    var s := Run(c, Start(now), steps);
    var j :| 0 <= j < |s.finished| && s.finished[j].1 == s.answers[i].1.response
             && Fingerprint(s.finished[j].0) == Fingerprint(s.answers[i].0);
    FinishedWasSent(c, now, steps, j);
  }

  /** While an execution is in flight, an identical request is told to wait and a different one is refused. */
  lemma InFlightAnswers(c: Config, s: State, p: nat, q: nat)
    requires Inv(c, s) && p in s.running && q in s.refused
    ensures var t := Next(c, s, Look(q));
            && t.running == s.running && t.starts == s.starts
            && t.answers == s.answers + [(s.refused[q],
                 if Fingerprint(s.refused[q]) == Fingerprint(s.running[p].request) then InUse else KeyReused)]
  {
    assert Holds(c, s, p);
  }

  // ----- while a stored response lives -----

  ghost predicate StoredDone(s: State, record: Record, expires: Instant) {
    record.Done? && s.slot == Some(Entry(Record(record), expires)) && s.now < expires
  }

  /** What a later request gets while the record lives: the response, or a refusal. */
  function Expected(record: Record, r: Request): Answer
    requires record.Done?
  {
    if Fingerprint(r) == record.fingerprint then Replayed(record.response) else KeyReused
  }

  /** From `s` to `t` nothing was executed and every answer is the expected one. */
  ghost predicate OnlyReplays(s: State, t: State, record: Record)
    requires record.Done?
  {
    && t.slot == s.slot && t.starts == s.starts && t.running == s.running
    && |s.answers| <= |t.answers|
    && forall i :: |s.answers| <= i < |t.answers| ==> t.answers[i].1 == Expected(record, t.answers[i].0)
  }

  lemma StoredStep(c: Config, s: State, step: Step, record: Record, expires: Instant)
    requires Inv(c, s) && StoredDone(s, record, expires)
    ensures s.running == map[] && OnlyReplays(s, Next(c, s, step), record)
  {
  }

  /**
   Once a 2xx is stored, and until its TTL ends: no execution starts or is in flight, every identical
   request that is answered gets that very response, and every different one is refused.
   */
  lemma {:induction false} StoredResponseAnswersAll(
    c: Config, s: State, steps: seq<Step>, record: Record, expires: Instant)
    requires c.lock > 0 && Inv(c, s) && StoredDone(s, record, expires) && Run(c, s, steps).now < expires
    ensures Run(c, s, steps).running == map[] && OnlyReplays(s, Run(c, s, steps), record)
  {
    if steps == [] {
      StoredStep(c, s, Tick(s.now), record, expires);
    } else {
      var init, step := steps[..|steps| - 1], steps[|steps| - 1];
      RunKeepsInv(c, s, init);
      assert Run(c, s, init).now <= Next(c, Run(c, s, init), step).now;
      StoredResponseAnswersAll(c, s, init, record, expires);
      StoredStep(c, Run(c, s, init), step, record, expires);
    }
  }

  /** A storable response is in the slot as soon as its execution finishes, for the whole TTL. */
  lemma FinishStores(c: Config, s: State, p: nat, messages: seq<Message>)
    requires c.ttl > 0 && Inv(c, s) && p in s.running && Storable(messages).Some?
    ensures StoredDone(Next(c, s, Finish(p, messages)),
            Done(Fingerprint(s.running[p].request), Storable(messages).value), s.now + c.ttl)
  {
  }

  /** So from the moment a storable execution finishes, and for the whole TTL, its response answers every request. */
  lemma FinishedAnswersAll(c: Config, s: State, p: nat, messages: seq<Message>, steps: seq<Step>)
    requires c.lock > 0 && c.ttl > 0 && Inv(c, s) && p in s.running && Storable(messages).Some?
    requires Run(c, Next(c, s, Finish(p, messages)), steps).now < s.now + c.ttl
    ensures var finished := Next(c, s, Finish(p, messages));
            var record := Done(Fingerprint(s.running[p].request), Storable(messages).value);
            Run(c, finished, steps).running == map[] && OnlyReplays(finished, Run(c, finished, steps), record)
  {
    var finished := Next(c, s, Finish(p, messages));
    var record := Done(Fingerprint(s.running[p].request), Storable(messages).value);
    FinishStores(c, s, p, messages);
    StepKeepsInv(c, s, Finish(p, messages));
    StoredResponseAnswersAll(c, finished, steps, record, s.now + c.ttl);
  }

  /** An outcome that is not storable frees the key: the next request, whichever it is, executes. */
  lemma OtherOutcomesRelease(c: Config, s: State, p: nat, step: Step, q: nat, r: Request)
    requires Inv(c, s) && p in s.running && q !in s.running && q !in s.refused
    requires step == Raise(p) || (step.Finish? && step.process == p && Storable(step.messages).None?)
    ensures var t := Next(c, Next(c, s, step), Reserve(q, r));
            q in t.running && t.running.Keys == {q} && t.starts == s.starts + 1
  {
  }

  // ----- the middleware's calls to the store -----

  class IdempotencyMiddleware {
    const store: MemoryStore<Record>
    const config: Config

    constructor (store: MemoryStore<Record>, config: Config)
      ensures this.store == store && this.config == config
    {
      this.store, this.config := store, config;
    }

    /** Reserve the key, or answer from what is stored when it is read a moment later. */
    method Begin(key: string, request: Request, now: Instant, later: Instant) returns (reserved: bool, answer: Answer)
      requires now <= later
      modifies store
      ensures reserved <==> Live(old(store.data), key, now).None?
      ensures Becomes(old(store.data), store.data, later, key,
                      if reserved then Some(Entry(Record(Pending(Fingerprint(request))), now + config.lock))
                      else Live(old(store.data), key, later))
      ensures !reserved ==> answer == AnswerExisting(Live(old(store.data), key, later), Fingerprint(request))
    {
      answer := InUse;
      reserved := store.Set(key, Pending(Fingerprint(request)), config.lock, true, now);
      if !reserved {
        ghost var middle := store.data;
        var value := store.Get(key, later);
        assert Live(middle, key, later) == Live(old(store.data), key, later);
        var slot := if value.None? then None else Some(Entry(value.value, later + 1));
        answer := AnswerExisting(slot, Fingerprint(request));
      }
    }

    /** Run to the end: a storable response replaces the reservation, anything else deletes it. */
    method Complete(key: string, request: Request, messages: seq<Message>, raised: bool, now: Instant)
      modifies store
      ensures Becomes(old(store.data), store.data, now, key,
                      if raised || Storable(messages).None? then None
                      else Some(Entry(Record(Done(Fingerprint(request), Storable(messages).value)), now + config.ttl)))
    {
      var stored: Option<Response> := None;
      if !raised {
        stored := Capture(messages);
      }
      if stored.None? {
        store.Delete(key, now);
      } else {
        var _ := store.Set(key, Done(Fingerprint(request), stored.value), config.ttl, false, now);
      }
    }
  }
}
