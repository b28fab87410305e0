/**
 Outbox, relay, Kafka log and deduplicating consumer as one state machine: one step is one
 database transaction or one broker call. Relays and consumers may crash between any two.
 */
module Events {
  import opened Common

  datatype EventType =
    | FactVersionRecorded
    | FactEmbeddingStored
    | ContradictionDetected
    | FactRevoked
    | EvidenceCaptured
    | EvidenceLinked
    | ContextCaptured
    | DecisionRecorded
    | DecisionImpacted

  datatype Counter = FactsRecorded | EvidenceCount | DecisionsCount

  /** `COUNTER_BY_TYPE`: what the activity projector subscribes to, and the column it bumps. */
  function CounterOf(kind: EventType): Option<Counter> {
    match kind
    case FactVersionRecorded => Some(FactsRecorded)
    case EvidenceCaptured => Some(EvidenceCount)
    case DecisionRecorded => Some(DecisionsCount)
    case _ => None
  }

  datatype Event = Event(id: Id, kind: EventType, organization: Id, day: nat)

  /** One row and column of the activity read model. */
  datatype Bucket = Bucket(organization: Id, day: nat, counter: Counter)

  predicate Subscribed(e: Event) {
    CounterOf(e.kind).Some?
  }

  function BucketOf(e: Event): Bucket
    requires Subscribed(e)
  {
    Bucket(e.organization, e.day, CounterOf(e.kind).value)
  }

  /** A message either decodes to an envelope or does not. */
  datatype Payload = Envelope(event: Event) | Undecodable

  /** A relay's open transaction: rows it locked, and those the broker acknowledged. */
  datatype Claim = Claim(rows: set<Id>, acked: set<Id>)

  type Partition = nat

  /**
   `events` are all committed source events. `positions` are the consumers' in-memory read
   positions; `committed` are the group's committed offsets.
   */
  datatype State = State(
    events: map<Id, Event>,
    outbox: set<Id>,
    claims: map<nat, Claim>,
    log: map<Partition, seq<Payload>>,
    processed: set<Id>,
    counters: map<Bucket, nat>,
    deadLetters: seq<Payload>,
    positions: map<nat, map<Partition, nat>>,
    committed: map<Partition, nat>)

  function Log(s: State, p: Partition): seq<Payload> {
    if p in s.log then s.log[p] else []
  }

  function Committed(s: State, p: Partition): nat {
    if p in s.committed then s.committed[p] else 0
  }

  function Position(s: State, c: nat, p: Partition): nat {
    if c in s.positions && p in s.positions[c] then s.positions[c][p] else 0
  }

  function Count(s: State, b: Bucket): nat {
    if b in s.counters then s.counters[b] else 0
  }

  /** Outbox rows locked by some open relay transaction. */
  function Locked(s: State): set<Id> {
    LockedRows(s.claims)
  }

  function LockedRows(claims: map<nat, Claim>): set<Id> {
    set r, id | r in claims && id in claims[r].rows :: id
  }

  /** The message consumer c would process next on partition p. */
  predicate HasNext(s: State, c: nat, p: Partition) {
    c in s.positions && Position(s, c, p) < |Log(s, p)|
  }

  /** What must hold before an offset may pass a message. */
  predicate Settled(s: State, m: Payload) {
    match m
    case Envelope(e) => !Subscribed(e) || e.id in s.processed || m in s.deadLetters
    case Undecodable => m in s.deadLetters
  }

  datatype Step =
    | Emit(event: Event)
    | ClaimRows(relay: nat, rows: set<Id>)
    | Publish(relay: nat, row: Id, partition: Partition, acknowledged: bool)
    | DeleteRows(relay: nat)
    | Rollback(relay: nat)
    | Noise(partition: Partition)
    | Handle(consumer: nat, partition: Partition)
    | DeadLetter(consumer: nat, partition: Partition)
    | Advance(consumer: nat, partition: Partition)
    | CommitOffset(consumer: nat, partition: Partition)
    | Restart(consumer: nat)

  /** The dedup row and the counter increment, in one transaction (`_apply`). */
  function Effect(s: State, e: Event): State
    requires Subscribed(e)
  {
    if e.id in s.processed then s
    else s.(processed := s.processed + {e.id}, counters := s.counters[BucketOf(e) := Count(s, BucketOf(e)) + 1])
  }

  /** One step; a step whose guard fails does not happen. */
  function Next(s: State, step: Step): State {
    match step
    case Emit(e) =>
      if e.id in s.events then s
      else s.(events := s.events[e.id := e], outbox := s.outbox + {e.id})
    case ClaimRows(r, rows) =>
      if r in s.claims || !(rows <= s.outbox - Locked(s)) then s
      else s.(claims := s.claims[r := Claim(rows, {})])
    case Publish(r, id, p, acknowledged) =>
      if r !in s.claims || id !in s.claims[r].rows || id !in s.events then s
      else
        var claim := s.claims[r];
        s.(log := s.log[p := Log(s, p) + [Envelope(s.events[id])]],
           claims := if acknowledged then s.claims[r := claim.(acked := claim.acked + {id})] else s.claims)
    case DeleteRows(r) =>
      if r !in s.claims || s.claims[r].acked != s.claims[r].rows then s
      else s.(outbox := s.outbox - s.claims[r].rows, claims := s.claims - {r})
    case Rollback(r) => s.(claims := s.claims - {r})
    case Noise(p) => s.(log := s.log[p := Log(s, p) + [Undecodable]])
    case Handle(c, p) =>
      if !HasNext(s, c, p) then s
      else
        var m := Log(s, p)[Position(s, c, p)];
        if m.Envelope? && Subscribed(m.event) then Effect(s, m.event) else s
    case DeadLetter(c, p) =>
      if !HasNext(s, c, p) then s
      else s.(deadLetters := s.deadLetters + [Log(s, p)[Position(s, c, p)]])
    case Advance(c, p) =>
      if !HasNext(s, c, p) || !Settled(s, Log(s, p)[Position(s, c, p)]) then s
      else
        var moved: map<Partition, nat> := s.positions[c][p := Position(s, c, p) + 1];
        s.(positions := s.positions[c := moved])
    case CommitOffset(c, p) =>
      if c !in s.positions then s
      else s.(committed := s.committed[p := Position(s, c, p)])
    case Restart(c) => s.(positions := s.positions[c := s.committed])
  }

  function Run(s: State, steps: seq<Step>): State
    decreases |steps|
  {
    if steps == [] then s else Run(Next(s, steps[0]), steps[1..])
  }

  const START := State(map[], {}, map[], map[], {}, map[], [], map[], map[])

  // ----- the invariant -----


  ghost predicate InLog(s: State, m: Payload) {
    exists p, i :: 0 <= i < |Log(s, p)| && Log(s, p)[i] == m
  }

  ghost predicate SourceOk(s: State) {
    && s.outbox <= s.events.Keys
    && (forall id :: id in s.events ==> s.events[id].id == id)
    && (forall id :: id in s.events ==> id in s.outbox || InLog(s, Envelope(s.events[id])))
    && (forall p, i :: 0 <= i < |Log(s, p)| && Log(s, p)[i].Envelope? ==>
          Log(s, p)[i].event.id in s.events && s.events[Log(s, p)[i].event.id] == Log(s, p)[i].event)
  }

  ghost predicate ClaimsOk(s: State) {
    && (forall r :: r in s.claims ==> s.claims[r].acked <= s.claims[r].rows)
    && (forall r, id :: r in s.claims && id in s.claims[r].acked ==> id in s.events && InLog(s, Envelope(s.events[id])))
  }

  /** The event belongs to the counter's tenant and day, and is of the kind the counter counts. */
  predicate Belongs(e: Event, b: Bucket) {
    && e.organization == b.organization && e.day == b.day
    && match b.counter
       case FactsRecorded => e.kind == FactVersionRecorded
       case EvidenceCount => e.kind == EvidenceCaptured
       case DecisionsCount => e.kind == DecisionRecorded
  }

  /** The projector subscribes to exactly the events some counter is about, and counts each there. */
  lemma BelongsIff(e: Event, b: Bucket)
    ensures Belongs(e, b) <==> Subscribed(e) && BucketOf(e) == b
    ensures Subscribed(e) <==> e.kind in {FactVersionRecorded, EvidenceCaptured, DecisionRecorded}
  {
  }

  ghost function Handled(s: State, b: Bucket): set<Id> {
    set id | id in s.processed && id in s.events && Belongs(s.events[id], b)
  }

  ghost predicate CountersExact(s: State) {
    && s.processed <= s.events.Keys
    && (forall b :: Count(s, b) == |Handled(s, b)|)
  }

  /** Everything before a read position or a committed offset is settled. */
  ghost predicate SettledBefore(s: State, p: Partition, n: nat) {
    n <= |Log(s, p)| && forall i :: 0 <= i < n ==> Settled(s, Log(s, p)[i])
  }

  ghost predicate OffsetsOk(s: State) {
    && (forall p :: SettledBefore(s, p, Committed(s, p)))
    && (forall c, p :: c in s.positions ==> SettledBefore(s, p, Position(s, c, p)))
  }

  ghost predicate Inv(s: State) {
    SourceOk(s) && ClaimsOk(s) && CountersExact(s) && OffsetsOk(s)
  }

  /** Logs only grow, and what was settled stays settled. */
  ghost predicate Grows(s: State, t: State) {
    && (forall p :: |Log(s, p)| <= |Log(t, p)| && Log(t, p)[..|Log(s, p)|] == Log(s, p))
    && (forall m :: Settled(s, m) ==> Settled(t, m))
    && (forall id :: id in s.events ==> id in t.events && t.events[id] == s.events[id])
  }

  lemma StepGrows(s: State, step: Step)
    ensures Grows(s, Next(s, step))
  {
  }

  lemma GrowsKeepsLog(s: State, t: State, m: Payload)
    requires Grows(s, t) && InLog(s, m)
    ensures InLog(t, m)
  {
  }

  lemma GrowsKeepsSettled(s: State, t: State, p: Partition, n: nat)
    requires Grows(s, t) && SettledBefore(s, p, n)
    ensures SettledBefore(t, p, n)
  {
  }

  lemma AppendedInLog(s: State, p: Partition, m: Payload, t: State)
    requires t.log == s.log[p := Log(s, p) + [m]]
    ensures InLog(t, m)
  {
    assert Log(t, p)[|Log(s, p)|] == m;
  }

  lemma StepKeepsSource(s: State, step: Step)
    requires SourceOk(s) && ClaimsOk(s)
    ensures SourceOk(Next(s, step))
  {
    var t := Next(s, step);
    StepGrows(s, step);
    forall id | id in t.events ensures id in t.outbox || InLog(t, Envelope(t.events[id])) {
      EventStaysQueuedOrLogged(s, step, id);
    }
    LogStaysGenuine(s, step);
  }

  lemma EventStaysQueuedOrLogged(s: State, step: Step, id: Id)
    requires SourceOk(s) && ClaimsOk(s) && id in Next(s, step).events
    ensures id in Next(s, step).outbox || InLog(Next(s, step), Envelope(Next(s, step).events[id]))
  {
    StepGrows(s, step);
    if id in s.events && id !in Next(s, step).outbox {
      assert id in s.outbox ==> step.DeleteRows? && id in s.claims[step.relay].acked;
      GrowsKeepsLog(s, Next(s, step), Envelope(s.events[id]));
    }
  }

  /** Every envelope in the log is a committed event, as committed. */
  lemma LogStaysGenuine(s: State, step: Step)
    requires SourceOk(s)
    ensures var t := Next(s, step);
            forall p, i :: 0 <= i < |Log(t, p)| && Log(t, p)[i].Envelope? ==>
              Log(t, p)[i].event.id in t.events && t.events[Log(t, p)[i].event.id] == Log(t, p)[i].event
  {
    var t := Next(s, step);
    StepGrows(s, step);
    forall p, i | 0 <= i < |Log(t, p)| && Log(t, p)[i].Envelope?
      ensures Log(t, p)[i].event.id in t.events && t.events[Log(t, p)[i].event.id] == Log(t, p)[i].event
    {
      if i < |Log(s, p)| {
        assert Log(t, p)[..|Log(s, p)|][i] == Log(t, p)[i];
      }
    }
  }

  lemma StepKeepsClaims(s: State, step: Step)
    requires SourceOk(s) && ClaimsOk(s)
    ensures ClaimsOk(Next(s, step))
  {
    StepKeepsAckedRows(s, step);
    forall r, id | r in Next(s, step).claims && id in Next(s, step).claims[r].acked
      ensures id in Next(s, step).events && InLog(Next(s, step), Envelope(Next(s, step).events[id]))
    {
      StepKeepsAcked(s, step, r, id);
    }
  }

  lemma StepKeepsAckedRows(s: State, step: Step)
    requires ClaimsOk(s)
    ensures forall r :: r in Next(s, step).claims ==> Next(s, step).claims[r].acked <= Next(s, step).claims[r].rows
  {
  }

  /** An acknowledged row is in the log. */
  lemma StepKeepsAcked(s: State, step: Step, r: nat, id: Id)
    requires ClaimsOk(s) && r in Next(s, step).claims && id in Next(s, step).claims[r].acked
    ensures id in Next(s, step).events && InLog(Next(s, step), Envelope(Next(s, step).events[id]))
  {
    StepGrows(s, step);
    if r in s.claims && id in s.claims[r].acked {
      GrowsKeepsLog(s, Next(s, step), Envelope(s.events[id]));
    } else {
      AppendedInLog(s, step.partition, Envelope(s.events[id]), Next(s, step));
    }
  }

  lemma EffectCounts(s: State, e: Event)
    requires CountersExact(s) && Subscribed(e) && e.id in s.events && s.events[e.id] == e
    ensures CountersExact(Effect(s, e))
  {
    var t := Effect(s, e);
    if e.id !in s.processed {
      forall b ensures Count(t, b) == |Handled(t, b)| {
        if b == BucketOf(e) {
          assert Handled(t, b) == Handled(s, b) + {e.id};
        } else {
          assert Handled(t, b) == Handled(s, b);
        }
      }
    }
  }

  lemma StepKeepsCounters(s: State, step: Step)
    requires SourceOk(s) && CountersExact(s)
    ensures CountersExact(Next(s, step))
  {
    var t := Next(s, step);
    if step.Handle? {
      if HasNext(s, step.consumer, step.partition) {
        var m := Log(s, step.partition)[Position(s, step.consumer, step.partition)];
        if m.Envelope? && Subscribed(m.event) {
          EffectCounts(s, m.event);
        }
      }
    } else {
      forall b ensures Count(t, b) == |Handled(t, b)| {
        OthersKeepHandled(s, step, b);
      }
    }
  }

  lemma OthersKeepHandled(s: State, step: Step, b: Bucket)
    requires SourceOk(s) && s.processed <= s.events.Keys && !step.Handle?
    ensures Handled(Next(s, step), b) == Handled(s, b)
  {
  }

  lemma StepKeepsOffsets(s: State, step: Step)
    requires OffsetsOk(s)
    ensures OffsetsOk(Next(s, step))
  {
    forall p ensures SettledBefore(Next(s, step), p, Committed(Next(s, step), p)) {
      StepKeepsCommitted(s, step, p);
    }
    forall c, p | c in Next(s, step).positions ensures SettledBefore(Next(s, step), p, Position(Next(s, step), c, p)) {
      StepKeepsPosition(s, step, c, p);
    }
  }

  lemma StepKeepsCommitted(s: State, step: Step, p: Partition)
    requires OffsetsOk(s)
    ensures SettledBefore(Next(s, step), p, Committed(Next(s, step), p))
  {
    StepGrows(s, step);
    GrowsKeepsSettled(s, Next(s, step), p, Committed(s, p));
    if step.CommitOffset? && step.consumer in s.positions {
      GrowsKeepsSettled(s, Next(s, step), p, Position(s, step.consumer, p));
    }
  }

  lemma StepKeepsPosition(s: State, step: Step, c: nat, p: Partition)
    requires OffsetsOk(s) && c in Next(s, step).positions
    ensures SettledBefore(Next(s, step), p, Position(Next(s, step), c, p))
  {
    StepGrows(s, step);
    GrowsKeepsSettled(s, Next(s, step), p, Committed(s, p));
    if c in s.positions {
      GrowsKeepsSettled(s, Next(s, step), p, Position(s, c, p));
    }
  }

  lemma StepKeepsInv(s: State, step: Step)
    requires Inv(s)
    ensures Inv(Next(s, step))
  {
    StepKeepsSource(s, step);
    StepKeepsClaims(s, step);
    StepKeepsCounters(s, step);
    StepKeepsOffsets(s, step);
  }

  lemma {:induction false} RunKeepsInv(s: State, steps: seq<Step>)
    requires Inv(s)
    ensures Inv(Run(s, steps))
    decreases |steps|
  {
    if steps != [] {
      StepKeepsInv(s, steps[0]);
      RunKeepsInv(Next(s, steps[0]), steps[1..]);
    }
  }

  lemma StartInv()
    ensures Inv(START)
  {
  }

  /** The committed events a counter is about. */
  ghost function CommittedIn(s: State, b: Bucket): set<Id> {
    set id | id in s.events && Belongs(s.events[id], b)
  }

  /**
   Exactly once: in every reachable state a counter is the number of distinct processed
   events of its tenant, day and kind, so it never exceeds the committed ones.
   */
  lemma CountedExactlyOnce(steps: seq<Step>, b: Bucket)
    ensures var s := Run(START, steps);
            && Count(s, b) == |Handled(s, b)|
            && Handled(s, b) <= CommittedIn(s, b)
            && Count(s, b) <= |CommittedIn(s, b)|
  {
    StartInv();
    RunKeepsInv(START, steps);
    SubsetSize(Handled(Run(START, steps), b), CommittedIn(Run(START, steps), b));
  }

  /** So far `sent` of the free rows of `start` were published; the locked ones are all there. */
  ghost predicate Draining(start: set<Id>, locked: set<Id>, outbox: set<Id>, sent: nat) {
    outbox * locked == start * locked && sent + |outbox - locked| == |start - locked|
  }

  lemma DrainMore(start: set<Id>, locked: set<Id>, outbox: set<Id>, sent: nat, published: set<Id>)
    requires Draining(start, locked, outbox, sent) && published <= outbox - locked
    ensures Draining(start, locked, outbox - published, sent + |published|)
    ensures |outbox - published - locked| + |published| == |outbox - locked|
    ensures published == outbox - locked ==> outbox - published == start * locked
  {
    assert outbox - locked == (outbox - published - locked) + published;
    assert (outbox - published) * locked == outbox * locked;
  }

  /**
   No loss: every committed subscribed event is still in the outbox, or in the log at or
   beyond the committed offset, or processed, or dead-lettered.
   */
  lemma NothingLost(steps: seq<Step>, id: Id)
    requires id in Run(START, steps).events && Subscribed(Run(START, steps).events[id])
    ensures var s := Run(START, steps);
            || id in s.outbox
            || (exists p, i :: Committed(s, p) <= i < |Log(s, p)| && Log(s, p)[i] == Envelope(s.events[id]))
            || id in s.processed
            || Envelope(s.events[id]) in s.deadLetters
  {
    StartInv();
    RunKeepsInv(START, steps);
    var s := Run(START, steps);
    if id !in s.outbox {
      var p, i :| 0 <= i < |Log(s, p)| && Log(s, p)[i] == Envelope(s.events[id]);
      if i < Committed(s, p) {
        assert SettledBefore(s, p, Committed(s, p));
      }
    }
  }

  /** Once the outbox is drained and offsets caught up, every event is counted or dead-lettered. */
  lemma DrainedIsComplete(steps: seq<Step>, id: Id)
    requires var s := Run(START, steps);
             && s.outbox == {} && (forall p :: Committed(s, p) == |Log(s, p)|)
             && id in s.events && Subscribed(s.events[id])
    ensures var s := Run(START, steps);
            id in Handled(s, BucketOf(s.events[id])) || Envelope(s.events[id]) in s.deadLetters
  {
    NothingLost(steps, id);
  }

  // ----- the workers, as programs over these steps -----

  lemma {:induction false} RunAppend(s: State, steps: seq<Step>, step: Step)
    ensures Run(s, steps + [step]) == Next(Run(s, steps), step)
    decreases |steps|
  {
    if steps == [] {
      assert [] + [step] == [step];
    } else {
      assert (steps + [step])[1..] == steps[1..] + [step];
      RunAppend(Next(s, steps[0]), steps[1..], step);
    }
  }

  lemma RunThree(s: State, a: Step, b: Step, c: Step)
    ensures Run(s, [a, b, c]) == Next(Next(Next(s, a), b), c)
  {
    assert [a, b, c][1..] == [b, c] && [b, c][1..] == [c];
    assert Run(s, [a, b, c]) == Run(Next(s, a), [b, c]) == Run(Next(Next(s, a), b), [c]);
  }

  lemma ClaimOne(s: State, relay: nat, id: Id)
    requires relay !in s.claims && id in s.outbox - Locked(s)
    ensures Next(s, ClaimRows(relay, {id})) == s.(claims := s.claims[relay := Claim({id}, {})])
  {
  }

  lemma PublishOne(s: State, relay: nat, id: Id, p: Partition)
    requires id in s.events && relay in s.claims && s.claims[relay] == Claim({id}, {})
    ensures Next(s, Publish(relay, id, p, true)) ==
            s.(log := s.log[p := Log(s, p) + [Envelope(s.events[id])]], claims := s.claims[relay := Claim({id}, {id})])
  {
    assert {} + {id} == {id};
  }

  lemma DeleteOne(s: State, relay: nat, id: Id)
    requires relay in s.claims && s.claims[relay] == Claim({id}, {id})
    ensures Next(s, DeleteRows(relay)) == s.(outbox := s.outbox - {id}, claims := s.claims - {relay})
  {
  }

  /** Claiming, publishing and deleting moves any free row from the outbox to the end of its partition. */
  lemma RelayMovesEvent(s: State, relay: nat, id: Id, p: Partition)
    requires SourceOk(s) && relay !in s.claims && id in s.outbox - Locked(s)
    ensures Run(s, [ClaimRows(relay, {id}), Publish(relay, id, p, true), DeleteRows(relay)]) ==
            s.(outbox := s.outbox - {id}, log := s.log[p := Log(s, p) + [Envelope(s.events[id])]])
  {
    RunThree(s, ClaimRows(relay, {id}), Publish(relay, id, p, true), DeleteRows(relay));
    ClaimOne(s, relay, id);
    var claimed := s.(claims := s.claims[relay := Claim({id}, {})]);
    PublishOne(claimed, relay, id, p);
    var published := Next(claimed, Publish(relay, id, p, true));
    DeleteOne(published, relay, id);
    assert published.claims - {relay} == s.claims;
  }

  lemma HandleApplies(s: State, c: nat, p: Partition, e: Event)
    requires HasNext(s, c, p) && Log(s, p)[Position(s, c, p)] == Envelope(e) && Subscribed(e)
    ensures var t := Next(s, Handle(c, p));
            t == Effect(s, e) && e.id in t.processed && HasNext(t, c, p) && Log(t, p) == Log(s, p)
              && Position(t, c, p) == Position(s, c, p)
  {
  }

  datatype RelayFault = NoFault | BrokerFails(after: nat) | CommitFails

  /**
   What happens to one attempt: it commits, rolls back, commits but reports failure, or the handler
   rejects the event for good. The handler is not asked about an event that is already processed.
   */
  datatype AttemptFault = Clean | RolledBack | AckLost | Permanent

  datatype Outcome = WasHandled | WasDuplicate | WasIgnored | WasDeadLettered

  /** Attempts n.. of one event: whether it ends up processed, and the outcome of a successful attempt. */
  function Attempts(processed: bool, fault: nat -> AttemptFault, n: nat, max: nat): (bool, Option<Outcome>)
    decreases max + 1 - n
  {
    if n > max then (processed, None)
    else
      match fault(n)
      case Clean => (true, Some(if processed then WasDuplicate else WasHandled))
      case RolledBack => Attempts(processed, fault, n + 1, max)
      case AckLost => Attempts(true, fault, n + 1, max)
      case Permanent => (processed, if processed then Some(WasDuplicate) else None)
  }

  /** Attempt n takes place: none before it ended the loop. */
  ghost predicate Tried(fault: nat -> AttemptFault, from: nat, max: nat, n: nat) {
    from <= n <= max && forall m: nat :: from <= m < n ==> fault(m) == RolledBack || fault(m) == AckLost
  }

  ghost predicate CountedBefore(processed: bool, fault: nat -> AttemptFault, from: nat, n: nat) {
    processed || exists m: nat :: from <= m < n && fault(m) == AckLost
  }

  /** Attempt n takes place and returns: it commits cleanly, or finds the event already counted. */
  ghost predicate Succeeds(processed: bool, fault: nat -> AttemptFault, from: nat, max: nat, n: nat) {
    && Tried(fault, from, max, n)
    && (fault(n) == Clean || (fault(n) == Permanent && CountedBefore(processed, fault, from, n)))
  }

  ghost predicate Commits(fault: nat -> AttemptFault, from: nat, max: nat, n: nat) {
    Tried(fault, from, max, n) && (fault(n) == Clean || fault(n) == AckLost)
  }

  ghost predicate SomeCommits(fault: nat -> AttemptFault, from: nat, max: nat) {
    exists n: nat :: Commits(fault, from, max, n)
  }

  ghost predicate SomeSucceeds(processed: bool, fault: nat -> AttemptFault, from: nat, max: nat) {
    exists n: nat :: Succeeds(processed, fault, from, max, n)
  }

  /** An attempt that takes place commits although it reports a failure. */
  ghost predicate SomeAckLost(fault: nat -> AttemptFault, max: nat) {
    exists n: nat :: Tried(fault, 1, max, n) && fault(n) == AckLost
  }

  /** The event is processed afterwards, and the message handled, exactly when some attempt says so. */
  lemma {:induction false} AttemptsExact(processed: bool, fault: nat -> AttemptFault, from: nat, max: nat)
    ensures var r := Attempts(processed, fault, from, max);
            && (r.0 <==> processed || SomeCommits(fault, from, max))
            && (r.1.Some? <==> SomeSucceeds(processed, fault, from, max))
            && (r.1 == Some(WasHandled) ==> !processed)
            && (r.1.Some? ==> r.0)
            && r.1 in {None, Some(WasHandled), Some(WasDuplicate)}
    decreases max + 1 - from
  {
    if from <= max {
      var r := Attempts(processed, fault, from, max);
      if fault(from) == RolledBack || fault(from) == AckLost {
        var counted := processed || fault(from) == AckLost;
        AttemptsExact(counted, fault, from + 1, max);
        LaterCommits(fault, from, max);
        LaterSuccess(processed, fault, from, max);
      } else {
        assert Tried(fault, from, max, from) && forall n: nat :: Tried(fault, from, max, n) ==> n == from;
        assert Succeeds(processed, fault, from, max, from) <==> fault(from) == Clean || processed;
        assert Commits(fault, from, max, from) <==> fault(from) == Clean;
      }
    }
  }

  /** After an attempt that did not end the loop, the rest is what happens to the next attempts. */
  lemma LaterTried(fault: nat -> AttemptFault, from: nat, max: nat, n: nat)
    requires from <= max && (fault(from) == RolledBack || fault(from) == AckLost)
    ensures Tried(fault, from, max, n) <==> n == from || Tried(fault, from + 1, max, n)
  {
  }

  lemma LaterCommits(fault: nat -> AttemptFault, from: nat, max: nat)
    requires from <= max && (fault(from) == RolledBack || fault(from) == AckLost)
    ensures SomeCommits(fault, from, max) <==> fault(from) == AckLost || SomeCommits(fault, from + 1, max)
  {
    if SomeCommits(fault, from, max) {
      var n: nat :| Commits(fault, from, max, n);
      LaterTried(fault, from, max, n);
      assert n != from ==> Commits(fault, from + 1, max, n);
    }
    var next := from + 1;
    if SomeCommits(fault, next, max) {
      var n: nat :| Commits(fault, next, max, n);
      LaterTried(fault, from, max, n);
      assert Commits(fault, from, max, n);
    }
    LaterTried(fault, from, max, from);
    assert fault(from) == AckLost ==> Commits(fault, from, max, from);
  }

  lemma LaterSuccess(processed: bool, fault: nat -> AttemptFault, from: nat, max: nat)
    requires from <= max && (fault(from) == RolledBack || fault(from) == AckLost)
    ensures SomeSucceeds(processed, fault, from, max) <==>
            SomeSucceeds(processed || fault(from) == AckLost, fault, from + 1, max)
  {
    var counted, next := processed || fault(from) == AckLost, from + 1;
    if SomeSucceeds(processed, fault, from, max) {
      var n: nat :| Succeeds(processed, fault, from, max, n);
      LaterTried(fault, from, max, n);
      assert Succeeds(counted, fault, from + 1, max, n);
    }
    if SomeSucceeds(counted, fault, next, max) {
      var n: nat :| Succeeds(counted, fault, next, max, n);
      LaterTried(fault, from, max, n);
      assert Succeeds(processed, fault, from, max, n);
    }
  }

  /**
   A subscribed message that is dead-lettered is counted as well exactly when it was counted before
   (a redelivery), or an attempt that took place committed although it reported a failure.
   */
  lemma CountedAndDeadLetteredIff(processed: bool, fault: nat -> AttemptFault, max: nat)
    ensures var r := Attempts(processed, fault, 1, max);
            r.1.None? && r.0 <==> !SomeSucceeds(processed, fault, 1, max) && (processed || SomeAckLost(fault, max))
  {
    AttemptsExact(processed, fault, 1, max);
    forall n: nat ensures Commits(fault, 1, max, n) && fault(n) == Clean ==> Succeeds(processed, fault, 1, max, n) {
    }
    forall n: nat ensures Tried(fault, 1, max, n) && fault(n) == AckLost ==> Commits(fault, 1, max, n) {
    }
    if !processed && SomeCommits(fault, 1, max) {
      var n: nat :| Commits(fault, 1, max, n);
      assert fault(n) == AckLost || Succeeds(processed, fault, 1, max, n);
    }
  }

  /** It happens: the last attempt, or an earlier one, loses its acknowledgement; or a counted event comes again. */
  lemma CountedAndDeadLettered(max: nat)
    requires max >= 1
    ensures Attempts(false, n => if n == max then AckLost else RolledBack, 1, max) == (true, None)
    ensures Attempts(false, n => if n == 1 then AckLost else RolledBack, 1, max) == (true, None)
    ensures Attempts(true, n => RolledBack, 1, max) == (true, None)
  {
    NoSuccess(false, n => if n == max then AckLost else RolledBack, max, max);
    NoSuccess(false, n => if n == 1 then AckLost else RolledBack, max, 1);
    NoSuccess(true, n => RolledBack, max, 1);
  }

  lemma NoSuccess(processed: bool, fault: nat -> AttemptFault, max: nat, lost: nat)
    requires forall n: nat :: fault(n) == RolledBack || fault(n) == AckLost
    requires processed || (1 <= lost <= max && fault(lost) == AckLost)
    ensures Attempts(processed, fault, 1, max) == (true, None)
  {
    CountedAndDeadLetteredIff(processed, fault, max);
    assert processed || (Tried(fault, 1, max, lost) && fault(lost) == AckLost);
  }

  /** Message i is the one just before offset n of partition p. */
  predicate IsLast(processed: seq<(Partition, nat)>, i: nat, p: Partition, n: nat) {
    i < |processed| && processed[i].0 == p && processed[i].1 + 1 == n
  }

  /** Offsets to commit: for each partition, one past the last processed message. */
  method NextOffsets(processed: seq<(Partition, nat)>) returns (offsets: map<Partition, nat>)
    ensures forall i :: 0 <= i < |processed| ==> processed[i].0 in offsets && processed[i].1 < offsets[processed[i].0]
    ensures forall p :: p in offsets ==> exists i :: IsLast(processed, i, p, offsets[p])
  {
    offsets := map[];
    for n := 0 to |processed|
      invariant forall i :: 0 <= i < n ==> processed[i].0 in offsets && processed[i].1 < offsets[processed[i].0]
      invariant forall p :: p in offsets ==> exists i :: IsLast(processed, i, p, offsets[p])
    {
      var (p, offset) := processed[n];
      var seen := if p in offsets then offsets[p] else 0;
      if seen < offset + 1 {
        offsets := offsets[p := offset + 1];
        assert IsLast(processed, n, p, offset + 1);
      }
    }
  }

  /** What a consumer read between two states: the processed messages and how far it got. */
  ghost predicate ReadBetween(s: State, t: State, c: nat, processed: seq<(Partition, nat)>) {
    && (forall i :: 0 <= i < |processed| ==>
          Position(s, c, processed[i].0) <= processed[i].1 < Position(t, c, processed[i].0))
    && (forall p :: Position(s, c, p) <= Position(t, c, p))
    && (forall p :: Position(s, c, p) < Position(t, c, p) ==> exists i :: IsLast(processed, i, p, Position(t, c, p)))
  }

  lemma ReadOneMore(s: State, t: State, u: State, c: nat, processed: seq<(Partition, nat)>, p: Partition)
    requires ReadBetween(s, t, c, processed)
    requires Position(u, c, p) == Position(t, c, p) + 1
    requires forall q :: q != p ==> Position(u, c, q) == Position(t, c, q)
    ensures ReadBetween(s, u, c, processed + [(p, Position(t, c, p))])
  {
    var more := processed + [(p, Position(t, c, p))];
    forall q | Position(s, c, q) < Position(u, c, q) ensures exists i :: IsLast(more, i, q, Position(u, c, q)) {
      if q == p {
        assert IsLast(more, |processed|, p, Position(u, c, p));
      } else {
        var i: nat :| IsLast(processed, i, q, Position(t, c, q));
        assert IsLast(more, i, q, Position(u, c, q));
      }
    }
  }

  /** Committing `NextOffsets` is committing the consumer's own positions, where it moved. */
  lemma OffsetsArePositions(s: State, t: State, c: nat, processed: seq<(Partition, nat)>, offsets: map<Partition, nat>)
    requires ReadBetween(s, t, c, processed)
    requires forall i :: 0 <= i < |processed| ==> processed[i].0 in offsets && processed[i].1 < offsets[processed[i].0]
    requires forall p :: p in offsets ==> exists i :: IsLast(processed, i, p, offsets[p])
    ensures forall p :: p in offsets <==> Position(s, c, p) < Position(t, c, p)
    ensures forall p :: p in offsets ==> offsets[p] == Position(t, c, p)
  {
  }

  /** Consuming leaves the producing side and the log alone. */
  ghost predicate SameSource(s: State, t: State) {
    t.events == s.events && t.outbox == s.outbox && t.claims == s.claims && t.log == s.log
  }

  /** Every attempt that matters commits. */
  ghost predicate CleanAttempts(fault: nat -> AttemptFault, maxAttempts: nat) {
    maxAttempts >= 1 && fault(1) == Clean
  }

  ghost predicate AllClean(fault: (nat, nat) -> AttemptFault, maxAttempts: nat) {
    maxAttempts >= 1 && forall k: nat :: fault(k, 1) == Clean
  }

  lemma CleanSucceeds(processed: bool, fault: nat -> AttemptFault, maxAttempts: nat)
    requires CleanAttempts(fault, maxAttempts)
    ensures SomeSucceeds(processed, fault, 1, maxAttempts)
  {
    assert Succeeds(processed, fault, 1, maxAttempts, 1);
  }

  /** No decodable message was dead-lettered in between. */
  ghost predicate OnlyUndecodable(s: State, t: State) {
    forall m :: m in t.deadLetters && m.Envelope? ==> m in s.deadLetters
  }

  function Occurrences(order: seq<Partition>, p: Partition): nat {
    if order == [] then 0
    else Occurrences(order[..|order| - 1], p) + if order[|order| - 1] == p then 1 else 0
  }

  function Min(a: nat, b: nat): nat { if a < b then a else b }

  /** Each partition was read as often as it was named, up to the end of its log. */
  ghost predicate ReadAll(s: State, t: State, c: nat, order: seq<Partition>) {
    forall p :: Position(t, c, p) == Min(Position(s, c, p) + Occurrences(order, p), |Log(s, p)|)
  }

  lemma ReadAllMore(s: State, t: State, u: State, c: nat, order: seq<Partition>, p: Partition)
    requires ReadAll(s, t, c, order) && t.log == s.log && c in t.positions
    requires Position(u, c, p) == Position(t, c, p) + if HasNext(t, c, p) then 1 else 0
    requires forall q :: q != p ==> Position(u, c, q) == Position(t, c, q)
    ensures ReadAll(s, u, c, order + [p])
  {
    assert (order + [p])[..|order|] == order;
  }

  lemma {:induction false} OccurrencesAppend(a: seq<Partition>, b: seq<Partition>, p: Partition)
    ensures Occurrences(a + b, p) == Occurrences(a, p) + Occurrences(b, p)
  {
    if b == [] {
      assert a + b == a;
    } else {
      OccurrencesAppend(a, b[..|b| - 1], p);
      assert (a + b)[..|a + b| - 1] == a + b[..|b| - 1];
    }
  }

  lemma {:induction false} OccurrencesRepeat(n: nat, p: Partition, q: Partition)
    ensures Occurrences(seq(n, _ => p), q) == if p == q then n else 0
  {
    if n > 0 {
      OccurrencesRepeat(n - 1, p, q);
      assert seq(n, _ => p)[..n - 1] == seq(n - 1, _ => p);
    }
  }

  /** What is left to read, partition by partition. */
  method RestOf(s: State, c: nat) returns (order: seq<Partition>)
    requires forall p :: Position(s, c, p) <= |Log(s, p)|
    ensures forall p :: Occurrences(order, p) == |Log(s, p)| - Position(s, c, p)
  {
    order := [];
    var todo := s.log.Keys;
    while todo != {}
      invariant todo <= s.log.Keys
      invariant forall p :: Occurrences(order, p) == if p in todo then 0 else |Log(s, p)| - Position(s, c, p)
      decreases todo
    {
      var p :| p in todo;
      var rest := seq(|Log(s, p)| - Position(s, c, p), _ => p);
      forall q ensures Occurrences(order + rest, q) == Occurrences(order, q) + if p == q then |rest| else 0 {
        OccurrencesAppend(order, rest, q);
        OccurrencesRepeat(|rest|, p, q);
      }
      todo, order := todo - {p}, order + rest;
    }
  }

  /** Starting at the committed offsets and reading what is left, the offsets reach the end of every log. */
  lemma CaughtUp(s: State, t: State, c: nat, order: seq<Partition>)
    requires c in s.positions && s.positions[c] == s.committed
    requires forall p :: Position(s, c, p) <= |Log(s, p)|
    requires forall p :: Occurrences(order, p) == |Log(s, p)| - Position(s, c, p)
    requires SameSource(s, t) && ReadAll(s, t, c, order)
    requires forall p :: Committed(t, p) ==
               if Position(s, c, p) < Position(t, c, p) then Position(t, c, p) else Committed(s, p)
    ensures forall p :: Committed(t, p) == |Log(t, p)|
  {
    forall p ensures Committed(t, p) == |Log(t, p)| {
      assert Position(s, c, p) == Committed(s, p);
      assert Position(t, c, p) == |Log(s, p)|;
    }
  }

  /** When every committed subscribed event is processed, counters count the committed events. */
  lemma CountsCommitted(steps: seq<Step>, letters: seq<Payload>)
    requires var s := Run(START, steps);
             forall id :: id in s.events && Subscribed(s.events[id]) && id !in s.outbox ==>
               id in s.processed || Envelope(s.events[id]) in letters
    ensures var s := Run(START, steps);
            s.outbox == {} && (forall m :: m in letters ==> m.Undecodable?) ==>
              forall b :: Count(s, b) == |CommittedIn(s, b)|
  {
    var s := Run(START, steps);
    if s.outbox == {} && forall m :: m in letters ==> m.Undecodable? {
      forall b ensures Count(s, b) == |CommittedIn(s, b)| {
        CountedExactlyOnce(steps, b);
        assert Handled(s, b) == CommittedIn(s, b);
      }
    }
  }

  /** What one poll keeps: the source, and what was read and dead-lettered so far. */
  ghost predicate Polled(s: State, t: State, c: nat, processed: seq<(Partition, nat)>, clean: bool) {
    && c in t.positions && t.committed == s.committed && SameSource(s, t)
    && ReadBetween(s, t, c, processed) && (clean ==> OnlyUndecodable(s, t))
  }

  ghost predicate Polling(
    s: State, t: State, c: nat, order: seq<Partition>, processed: seq<(Partition, nat)>, clean: bool)
  {
    Polled(s, t, c, processed, clean) && ReadAll(s, t, c, order)
  }

  lemma PollStopped(s: State, t: State, u: State, c: nat, processed: seq<(Partition, nat)>, clean: bool)
    requires Polled(s, t, c, processed, clean) && c in u.positions && u.committed == t.committed && SameSource(t, u)
    requires (clean ==> OnlyUndecodable(t, u)) && forall q :: Position(u, c, q) == Position(t, c, q)
    ensures Polled(s, u, c, processed, clean)
  {
  }

  lemma PollingMore(
    s: State, t: State, u: State, c: nat, order: seq<Partition>, processed: seq<(Partition, nat)>, clean: bool,
      p: Partition)
    requires Polling(s, t, c, order, processed, clean) && HasNext(t, c, p)
    requires c in u.positions && u.committed == t.committed && SameSource(t, u) && (clean ==> OnlyUndecodable(t, u))
    requires Position(u, c, p) == Position(t, c, p) + 1
    requires forall q :: q != p ==> Position(u, c, q) == Position(t, c, q)
    ensures Polling(s, u, c, order + [p], processed + [(p, Position(t, c, p))], clean)
  {
    ReadAllMore(s, t, u, c, order, p);
    ReadOneMore(s, t, u, c, processed, p);
  }

  /** The shared database and broker. Every change is one step; `trace` lists the steps taken. */
  class Pipeline {
    var state: State
    ghost var trace: seq<Step>

    ghost predicate Reached()
      reads this
    {
      state == Run(START, trace)
    }

    constructor ()
      ensures Reached() && state == START
    {
      state := START;
      trace := [];
    }

    method Do(step: Step)
      requires Reached()
      modifies this
      ensures Reached() && state == Next(old(state), step) && trace == old(trace) + [step]
    {
      RunAppend(START, trace, step);
      state := Next(state, step);
      trace := trace + [step];
    }

    /** `FOR UPDATE SKIP LOCKED LIMIT batch_size`; nothing is locked when no row is free. */
    method ClaimBatch(relay: nat, batchSize: nat) returns (rows: set<Id>)
      requires Reached() && relay !in state.claims
      modifies this
      ensures Reached()
      ensures rows <= old(state.outbox) - old(Locked(state)) && |rows| <= batchSize
      ensures |rows| < batchSize ==> rows == old(state.outbox) - old(Locked(state))
      ensures rows == {} ==> state == old(state)
      ensures rows != {} ==> state == old(state).(claims := old(state).claims[relay := Claim(rows, {})])
    {
      rows := {};
      var free := state.outbox - Locked(state);
      while |rows| < batchSize && rows != free
        invariant rows <= free && |rows| <= batchSize
        decreases free - rows
      {
        var id :| id in free && id !in rows;
        rows := rows + {id};
      }
      if rows != {} {
        Do(ClaimRows(relay, rows));
      }
    }

    /** Publish the claimed rows one by one; not all are acknowledged when the broker fails. */
    method PublishAll(
      relay: nat, rows: set<Id>, route: Id -> Partition, fault: RelayFault, ghost others: map<nat, Claim>)
      returns (acked: set<Id>)
      requires Reached() && state.claims == others[relay := Claim(rows, {})] && rows <= state.events.Keys
      modifies this
      ensures Reached()
      ensures state.outbox == old(state.outbox) && state.events == old(state.events)
      ensures state.deadLetters == old(state.deadLetters)
      ensures state.claims == others[relay := Claim(rows, acked)] && acked <= rows
      ensures fault.NoFault? ==> acked == rows
    {
      acked := {};
      var sent := 0;
      while acked != rows
        invariant Reached()
        invariant acked <= rows && state.outbox == old(state.outbox) && state.events == old(state.events)
        invariant state.deadLetters == old(state.deadLetters)
        invariant state.claims == others[relay := Claim(rows, acked)]
        decreases rows - acked
      {
        if fault == BrokerFails(sent) {
          return;
        }
        var id :| id in rows && id !in acked;
        Do(Publish(relay, id, route(id), true));
        acked, sent := acked + {id}, sent + 1;
      }
    }

    /** Delete the published rows and commit, or roll everything back. */
    method EndTransaction(
      relay: nat, rows: set<Id>, acked: set<Id>, commit: bool, ghost others: map<nat, Claim>)
      returns (published: set<Id>)
      requires Reached() && relay !in others && state.claims == others[relay := Claim(rows, acked)]
      requires commit ==> acked == rows
      modifies this
      ensures Reached()
      ensures state.events == old(state.events) && state.claims == others
      ensures state.deadLetters == old(state.deadLetters)
      ensures state.outbox == old(state.outbox) - published && published == if commit then rows else {}
    {
      Do(if commit then DeleteRows(relay) else Rollback(relay));
      published := if commit then rows else {};
    }

    lemma OutboxIsCommitted()
      requires Reached()
      ensures state.outbox <= state.events.Keys
    {
      StartInv();
      RunKeepsInv(START, trace);
    }

    /** One relay iteration: claim, publish, delete, in one transaction. */
    method RelayOnce(relay: nat, batchSize: nat, route: Id -> Partition, fault: RelayFault) returns (published: set<Id>)
      requires Reached() && relay !in state.claims
      modifies this
      ensures Reached()
      ensures state.events == old(state.events) && state.claims == old(state.claims)
      ensures state.deadLetters == old(state.deadLetters)
      ensures published <= old(state.outbox) - old(Locked(state)) && state.outbox == old(state.outbox) - published
      ensures |published| <= batchSize
      ensures fault.NoFault? && |published| < batchSize ==> published == old(state.outbox) - old(Locked(state))
      ensures fault.CommitFails? ==> published == {}
    {
      ghost var claims := state.claims;
      OutboxIsCommitted();
      var rows := ClaimBatch(relay, batchSize);
      published := {};
      if rows != {} {
        published := PublishAndDelete(relay, rows, route, fault, claims);
      }
    }

    /** Publish what was claimed, and delete it if all of it was acknowledged and the commit succeeds. */
    method PublishAndDelete(
      relay: nat, rows: set<Id>, route: Id -> Partition, fault: RelayFault, ghost others: map<nat, Claim>)
      returns (published: set<Id>)
      requires Reached() && relay !in others && state.claims == others[relay := Claim(rows, {})]
               && rows <= state.events.Keys
      modifies this
      ensures Reached()
      ensures state.events == old(state.events) && state.claims == others
      ensures state.deadLetters == old(state.deadLetters)
      ensures state.outbox == old(state.outbox) - published && (published == {} || published == rows)
      ensures fault.NoFault? ==> published == rows
      ensures fault.CommitFails? ==> published == {}
    {
      var acked := PublishAll(relay, rows, route, fault, others);
      published := EndTransaction(relay, rows, acked, acked == rows && !fault.CommitFails?, others);
    }

    /** Without faults, draining publishes every row no other relay holds, once, and leaves only those. */
    method Drain(relay: nat, batchSize: nat, route: Id -> Partition) returns (total: nat)
      requires Reached() && relay !in state.claims && batchSize > 0
      modifies this
      ensures Reached() && state.claims == old(state.claims) && state.events == old(state.events)
      ensures state.deadLetters == old(state.deadLetters)
      ensures state.outbox == old(state.outbox) * Locked(old(state))
      ensures total == |old(state.outbox) - Locked(old(state))|
    {
      total := 0;
      ghost var locked, start := Locked(state), state.outbox;
      var published := RelayOnce(relay, batchSize, route, NoFault);
      DrainMore(start, locked, start, 0, published);
      while published != {}
        invariant Reached() && state.claims == old(state.claims) && state.events == old(state.events)
        invariant state.deadLetters == old(state.deadLetters)
        invariant Draining(start, locked, state.outbox, total + |published|)
        invariant published == {} ==> state.outbox == start * locked
        decreases |state.outbox - locked|, |published|
      {
        total := total + |published|;
        ghost var outbox := state.outbox;
        published := RelayOnce(relay, batchSize, route, NoFault);
        DrainMore(start, locked, outbox, total, published);
      }
      assert state.outbox - locked == {};
    }

    /**
     `process`: whatever happens to the attempts, the effect is applied at most once. A subscribed
     message is dead-lettered exactly when the broker is up and no attempt succeeds, and its event is
     processed afterwards exactly when it was before or an attempt commits. No outcome: the
     dead-letter publish failed.
     */
    method Process(c: nat, p: Partition, maxAttempts: nat, fault: nat -> AttemptFault, brokerUp: bool)
      returns (outcome: Option<Outcome>)
      requires Reached() && HasNext(state, c, p)
      modifies this
      ensures Reached()
      ensures var m := old(Log(state, p)[Position(state, c, p)]);
              var subscribed := m.Envelope? && Subscribed(m.event);
              var before := subscribed && m.event.id in old(state.processed);
              && (outcome.Some? ==> Settled(state, m))
              && (outcome.None? ==> !brokerUp)
              && (outcome == Some(WasIgnored) <==> m.Envelope? && !subscribed)
              && (outcome == Some(WasDeadLettered) <==>
                    brokerUp && (m.Undecodable? || (subscribed && !SomeSucceeds(before, fault, 1, maxAttempts))))
              && (outcome in {Some(WasHandled), Some(WasDuplicate)} <==>
                    subscribed && SomeSucceeds(before, fault, 1, maxAttempts))
              && (outcome == Some(WasHandled) ==> !before)
              && state.deadLetters == old(state.deadLetters) + (if outcome == Some(WasDeadLettered) then [m] else [])
              && state.(deadLetters := old(state.deadLetters)) ==
                 if subscribed && SomeCommits(fault, 1, maxAttempts) then Effect(old(state), m.event) else old(state)
    {
      var m := Log(state, p)[Position(state, c, p)];
      if m.Undecodable? {
        if !brokerUp {
          return None;
        }
        Do(DeadLetter(c, p));
        return Some(WasDeadLettered);
      }
      if !Subscribed(m.event) {
        return Some(WasIgnored);
      }
      AttemptsExact(m.event.id in state.processed, fault, 1, maxAttempts);
      outcome := Attempt(c, p, m.event, maxAttempts, fault);
      if outcome.None? && brokerUp {
        Do(DeadLetter(c, p));
        outcome := Some(WasDeadLettered);
      }
    }

    /** The retry loop: one transaction per attempt. */
    method Attempt(c: nat, p: Partition, e: Event, maxAttempts: nat, fault: nat -> AttemptFault)
      returns (outcome: Option<Outcome>)
      requires Reached() && HasNext(state, c, p) && Log(state, p)[Position(state, c, p)] == Envelope(e) && Subscribed(e)
      modifies this
      ensures Reached()
      ensures var r := Attempts(e.id in old(state.processed), fault, 1, maxAttempts);
              outcome == r.1 && state == if r.0 then Effect(old(state), e) else old(state)
    {
      var attempt := 1;
      while attempt <= maxAttempts
        invariant Reached()
        invariant state == old(state) || (e.id in state.processed && state == Effect(old(state), e))
        invariant attempt <= maxAttempts + 1
        invariant Attempts(e.id in old(state.processed), fault, 1, maxAttempts) ==
                  Attempts(e.id in state.processed, fault, attempt, maxAttempts)
        decreases maxAttempts + 1 - attempt
      {
        var first := e.id !in state.processed;
        if fault(attempt) == Permanent {
          return if first then None else Some(WasDuplicate);
        }
        if fault(attempt) != RolledBack {
          HandleApplies(state, c, p, e);
          Do(Handle(c, p));
          if fault(attempt) == Clean {
            return Some(if first then WasHandled else WasDuplicate);
          }
        }
        attempt := attempt + 1;
      }
      outcome := None;
    }

    /** Process the next record and move past it; false when processing raised. */
    method Consume(
      c: nat, p: Partition, maxAttempts: nat, fault: nat -> AttemptFault, brokerUp: bool)
      returns (ok: bool)
      requires Reached() && HasNext(state, c, p)
      modifies this
      ensures Reached() && c in state.positions && state.committed == old(state.committed)
      ensures SameSource(old(state), state) && (brokerUp ==> ok)
      ensures CleanAttempts(fault, maxAttempts) ==> OnlyUndecodable(old(state), state)
      ensures Position(state, c, p) == old(Position(state, c, p)) + (if ok then 1 else 0)
      ensures forall q :: q != p ==> Position(state, c, q) == old(Position(state, c, q))
    {
      if CleanAttempts(fault, maxAttempts) {
        CleanSucceeds(true, fault, maxAttempts);
        CleanSucceeds(false, fault, maxAttempts);
      }
      var outcome := Process(c, p, maxAttempts, fault, brokerUp);
      assert state.positions == old(state.positions) && Log(state, p) == old(Log(state, p));
      ok := outcome.Some?;
      if ok {
        Do(Advance(c, p));
      }
    }

    lemma PositionsWithinLog(c: nat)
      requires Reached() && c in state.positions
      ensures forall p :: Position(state, c, p) <= |Log(state, p)|
    {
      StartInv();
      RunKeepsInv(START, trace);
      forall p ensures Position(state, c, p) <= |Log(state, p)| {
        assert SettledBefore(state, p, Position(state, c, p));
      }
    }

    /** One record of a poll, if its partition has another. */
    method ReadOne(
      c: nat, p: Partition, maxAttempts: nat, fault: nat -> AttemptFault, brokerUp: bool,
        processed: seq<(Partition, nat)>,
      ghost start: State, ghost order: seq<Partition>, ghost clean: bool
    ) returns (ok: bool, processed': seq<(Partition, nat)>)
      requires Reached() && Polling(start, state, c, order, processed, clean)
      requires clean ==> CleanAttempts(fault, maxAttempts)
      modifies this
      ensures Reached() && (brokerUp ==> ok)
      ensures Polled(start, state, c, processed', clean)
      ensures ok ==> Polling(start, state, c, order + [p], processed', clean)
    {
      ghost var before := state;
      ok, processed' := true, processed;
      if HasNext(state, c, p) {
        var offset := Position(state, c, p);
        ok := Consume(c, p, maxAttempts, fault, brokerUp);
        if ok {
          PollingMore(start, before, state, c, order, processed, clean, p);
          processed' := processed + [(p, offset)];
        } else {
          PollStopped(start, before, state, c, processed, clean);
        }
      } else {
        ReadAllMore(start, state, state, c, order, p);
      }
    }

    /**
     The records of one poll, in log order per partition: `order` names the partition of each. When
     nothing raised, every one of them was processed.
     */
    method ReadBatch(
      c: nat, order: seq<Partition>, maxAttempts: nat, fault: (nat, nat) -> AttemptFault, brokerUp: nat -> bool
    ) returns (ok: bool, processed: seq<(Partition, nat)>)
      requires Reached() && c in state.positions
      modifies this
      ensures Reached() && c in state.positions && state.committed == old(state.committed)
      ensures ReadBetween(old(state), state, c, processed)
      ensures SameSource(old(state), state) && ((forall k: nat :: brokerUp(k)) ==> ok)
      ensures ok ==> ReadAll(old(state), state, c, order)
      ensures AllClean(fault, maxAttempts) ==> OnlyUndecodable(old(state), state)
    {
      processed := [];
      ghost var start, clean := state, AllClean(fault, maxAttempts);
      PositionsWithinLog(c);
      for k := 0 to |order|
        invariant Reached() && Polling(start, state, c, order[..k], processed, clean)
      {
        assert order[..k + 1] == order[..k] + [order[k]];
        ok, processed :=
          ReadOne(c, order[k], maxAttempts, (n: nat) => fault(k, n), brokerUp(k), processed, start, order[..k], clean);
        if !ok {
          return;
        }
      }
      assert order[..|order|] == order;
      ok := true;
    }

    method CommitOffsets(c: nat, offsets: map<Partition, nat>)
      requires Reached() && c in state.positions && forall p :: p in offsets ==> offsets[p] == Position(state, c, p)
      modifies this
      ensures Reached() && state == old(state).(committed := state.committed)
      ensures forall p :: Committed(state, p) == if p in offsets then offsets[p] else old(Committed(state, p))
    {
      var todo := offsets.Keys;
      while todo != {}
        invariant Reached() && todo <= offsets.Keys && state == old(state).(committed := state.committed)
        invariant forall p ::
                    Committed(state, p) == if p in offsets && p !in todo then offsets[p] else old(Committed(state, p))
        decreases todo
      {
        var p :| p in todo;
        todo := todo - {p};
        Do(CommitOffset(c, p));
      }
    }

    /**
     One round of `run_consumer`: offsets are committed only after every record of the batch was
     processed, and then to where the consumer stands.
     */
    method ConsumeBatch(
      c: nat, order: seq<Partition>, maxAttempts: nat, fault: (nat, nat) -> AttemptFault, brokerUp: nat -> bool
    ) returns (ok: bool)
      requires Reached() && c in state.positions
      modifies this
      ensures Reached() && c in state.positions
      ensures SameSource(old(state), state) && ((forall k: nat :: brokerUp(k)) ==> ok)
      ensures !ok ==> state.committed == old(state.committed)
      ensures ok ==> ReadAll(old(state), state, c, order)
      ensures ok ==> forall p :: Committed(state, p) ==
                       if old(Position(state, c, p)) < Position(state, c, p)
                       then Position(state, c, p)
                       else old(Committed(state, p))
      ensures AllClean(fault, maxAttempts) ==> OnlyUndecodable(old(state), state)
    {
      var processed;
      ok, processed := ReadBatch(c, order, maxAttempts, fault, brokerUp);
      if ok {
        var offsets := NextOffsets(processed);
        OffsetsArePositions(old(state), state, c, processed, offsets);
        CommitOffsets(c, offsets);
      }
    }

    /** A consumer that starts at the committed offsets and reads to the end commits the end of every log. */
    method CatchUp(c: nat, maxAttempts: nat)
      requires Reached() && maxAttempts >= 1
      modifies this
      ensures Reached() && SameSource(old(state), state) && OnlyUndecodable(old(state), state)
      ensures forall p :: Committed(state, p) == |Log(state, p)|
    {
      Do(Restart(c));
      PositionsWithinLog(c);
      ghost var started := state;
      var order := RestOf(state, c);
      var _ := ConsumeBatch(c, order, maxAttempts, (k, n) => Clean, k => true);
      CaughtUp(started, state, c, order);
    }

    /**
     The whole pipeline: after draining and catching up without faults, every committed subscribed
     event that no other relay holds is counted, unless it had been dead-lettered before; and when
     neither happened, each counter is the number of committed events of its tenant, day and kind.
     */
    method RelayAndConsume(relay: nat, batchSize: nat, route: Id -> Partition, c: nat, maxAttempts: nat)
      requires Reached() && relay !in state.claims && batchSize > 0 && maxAttempts >= 1
      modifies this
      ensures Reached() && state.events == old(state.events)
      ensures state.outbox == old(state.outbox) * Locked(old(state))
      ensures forall p :: Committed(state, p) == |Log(state, p)|
      ensures forall id :: id in state.events && Subscribed(state.events[id]) && id !in state.outbox ==>
                id in state.processed || Envelope(state.events[id]) in old(state.deadLetters)
      ensures state.outbox == {} && (forall m :: m in old(state.deadLetters) ==> m.Undecodable?) ==>
                forall b :: Count(state, b) == |CommittedIn(state, b)|
    {
      var _ := Drain(relay, batchSize, route);
      CatchUp(c, maxAttempts);
      forall id | id in state.events && Subscribed(state.events[id]) && id !in state.outbox
        ensures id in state.processed || Envelope(state.events[id]) in old(state.deadLetters)
      {
        NothingLost(trace, id);
      }
      CountsCommitted(trace, old(state.deadLetters));
    }
  }
}
