/**
 The tenant's database as one state: the ledger together with revocations, evidence links,
 context snapshots and decisions (`app/services/decisions.py`, `app/services/revocations.py`).
 One action is one transaction.
 */
module Decisions {
  import opened Common
  import opened Sorting
  import opened Temporal
  import opened Ledger
  import opened Receipts

  /** An evidence link joined with the immutable evidence row it points at. */
  datatype Link = Link(
    versionId: Id, evidenceId: Id, content: string, scope: PrivacyScope, capturedAt: Instant, linkedAt: Instant)

  /** A frozen context. `facts` are in position order (positions 1..n). */
  datatype Snapshot = Snapshot(
    query: string,
    validAt: Instant,
    knownAt: Instant,
    embeddingModel: string,
    vectorSearch: string,
    scopes: seq<PrivacyScope>,
    facts: seq<Id>,
    searchedAt: nat,
    capturedAt: nat)

  datatype Decision = Decision(
    snapshotId: Id,
    decidedAt: Instant,
    decidedBy: Id,
    agent: Option<string>,
    action: string,
    outcome: string,
    rationale: Option<string>,
    reliedOn: set<Id>,
    receipt: Sha256<Document>,
    recordedAt: nat)

  /** `impacts` are the immutable impact rows: decision id to "cited the version". */
  datatype Revocation = Revocation(revokedAt: Instant, impacts: map<Id, bool>, recordedAt: nat)

  /**
   `chains` lists the version ids of each fact in insertion order. `steps` counts committed
   transactions; the `searchedAt`, `capturedAt` and `recordedAt` stamps order the run and are not
   read by any operation. `pending` are contexts that were searched and may be captured.
   */
  datatype Db = Db(
    organization: Id,
    versions: map<Id, Version>,
    chains: map<Id, seq<Id>>,
    links: seq<Link>,
    revocations: map<Id, Revocation>,
    pending: map<Id, Snapshot>,
    snapshots: map<Id, Snapshot>,
    decisions: map<Id, Decision>,
    steps: nat)

  predicate Stored(ids: seq<Id>, versions: map<Id, Version>) {
    forall i :: 0 <= i < |ids| ==> ids[i] in versions
  }

  /** The foreign keys: chains and contexts name stored versions, decisions stored snapshots. */
  ghost predicate ForeignKeys(db: Db) {
    && (forall f :: f in db.chains ==> Stored(db.chains[f], db.versions))
    && (forall s :: s in db.pending ==> Stored(db.pending[s].facts, db.versions))
    && (forall s :: s in db.snapshots ==> Stored(db.snapshots[s].facts, db.versions))
    && (forall d :: d in db.decisions ==> db.decisions[d].snapshotId in db.snapshots)
  }

  function ChainOf(db: Db, factId: Id): seq<Id> {
    if factId in db.chains then db.chains[factId] else []
  }

  function Rows(db: Db, factId: Id): seq<Version>
    requires Stored(ChainOf(db, factId), db.versions)
  {
    var ids := ChainOf(db, factId);
    seq(|ids|, i requires 0 <= i < |ids| => db.versions[ids[i]])
  }

  function RevokedAt(db: Db): map<Id, Instant> {
    map v | v in db.revocations :: db.revocations[v].revokedAt
  }

  // ----- receipts and impact, read from the stored rows -----

  function Entries(versions: map<Id, Version>, facts: seq<Id>): seq<FactEntry>
    requires Stored(facts, versions)
  {
    seq(|facts|, i requires 0 <= i < |facts| => FactEntry(facts[i], i + 1, Sha256(versions[facts[i]].value)))
  }

  /** `_content`: the stored rows the hash covers. */
  function ContentOf(organization: Id, versions: map<Id, Version>, s: Snapshot, id: Id, d: Decision): Content
    requires Stored(s.facts, versions)
  {
    Content(
      organization, id, d.snapshotId, d.decidedAt, d.decidedBy, d.agent, d.action, d.outcome, d.rationale,
      s.query, s.validAt, s.knownAt, s.embeddingModel, s.vectorSearch, s.scopes,
      Entries(versions, s.facts), d.reliedOn)
  }

  /** `_decisions_with`: decisions whose frozen context held the version. */
  function DecisionsWith(decisions: map<Id, Decision>, snapshots: map<Id, Snapshot>, versionId: Id): set<Id> {
    set d | d in decisions && decisions[d].snapshotId in snapshots
      && versionId in snapshots[decisions[d].snapshotId].facts
  }

  function ImpactRows(decisions: map<Id, Decision>, snapshots: map<Id, Snapshot>, versionId: Id): map<Id, bool> {
    map d | d in DecisionsWith(decisions, snapshots, versionId) :: versionId in decisions[d].reliedOn
  }

  // ----- transactions -----

  datatype Action =
    | RecordVersion(factId: Id, cmd: Command, clock: Instant, newId: Id)
    | LinkEvidence(link: Link)
    | Revoke(versionId: Id, now: Instant)
    | Search(searchId: Id, context: Snapshot)
    | Capture(searchId: Id, snapshotId: Id)
    | Decide(decisionId: Id, decision: Decision, cited: seq<Id>)

  /** The rows `Record` changes: the last row, possibly closed, and the new one. */
  function WriteBack(versions: map<Id, Version>, rows: seq<Version>): map<Id, Version>
    requires rows != []
  {
    var n := |rows| - 1;
    (if n == 0 then versions else versions[rows[n - 1].id := rows[n - 1]])[rows[n].id := rows[n]]
  }

  /** What retrieval may return: stored versions that pass the SQL condition, each once. */
  predicate Retrieved(db: Db, s: Snapshot) {
    && Distinct(s.facts)
    && Stored(s.facts, db.versions)
    && (forall i :: 0 <= i < |s.facts| ==>
          && SqlValidAt(db.versions[s.facts[i]], RevokedAt(db), s.validAt, Some(s.knownAt))
          && db.versions[s.facts[i]].scope in s.scopes)
  }

  /** The row `record_decision` stores. */
  function SealedRow(db: Db, id: Id, d: Decision, cited: seq<Id>): Decision
    requires ForeignKeys(db) && d.snapshotId in db.snapshots
    requires ValidateReliedOn(cited, SetOf(db.snapshots[d.snapshotId].facts)).Ok?
  {
    var s := db.snapshots[d.snapshotId];
    var reliedOn := ValidateReliedOn(cited, SetOf(s.facts)).value;
    var row := d.(reliedOn := SetOf(reliedOn), recordedAt := db.steps);
    row.(receipt := ReceiptHash(ContentOf(db.organization, db.versions, s, id, row)))
  }

  function Step(db: Db, a: Action): Result<Db>
    requires ForeignKeys(db)
  {
    match a
    case RecordVersion(f, cmd, clock, newId) =>
      var h := Record(FactHistory(Rows(db, f), []), f, cmd, clock, newId);
      if h.Err? then Err(h.error)
      else if newId in db.versions then Err(IntegrityError)
      else Ok(db.(versions := WriteBack(db.versions, h.value.rows), chains := db.chains[f := ChainOf(db, f) + [newId]]))
    case LinkEvidence(link) =>
      if link.versionId !in db.versions then Err(NotFound)
      else Ok(db.(links := db.links + [link]))
    case Revoke(v, now) =>
      if v !in db.versions then Err(NotFound)
      else if v in db.revocations then Err(Conflict)
      else
        var impacts := ImpactRows(db.decisions, db.snapshots, v);
        Ok(db.(revocations := db.revocations[v := Revocation(now, impacts, db.steps)]))
    case Search(id, context) =>
      if id in db.pending || !Retrieved(db, context) then Err(ValidationFailed)
      else Ok(db.(pending := db.pending[id := context.(searchedAt := db.steps)]))
    case Capture(searchId, id) =>
      if searchId !in db.pending then Err(NotFound)
      else if id in db.snapshots then Err(IntegrityError)
      else Ok(db.(snapshots := db.snapshots[id := db.pending[searchId].(capturedAt := db.steps)]))
    case Decide(id, d, cited) =>
      if d.snapshotId !in db.snapshots then Err(NotFound)
      else if id in db.decisions then Err(IntegrityError)
      else
        var reliedOn := ValidateReliedOn(cited, SetOf(db.snapshots[d.snapshotId].facts));
        if reliedOn.Err? then Err(reliedOn.error)
        else Ok(db.(decisions := db.decisions[id := SealedRow(db, id, d, cited)]))
  }

  /** A rejected transaction is rolled back. */
  function Next(db: Db, a: Action): Db
    requires ForeignKeys(db)
  {
    var r := Step(db, a);
    if r.Ok? then r.value.(steps := db.steps + 1) else db
  }

  // ----- the invariant -----

  ghost predicate ChainsOk(db: Db)
    requires ForeignKeys(db)
  {
    && (forall id :: id in db.versions ==> db.versions[id].id == id)
    && (forall f :: f in db.chains ==> Chain(Rows(db, f), f))
  }

  ghost predicate ContextsOk(db: Db) {
    && (forall s :: s in db.pending ==> Distinct(db.pending[s].facts))
    && (forall s :: s in db.snapshots ==> Distinct(db.snapshots[s].facts))
  }

  ghost predicate Sealed(db: Db, id: Id)
    requires ForeignKeys(db) && id in db.decisions
  {
    var d := db.decisions[id];
    var s := db.snapshots[d.snapshotId];
    && d.receipt == ReceiptHash(ContentOf(db.organization, db.versions, s, id, d))
    && (forall v :: v in d.reliedOn ==> v in s.facts)
    && d.recordedAt < db.steps
  }

  /** The stored impact rows of a revocation are the decisions recorded before it from such a context. */
  ghost predicate ImpactExact(db: Db, v: Id)
    requires v in db.revocations
  {
    var r := db.revocations[v];
    && r.recordedAt < db.steps
    && r.impacts.Keys ==
       (set d | d in DecisionsWith(db.decisions, db.snapshots, v) && db.decisions[d].recordedAt < r.recordedAt)
    && (forall d :: d in r.impacts ==> d in db.decisions && (r.impacts[d] <==> v in db.decisions[d].reliedOn))
  }

  /** A context searched after a revocation holds the version only if it looks further back. */
  ghost predicate SearchedFresh(db: Db, s: Snapshot) {
    forall i :: && 0 <= i < |s.facts| && s.facts[i] in db.revocations
                && db.revocations[s.facts[i]].recordedAt < s.searchedAt ==>
      s.knownAt < db.revocations[s.facts[i]].revokedAt
  }

  ghost predicate Fresh(db: Db) {
    && (forall s :: s in db.pending ==> SearchedFresh(db, db.pending[s]) && db.pending[s].searchedAt < db.steps)
    && (forall s :: s in db.snapshots ==> SearchedFresh(db, db.snapshots[s]) && db.snapshots[s].searchedAt < db.steps)
    && (forall s :: s in db.snapshots ==> db.snapshots[s].capturedAt < db.steps)
  }

  ghost predicate SealsOk(db: Db)
    requires ForeignKeys(db)
  {
    forall d :: d in db.decisions ==> Sealed(db, d)
  }

  ghost predicate ImpactsOk(db: Db) {
    forall v :: v in db.revocations ==> ImpactExact(db, v)
  }

  ghost predicate Inv(db: Db) {
    && ForeignKeys(db)
    && ChainsOk(db)
    && ContextsOk(db)
    && SealsOk(db)
    && ImpactsOk(db)
    && Fresh(db)
  }

  function Empty(organization: Id): (db: Db)
    ensures Inv(db)
  {
    Db(organization, map[], map[], [], map[], map[], map[], map[], 0)
  }

  // ----- append-only: what every transaction keeps -----

  /** Equal except that an open end may have been set. */
  predicate SameRecord(a: Version, b: Version) {
    a.(validUntil := None, endRecordedAt := None) == b.(validUntil := None, endRecordedAt := None)
  }

  ghost predicate AppendOnly(a: Db, b: Db) {
    && a.organization == b.organization
    && (forall id :: id in a.versions ==> id in b.versions && SameRecord(a.versions[id], b.versions[id]))
    && (forall s :: s in a.snapshots ==> s in b.snapshots && a.snapshots[s] == b.snapshots[s])
    && (forall d :: d in a.decisions ==> d in b.decisions && a.decisions[d] == b.decisions[d])
    && (forall v :: v in a.revocations ==> v in b.revocations && a.revocations[v] == b.revocations[v])
  }

  lemma RecordRows(db: Db, f: Id, cmd: Command, clock: Instant, newId: Id)
    requires ForeignKeys(db) && ChainsOk(db)
    requires Step(db, RecordVersion(f, cmd, clock, newId)).Ok?
    ensures var before := Rows(db, f);
            var rows := Record(FactHistory(before, []), f, cmd, clock, newId).value.rows;
            var n := |before|;
            && Chain(before, f) && Extends(before, rows, f)
            && rows[n].id == newId && rows[n].recordedAt == NextTransactionTime(LastRow(before), clock)
            && (forall i :: 0 <= i < n ==> before[i].id == ChainOf(db, f)[i] == rows[i].id)
  {
    assert Chain(Rows(db, f), f);
    RecordExtends(FactHistory(Rows(db, f), []), f, cmd, clock, newId);
  }

  /** Only the new row and, when it was open, the previous last row change. */
  lemma WriteBackEffect(db: Db, f: Id, before: seq<Version>, rows: seq<Version>, id: Id)
    requires ForeignKeys(db) && ChainsOk(db) && before == Rows(db, f) && Chain(before, f) && Extends(before, rows, f)
    requires forall i :: 0 <= i < |before| ==> before[i].id == ChainOf(db, f)[i] == rows[i].id
    requires rows[|before|].id !in db.versions
    requires id in db.versions
    ensures var after := WriteBack(db.versions, rows);
            && id in after
            && (after[id] != db.versions[id] ==>
                  && db.versions[id].factId == f
                  && db.versions[id].endRecordedAt.None? && db.versions[id].validUntil.None?
                  && SameRecord(db.versions[id], after[id])
                  && after[id].endRecordedAt == Some(rows[|before|].recordedAt))
  {
  }

  /** What `RecordVersion` does to one stored version. */
  lemma RecordVersionKept(db: Db, f: Id, cmd: Command, clock: Instant, newId: Id, id: Id)
    requires ForeignKeys(db) && ChainsOk(db) && id in db.versions
    requires Step(db, RecordVersion(f, cmd, clock, newId)).Ok?
    ensures var after := Step(db, RecordVersion(f, cmd, clock, newId)).value;
            var at := NextTransactionTime(LastRow(Rows(db, f)), clock);
            && id in after.versions && SameRecord(db.versions[id], after.versions[id])
            && (after.versions[id] != db.versions[id] ==>
                  && db.versions[id].factId == f
                  && db.versions[id].endRecordedAt.None? && db.versions[id].validUntil.None?
                  && after.versions[id].endRecordedAt == Some(at))
  {
    var before := Rows(db, f);
    RecordRows(db, f, cmd, clock, newId);
    WriteBackEffect(db, f, before, Record(FactHistory(before, []), f, cmd, clock, newId).value.rows, id);
  }

  /** What `RecordVersion` does to the stored versions. */
  lemma RecordVersions(db: Db, f: Id, cmd: Command, clock: Instant, newId: Id)
    requires ForeignKeys(db) && ChainsOk(db)
    requires Step(db, RecordVersion(f, cmd, clock, newId)).Ok?
    ensures var after := Step(db, RecordVersion(f, cmd, clock, newId)).value;
            var at := NextTransactionTime(LastRow(Rows(db, f)), clock);
            && ForeignKeys(after)
            && AppendOnly(db, after)
            && (forall id :: id in db.versions && after.versions[id] != db.versions[id] ==>
                  && db.versions[id].factId == f
                  && db.versions[id].endRecordedAt.None? && db.versions[id].validUntil.None?
                  && after.versions[id].endRecordedAt == Some(at))
  {
    var after := Step(db, RecordVersion(f, cmd, clock, newId)).value;
    var at := NextTransactionTime(LastRow(Rows(db, f)), clock);
    forall id | id in db.versions
      ensures id in after.versions && SameRecord(db.versions[id], after.versions[id])
      ensures after.versions[id] != db.versions[id] ==>
                db.versions[id].factId == f &&
                db.versions[id].endRecordedAt.None? && db.versions[id].validUntil.None? &&
                after.versions[id].endRecordedAt == Some(at)
    {
      RecordVersionKept(db, f, cmd, clock, newId, id);
    }
    RecordKeepsForeignKeys(db, f, cmd, clock, newId);
  }

  lemma RecordKeepsForeignKeys(db: Db, f: Id, cmd: Command, clock: Instant, newId: Id)
    requires ForeignKeys(db) && ChainsOk(db)
    requires Step(db, RecordVersion(f, cmd, clock, newId)).Ok?
    ensures ForeignKeys(Step(db, RecordVersion(f, cmd, clock, newId)).value)
  {
    RecordRows(db, f, cmd, clock, newId);
  }

  /** What `RecordVersion` does to the chains: it extends one and leaves the others alone. */
  lemma RecordEffect(db: Db, f: Id, cmd: Command, clock: Instant, newId: Id)
    requires ForeignKeys(db) && ChainsOk(db)
    requires Step(db, RecordVersion(f, cmd, clock, newId)).Ok?
    ensures var after := Step(db, RecordVersion(f, cmd, clock, newId)).value;
            && ForeignKeys(after)
            && Rows(after, f) == Record(FactHistory(Rows(db, f), []), f, cmd, clock, newId).value.rows
            && (forall g :: g != f ==> Rows(after, g) == Rows(db, g))
  {
    RecordVersions(db, f, cmd, clock, newId);
    RecordRows(db, f, cmd, clock, newId);
    var before := Rows(db, f);
    var after := Step(db, RecordVersion(f, cmd, clock, newId)).value;
    RowsWritten(db, f, before, Record(FactHistory(before, []), f, cmd, clock, newId).value.rows, after);
    forall g | g != f ensures Rows(after, g) == Rows(db, g) {
      OtherRows(db, after, f, g);
    }
  }

  lemma OtherRows(db: Db, after: Db, f: Id, g: Id)
    requires ForeignKeys(db) && ChainsOk(db) && ForeignKeys(after) && f != g && ChainOf(db, g) == ChainOf(after, g)
    requires forall id :: id in db.versions ==>
               id in after.versions && (after.versions[id] != db.versions[id] ==> db.versions[id].factId == f)
    ensures Rows(after, g) == Rows(db, g)
  {
  }

  lemma RowsWritten(db: Db, f: Id, before: seq<Version>, rows: seq<Version>, after: Db)
    requires ForeignKeys(db) && before == Rows(db, f) && Chain(before, f) && Extends(before, rows, f)
    requires forall i :: 0 <= i < |before| ==> before[i].id == ChainOf(db, f)[i] == rows[i].id
    requires after.versions == WriteBack(db.versions, rows)
    requires ChainOf(after, f) == ChainOf(db, f) + [rows[|before|].id]
    requires Stored(ChainOf(after, f), after.versions)
    ensures Rows(after, f) == rows
  {
  }

  lemma RecordKeepsChains(db: Db, f: Id, cmd: Command, clock: Instant, newId: Id)
    requires ForeignKeys(db) && ChainsOk(db)
    requires Step(db, RecordVersion(f, cmd, clock, newId)).Ok?
    ensures var after := Step(db, RecordVersion(f, cmd, clock, newId)).value;
            ForeignKeys(after) && ChainsOk(after)
  {
    RecordEffect(db, f, cmd, clock, newId);
    RecordVersions(db, f, cmd, clock, newId);
    RecordRows(db, f, cmd, clock, newId);
    var after := Step(db, RecordVersion(f, cmd, clock, newId)).value;
    ExtendsKeepsChain(Rows(db, f), Rows(after, f), f);
    OneChainExtended(db, after, f);
    RecordKeepsIds(db, f, cmd, clock, newId);
  }

  lemma OneChainExtended(db: Db, after: Db, f: Id)
    requires ForeignKeys(db) && ForeignKeys(after) && after.chains.Keys == db.chains.Keys + {f}
    requires forall g :: g in db.chains ==> Chain(Rows(db, g), g)
    requires Chain(Rows(after, f), f) && forall g :: g != f ==> Rows(after, g) == Rows(db, g)
    ensures forall g :: g in after.chains ==> Chain(Rows(after, g), g)
  {
  }

  lemma RecordKeepsIds(db: Db, f: Id, cmd: Command, clock: Instant, newId: Id)
    requires ForeignKeys(db) && ChainsOk(db)
    requires Step(db, RecordVersion(f, cmd, clock, newId)).Ok?
    ensures var after := Step(db, RecordVersion(f, cmd, clock, newId)).value;
            forall id :: id in after.versions ==> after.versions[id].id == id
  {
  }

  /** Transactions other than a version write leave the ledger rows alone. */
  lemma LedgerUntouched(db: Db, a: Action)
    requires ForeignKeys(db) && !a.RecordVersion?
    ensures Next(db, a).versions == db.versions && Next(db, a).chains == db.chains
  {
  }

  lemma TablesAppend(db: Db, a: Action)
    requires ForeignKeys(db) && !a.RecordVersion?
    ensures AppendOnly(db, Next(db, a))
  {
    LedgerUntouched(db, a);
    ContextsAppended(db, a);
    VerdictsAppended(db, a);
  }

  lemma ContextsAppended(db: Db, a: Action)
    requires ForeignKeys(db)
    ensures Next(db, a).organization == db.organization
    ensures forall s :: s in db.snapshots ==> s in Next(db, a).snapshots && db.snapshots[s] == Next(db, a).snapshots[s]
  {
  }

  lemma VerdictsAppended(db: Db, a: Action)
    requires ForeignKeys(db)
    ensures forall d :: d in db.decisions ==> d in Next(db, a).decisions && db.decisions[d] == Next(db, a).decisions[d]
    ensures forall v :: v in db.revocations ==>
            v in Next(db, a).revocations && db.revocations[v] == Next(db, a).revocations[v]
  {
  }

  lemma TablesKeepForeignKeys(db: Db, a: Action)
    requires ForeignKeys(db) && !a.RecordVersion?
    ensures ForeignKeys(Next(db, a))
  {
  }

  lemma StepAppends(db: Db, a: Action)
    requires ForeignKeys(db) && ChainsOk(db)
    ensures ForeignKeys(Next(db, a)) && ChainsOk(Next(db, a)) && AppendOnly(db, Next(db, a))
    ensures db.steps <= Next(db, a).steps
  {
    var after := Next(db, a);
    if a.RecordVersion? {
      if Step(db, a).Ok? {
        RecordVersions(db, a.factId, a.cmd, a.clock, a.newId);
        RecordKeepsChains(db, a.factId, a.cmd, a.clock, a.newId);
        SameLedger(Step(db, a).value, after);
      }
    } else {
      LedgerUntouched(db, a);
      TablesAppend(db, a);
      TablesKeepForeignKeys(db, a);
      SameLedger(db, after);
    }
  }

  lemma SameLedger(a: Db, b: Db)
    requires a.versions == b.versions && a.chains == b.chains && ForeignKeys(a) && ForeignKeys(b)
    ensures forall f :: Rows(a, f) == Rows(b, f)
    ensures ChainsOk(a) ==> ChainsOk(b)
  {
  }

  lemma ContentKept(a: Db, b: Db, id: Id)
    requires ForeignKeys(a) && ForeignKeys(b) && AppendOnly(a, b) && id in a.decisions
    ensures var d := a.decisions[id];
            b.decisions[id] == d && b.snapshots[d.snapshotId] == a.snapshots[d.snapshotId] &&
            ContentOf(b.organization, b.versions, b.snapshots[d.snapshotId], id, d)
            == ContentOf(a.organization, a.versions, a.snapshots[d.snapshotId], id, d)
  {
  }

  lemma StepKeepsSeals(db: Db, a: Action)
    requires ForeignKeys(db) && SealsOk(db)
    requires ForeignKeys(Next(db, a)) && AppendOnly(db, Next(db, a)) && db.steps <= Next(db, a).steps
    ensures SealsOk(Next(db, a))
  {
    var after := Next(db, a);
    forall d | d in after.decisions ensures Sealed(after, d) {
      if d in db.decisions {
        assert Sealed(db, d);
        ContentKept(db, after, d);
      } else {
        NewDecisionSealed(db, a, d);
      }
    }
  }

  lemma NewDecisionSealed(db: Db, a: Action, d: Id)
    requires ForeignKeys(db) && ForeignKeys(Next(db, a)) && d in Next(db, a).decisions && d !in db.decisions
    ensures Sealed(Next(db, a), d)
  {
    var s := db.snapshots[a.decision.snapshotId];
    CitedInContext(a.cited, s.facts);
    SealIgnoresStamps(db, Next(db, a), s, d);
  }

  lemma CitedInContext(cited: seq<Id>, facts: seq<Id>)
    ensures var r := ValidateReliedOn(cited, SetOf(facts));
            r.Ok? ==> forall v :: v in r.value ==> v in facts
  {
    var inContext := SetOf(facts);
    ValidateReliedOnExact(cited, inContext);
    var r := ValidateReliedOn(cited, inContext);
    if r.Ok? {
      forall v | v in r.value ensures v in facts {
        assert v in multiset(r.value);
        assert v in cited;
      }
    }
  }

  /** The hash does not cover itself nor the ordering stamp. */
  lemma SealIgnoresStamps(db: Db, after: Db, s: Snapshot, id: Id)
    requires ForeignKeys(db) && ForeignKeys(after) && db.versions == after.versions
             && db.organization == after.organization
    requires id in after.decisions && Stored(s.facts, db.versions)
    ensures forall h ::
              ContentOf(db.organization, db.versions, s, id, after.decisions[id].(receipt := h))
              == ContentOf(after.organization, after.versions, s, id, after.decisions[id])
  {
  }

  lemma ContextsKept(a: Db, b: Db, v: Id)
    requires ForeignKeys(a) && AppendOnly(a, b)
    ensures forall d :: d in a.decisions ==>
              (d in DecisionsWith(b.decisions, b.snapshots, v) <==> d in DecisionsWith(a.decisions, a.snapshots, v))
  {
  }

  /** New decisions carry the current stamp, so an older revocation keeps its impact rows. */
  lemma ImpactKept(a: Db, b: Db, v: Id)
    requires ForeignKeys(a) && AppendOnly(a, b) && a.steps <= b.steps
    requires forall d :: d in b.decisions && d !in a.decisions ==> b.decisions[d].recordedAt == a.steps
    requires v in a.revocations && ImpactExact(a, v)
    ensures ImpactExact(b, v)
  {
    ContextsKept(a, b, v);
    var r := b.revocations[v];
    var stored := set d | d in DecisionsWith(a.decisions, a.snapshots, v) && a.decisions[d].recordedAt < r.recordedAt;
    var now := set d | d in DecisionsWith(b.decisions, b.snapshots, v) && b.decisions[d].recordedAt < r.recordedAt;
    forall d ensures d in stored <==> d in now {
    }
    assert stored == now;
  }

  lemma StepKeepsImpacts(db: Db, a: Action, after: Db)
    requires ForeignKeys(db) && SealsOk(db) && ImpactsOk(db)
    requires AppendOnly(db, after) && after == Next(db, a)
    ensures ImpactsOk(after)
  {
    StepTables(db, a);
    forall v | v in after.revocations ensures ImpactExact(after, v) {
      if v in db.revocations {
        ImpactKept(db, after, v);
      } else {
        assert forall d :: d in db.decisions ==> Sealed(db, d);
        ImpactStored(db, v, a.now);
      }
    }
  }

  /** A new revocation stores every decision that has the version in context so far. */
  lemma ImpactStored(db: Db, v: Id, now: Instant)
    requires forall d :: d in db.decisions ==> db.decisions[d].recordedAt < db.steps
    ensures var r := Revocation(now, ImpactRows(db.decisions, db.snapshots, v), db.steps);
            ImpactExact(db.(revocations := db.revocations[v := r], steps := db.steps + 1), v)
  {
  }

  lemma SearchIsFresh(db: Db, s: Snapshot)
    requires ForeignKeys(db) && ChainsOk(db) && Retrieved(db, s)
    ensures SearchedFresh(db, s.(searchedAt := db.steps))
  {
  }

  /** Contexts that were there before, in a state with at most newer revocations. */
  lemma ContextsStayFresh(a: Db, b: Db)
    requires AppendOnly(a, b) && Fresh(a) && a.steps <= b.steps
    requires forall v :: v in b.revocations && v !in a.revocations ==> b.revocations[v].recordedAt == a.steps
    ensures forall s :: s in a.pending ==> SearchedFresh(b, a.pending[s]) && a.pending[s].searchedAt < b.steps
    ensures forall s :: s in a.snapshots ==> SearchedFresh(b, a.snapshots[s]) && a.snapshots[s].searchedAt < b.steps
  {
  }

  /** Which tables a transaction may touch, and the stamp new rows carry. */
  lemma StepTables(db: Db, a: Action)
    requires ForeignKeys(db)
    ensures var after := Next(db, a);
            && db.steps <= after.steps
            && (after.pending == db.pending
                || (a.Search? && Retrieved(db, a.context) && db.steps < after.steps
                    && after.pending == db.pending[a.searchId := a.context.(searchedAt := db.steps)]))
            && (after.snapshots == db.snapshots
                || (a.Capture? && a.searchId in db.pending && db.steps < after.steps
                    && after.snapshots == db.snapshots[a.snapshotId :=
                       db.pending[a.searchId].(capturedAt := db.steps)]))
            && (after.revocations == db.revocations
                || (a.Revoke? && a.versionId !in db.revocations
                    && after == db.(revocations := after.revocations, steps := db.steps + 1)
                    && after.revocations == db.revocations[a.versionId :=
                         Revocation(a.now, ImpactRows(db.decisions, db.snapshots, a.versionId), db.steps)]))
            && (forall d :: d in after.decisions && d !in db.decisions ==> after.decisions[d].recordedAt == db.steps)
  {
  }

  lemma PendingStayFresh(db: Db, a: Action, after: Db)
    requires ForeignKeys(db) && ChainsOk(db) && Fresh(db) && AppendOnly(db, after) && after == Next(db, a)
    ensures forall s :: s in after.pending ==>
            SearchedFresh(after, after.pending[s]) && after.pending[s].searchedAt < after.steps
  {
    StepTables(db, a);
    ContextsStayFresh(db, after);
    if a.Search? && Retrieved(db, a.context) {
      SearchIsFresh(db, a.context);
    }
  }

  lemma SnapshotsStayFresh(db: Db, a: Action, after: Db)
    requires ForeignKeys(db) && Fresh(db) && AppendOnly(db, after) && after == Next(db, a)
    ensures forall s :: s in after.snapshots ==>
              && SearchedFresh(after, after.snapshots[s]) && after.snapshots[s].searchedAt < after.steps
              && after.snapshots[s].capturedAt < after.steps
  {
    StepTables(db, a);
    ContextsStayFresh(db, after);
  }

  lemma StepKeepsFresh(db: Db, a: Action, after: Db)
    requires ForeignKeys(db) && ChainsOk(db) && Fresh(db) && AppendOnly(db, after) && after == Next(db, a)
    ensures Fresh(after)
  {
    PendingStayFresh(db, a, after);
    SnapshotsStayFresh(db, a, after);
  }

  lemma StepKeepsContexts(db: Db, a: Action)
    requires ForeignKeys(db) && ContextsOk(db)
    ensures ContextsOk(Next(db, a))
  {
  }

  lemma StepKeepsInv(db: Db, a: Action)
    requires Inv(db)
    ensures Inv(Next(db, a)) && AppendOnly(db, Next(db, a))
  {
    StepAppends(db, a);
    StepKeepsContexts(db, a);
    StepKeepsSeals(db, a);
    StepKeepsImpacts(db, a, Next(db, a));
    StepKeepsFresh(db, a, Next(db, a));
  }

  // ----- runs -----

  /** Any sequence of transactions keeps the invariant. */
  ghost function Run(db: Db, actions: seq<Action>): (after: Db)
    requires Inv(db)
    ensures Inv(after) && AppendOnly(db, after)
    decreases |actions|
  {
    if actions == [] then db
    else
      StepKeepsInv(db, actions[0]);
      Run(Next(db, actions[0]), actions[1..])
  }

  /** The transaction happens after knowledge instant k. */
  ghost predicate Later(db: Db, a: Action, k: Instant)
    requires ForeignKeys(db)
  {
    match a
    case RecordVersion(f, _, clock, _) => k < NextTransactionTime(LastRow(Rows(db, f)), clock)
    case LinkEvidence(link) => k < link.linkedAt
    case Revoke(_, now) => k < now
    case _ => true
  }

  ghost predicate AllLater(db: Db, actions: seq<Action>, k: Instant)
    requires Inv(db)
    decreases |actions|
  {
    actions == [] ||
    (StepKeepsInv(db, actions[0]);
     Later(db, actions[0], k) && AllLater(Next(db, actions[0]), actions[1..], k))
  }

  function LinksKnown(links: seq<Link>, k: Instant): seq<Link> {
    if links == [] then []
    else LinksKnown(links[..|links| - 1], k) + (if links[|links| - 1].linkedAt <= k then [links[|links| - 1]] else [])
  }

  /** Two states that agree on everything known at k. */
  ghost predicate KnownSame(a: Db, b: Db, k: Instant)
    requires ForeignKeys(a) && ForeignKeys(b)
  {
    && (forall id :: id in a.versions ==>
          id in b.versions && AsKnown(a.versions[id], Some(k)) == AsKnown(b.versions[id], Some(k)))
    && (forall f :: History(Rows(a, f), Some(k)) == History(Rows(b, f), Some(k)))
    && LinksKnown(a.links, k) == LinksKnown(b.links, k)
    && (forall v :: v in b.revocations && b.revocations[v].revokedAt <= k ==> v in a.revocations)
  }

  /** Version rows look the same from k once the only change to them is an end learned after k. */
  lemma VersionsKnownSame(db: Db, f: Id, cmd: Command, clock: Instant, newId: Id, k: Instant, id: Id)
    requires ForeignKeys(db) && ChainsOk(db) && Later(db, RecordVersion(f, cmd, clock, newId), k)
    requires Step(db, RecordVersion(f, cmd, clock, newId)).Ok?
    requires id in db.versions
    ensures var after := Step(db, RecordVersion(f, cmd, clock, newId)).value;
            id in after.versions && AsKnown(db.versions[id], Some(k)) == AsKnown(after.versions[id], Some(k))
  {
    RecordVersions(db, f, cmd, clock, newId);
    var after := Step(db, RecordVersion(f, cmd, clock, newId)).value;
    assert SameRecord(db.versions[id], after.versions[id]);
  }

  lemma RecordIsLater(db: Db, f: Id, cmd: Command, clock: Instant, newId: Id, k: Instant)
    requires ForeignKeys(db) && ChainsOk(db) && Later(db, RecordVersion(f, cmd, clock, newId), k)
    requires Step(db, RecordVersion(f, cmd, clock, newId)).Ok?
    ensures ForeignKeys(Step(db, RecordVersion(f, cmd, clock, newId)).value)
    ensures KnownSame(db, Step(db, RecordVersion(f, cmd, clock, newId)).value, k)
  {
    var after := Step(db, RecordVersion(f, cmd, clock, newId)).value;
    RecordKeepsChains(db, f, cmd, clock, newId);
    forall id | id in db.versions
      ensures id in after.versions && AsKnown(db.versions[id], Some(k)) == AsKnown(after.versions[id], Some(k))
    {
      VersionsKnownSame(db, f, cmd, clock, newId, k, id);
    }
    forall g ensures History(Rows(db, g), Some(k)) == History(Rows(after, g), Some(k)) {
      HistoriesKnownSame(db, f, cmd, clock, newId, k, g);
    }
  }

  lemma HistoriesKnownSame(db: Db, f: Id, cmd: Command, clock: Instant, newId: Id, k: Instant, g: Id)
    requires ForeignKeys(db) && ChainsOk(db) && Later(db, RecordVersion(f, cmd, clock, newId), k)
    requires Step(db, RecordVersion(f, cmd, clock, newId)).Ok?
    ensures var after := Step(db, RecordVersion(f, cmd, clock, newId)).value;
            ForeignKeys(after) && History(Rows(db, g), Some(k)) == History(Rows(after, g), Some(k))
  {
    RecordEffect(db, f, cmd, clock, newId);
    if g == f {
      var after := Step(db, RecordVersion(f, cmd, clock, newId)).value;
      RecordRows(db, f, cmd, clock, newId);
      ExtendsKeepsChain(Rows(db, f), Rows(after, f), f);
      ExtendsIsNews(Rows(db, f), Rows(after, f), f, k);
    }
  }

  lemma LaterKeepsKnown(db: Db, a: Action, k: Instant)
    requires ForeignKeys(db) && ChainsOk(db) && Later(db, a, k)
    ensures ForeignKeys(Next(db, a)) && KnownSame(db, Next(db, a), k)
  {
    if a.RecordVersion? {
      RecordKeepsKnown(db, a, k);
    } else {
      OthersKeepKnown(db, a, k);
    }
  }

  lemma RecordKeepsKnown(db: Db, a: Action, k: Instant)
    requires ForeignKeys(db) && ChainsOk(db) && Later(db, a, k) && a.RecordVersion?
    ensures ForeignKeys(Next(db, a)) && KnownSame(db, Next(db, a), k)
  {
    if Step(db, a).Ok? {
      RecordIsLater(db, a.factId, a.cmd, a.clock, a.newId, k);
      SameLedger(Step(db, a).value, Next(db, a));
    }
  }

  lemma OthersKeepKnown(db: Db, a: Action, k: Instant)
    requires ForeignKeys(db) && ChainsOk(db) && Later(db, a, k) && !a.RecordVersion?
    ensures ForeignKeys(Next(db, a)) && KnownSame(db, Next(db, a), k)
  {
    LedgerUntouched(db, a);
    TablesKeepForeignKeys(db, a);
    SameLedger(db, Next(db, a));
    LinksKeepKnown(db, a, k);
    StepTables(db, a);
  }

  lemma LinksKeepKnown(db: Db, a: Action, k: Instant)
    requires ForeignKeys(db) && Later(db, a, k)
    ensures LinksKnown(db.links, k) == LinksKnown(Next(db, a).links, k)
  {
  }

  lemma {:induction false} RunKeepsKnown(db: Db, actions: seq<Action>, k: Instant)
    requires Inv(db) && AllLater(db, actions, k)
    ensures KnownSame(db, Run(db, actions), k)
    decreases |actions|
  {
    if actions != [] {
      StepKeepsInv(db, actions[0]);
      LaterKeepsKnown(db, actions[0], k);
      RunKeepsKnown(Next(db, actions[0]), actions[1..], k);
      KnownSameTransitive(db, Next(db, actions[0]), Run(db, actions), k);
    }
  }

  lemma KnownSameTransitive(a: Db, b: Db, c: Db, k: Instant)
    requires ForeignKeys(a) && ForeignKeys(b) && ForeignKeys(c)
    requires KnownSame(a, b, k) && KnownSame(b, c, k) && AppendOnly(b, c)
    ensures KnownSame(a, c, k)
  {
  }

  /** "Valid at t as known at k", as the SQL reader answers it: each row as it looked at k. */
  function AnswerAt(db: Db, f: Id, t: Instant, k: Instant): seq<Version>
    requires Stored(ChainOf(db, f), db.versions)
  {
    var rows := SqlRows(Rows(db, f), RevokedAt(db), t, Some(k));
    seq(|rows|, i requires 0 <= i < |rows| => AsKnown(rows[i], Some(k)))
  }

  lemma AnswerIsResolved(db: Db, f: Id, t: Instant, k: Instant)
    requires ForeignKeys(db) && ChainsOk(db)
    ensures Resolve(Rows(db, f), t, Some(k)).Ok?
    ensures AnswerAt(db, f, t, k) ==
            match Resolve(Rows(db, f), t, Some(k)).value
            case None => []
            case Some(v) => if NotRevoked(v, RevokedAt(db), Some(k)) then [v] else []
  {
    assert Chain(Rows(db, f), f);
    SqlRefinesReference(Rows(db, f), f, RevokedAt(db), t, Some(k));
    var sql := SqlRows(Rows(db, f), RevokedAt(db), t, Some(k));
    if sql != [] {
      assert sql == [sql[0]];
    }
  }

  /**
   Time travel is stable: over every run whose transactions happen after k, the answer
   "valid at t as known at k" never changes, for any fact and any t.
   */
  lemma TimeTravelStable(db: Db, actions: seq<Action>, f: Id, t: Instant, k: Instant)
    requires Inv(db) && AllLater(db, actions, k)
    ensures AnswerAt(Run(db, actions), f, t, k) == AnswerAt(db, f, t, k)
  {
    var after := Run(db, actions);
    RunKeepsKnown(db, actions, k);
    AnswerIsResolved(db, f, t, k);
    AnswerIsResolved(after, f, t, k);
    assert Resolve(Rows(db, f), t, Some(k)) == Resolve(Rows(after, f), t, Some(k)) by {
      assert History(Rows(db, f), Some(k)) == History(Rows(after, f), Some(k));
    }
    var r := Resolve(Rows(db, f), t, Some(k)).value;
    if r.Some? {
      RevocationsKnownSame(db, after, k, r.value);
    }
  }

  lemma RevocationsKnownSame(a: Db, b: Db, k: Instant, v: Version)
    requires ForeignKeys(a) && ForeignKeys(b) && KnownSame(a, b, k) && AppendOnly(a, b)
    ensures NotRevoked(v, RevokedAt(a), Some(k)) == NotRevoked(v, RevokedAt(b), Some(k))
  {
  }

  // ----- reading a receipt -----

  datatype ReceiptFact = ReceiptFact(
    versionId: Id,
    position: nat,
    reliedOn: bool,
    redacted: bool,
    scope: PrivacyScope,
    version: Option<Version>,
    evidence: seq<Link>,
    revokedAt: Option<Instant>)

  datatype Receipt = Receipt(facts: seq<ReceiptFact>, receipt: Sha256<Document>, integrityVerified: bool)

  /** Evidence linked by `k` that the reader may see. */
  function ShownLinks(links: seq<Link>, versionId: Id, k: Instant, visible: set<PrivacyScope>): seq<Link> {
    if links == [] then []
    else
      var link := links[|links| - 1];
      ShownLinks(links[..|links| - 1], versionId, k, visible) +
      (if link.versionId == versionId && link.linkedAt <= k && link.scope in visible then [link] else [])
  }

  /** `ORDER BY linked_at, captured_at, id`. */
  predicate LinkLe(a: Link, b: Link) {
    || a.linkedAt < b.linkedAt
    || (a.linkedAt == b.linkedAt && a.capturedAt < b.capturedAt)
    || (a.linkedAt == b.linkedAt && a.capturedAt == b.capturedAt && a.evidenceId <= b.evidenceId)
  }

  function EvidenceFor(links: seq<Link>, versionId: Id, k: Instant, visible: set<PrivacyScope>): seq<Link> {
    SortBy(ShownLinks(links, versionId, k, visible), LinkLe)
  }

  function FactOf(db: Db, s: Snapshot, d: Decision, i: nat, visible: set<PrivacyScope>): ReceiptFact
    requires i < |s.facts| && Stored(s.facts, db.versions)
  {
    var id := s.facts[i];
    var v := db.versions[id];
    if v.scope !in visible
    then ReceiptFact(id, i + 1, id in d.reliedOn, true, v.scope, None, [], None)
    else ReceiptFact(
           id, i + 1, id in d.reliedOn, false, v.scope,
           Some(AsKnown(v, Some(s.knownAt))),
           EvidenceFor(db.links, id, s.knownAt, visible),
           if id in db.revocations then Some(db.revocations[id].revokedAt) else None)
  }

  /** The list is exactly the evidence linked by `k` that the reader may see, oldest link first. */
  lemma EvidenceListed(links: seq<Link>, versionId: Id, k: Instant, visible: set<PrivacyScope>)
    ensures var list := EvidenceFor(links, versionId, k, visible);
            forall i, j :: 0 <= i < j < |list| ==>
              || list[i].linkedAt < list[j].linkedAt
              || (list[i].linkedAt == list[j].linkedAt && list[i].capturedAt < list[j].capturedAt)
              || (list[i].linkedAt == list[j].linkedAt && list[i].capturedAt == list[j].capturedAt
                  && list[i].evidenceId <= list[j].evidenceId)
    ensures forall l :: l in EvidenceFor(links, versionId, k, visible) <==>
              l in links && l.versionId == versionId && l.linkedAt <= k && l.scope in visible
  {
    var shown := ShownLinks(links, versionId, k, visible);
    SortSorts(shown, LinkLe);
    SortKeepsElements(shown, LinkLe);
    SameElements(SortBy(shown, LinkLe), shown);
    ShownLinksMembers(links, versionId, k, visible);
  }

  lemma {:induction false} ShownLinksMembers(links: seq<Link>, versionId: Id, k: Instant, visible: set<PrivacyScope>)
    ensures forall l :: l in ShownLinks(links, versionId, k, visible) <==>
              l in links && l.versionId == versionId && l.linkedAt <= k && l.scope in visible
  {
    if links != [] {
      ShownLinksMembers(links[..|links| - 1], versionId, k, visible);
      assert links == links[..|links| - 1] + [links[|links| - 1]];
    }
  }

  /** A recorded decision re-verifies in every later state: nothing its hash covers ever changes. */
  lemma ReceiptReverifies(db: Db, actions: seq<Action>, id: Id)
    requires Inv(db) && id in db.decisions
    ensures var after := Run(db, actions);
            var d := db.decisions[id];
            var s := db.snapshots[d.snapshotId];
            && id in after.decisions && after.decisions[id] == d
            && d.snapshotId in after.snapshots && after.snapshots[d.snapshotId] == s
            && d.receipt == ReceiptHash(ContentOf(after.organization, after.versions, s, id, d))
  {
    assert Sealed(Run(db, actions), id);
  }

  // ----- what the seal covers -----

  /**
   The sealed document holds the stored columns, each under its own name, and one entry per fact in
   position order.
   */
  lemma SealedDocument(organization: Id, versions: map<Id, Version>, s: Snapshot, id: Id, d: Decision)
    requires Stored(s.facts, versions)
    ensures var doc := ReceiptHash(ContentOf(organization, versions, s, id, d)).preimage;
            && doc.organizationId == organization
            && doc.decision.id == id && doc.decision.decidedAt == d.decidedAt && doc.decision.decidedBy == d.decidedBy
            && doc.decision.agent == d.agent && doc.decision.action == d.action
            && doc.decision.outcome == d.outcome && doc.decision.rationale == d.rationale
            && doc.context.snapshotId == d.snapshotId && doc.context.query == s.query
            && doc.context.validAt == s.validAt && doc.context.knownAt == s.knownAt
            && doc.context.embeddingModel == s.embeddingModel && doc.context.vectorSearch == s.vectorSearch
            && multiset(doc.context.scopes) == multiset(s.scopes) && SortedBy(doc.context.scopes, ScopeLe)
            && |doc.facts| == |s.facts|
            && (forall i :: 0 <= i < |s.facts| ==>
                  && doc.facts[i].entry.versionId == s.facts[i] && doc.facts[i].entry.position == i + 1
                  && doc.facts[i].entry.digest == Sha256(versions[s.facts[i]].value)
                  && (doc.facts[i].reliedOn <==> s.facts[i] in d.reliedOn))
  {
    var entries := Entries(versions, s.facts);
    SortOfSorted(entries, PositionLe);
    SortKeepsElements(s.scopes, ScopeLe);
    SortSorts(s.scopes, ScopeLe);
  }

  /** A stored decision with what its seal is computed from. */
  datatype Recorded = Recorded(organization: Id, versions: map<Id, Version>, snapshot: Snapshot, id: Id,
    decision: Decision)

  ghost predicate Legal(r: Recorded) {
    && Stored(r.snapshot.facts, r.versions)
    && forall v :: v in r.decision.reliedOn ==> v in r.snapshot.facts
  }

  function SealOf(r: Recorded): Sha256<Document>
    requires Stored(r.snapshot.facts, r.versions)
  {
    ReceiptHash(ContentOf(r.organization, r.versions, r.snapshot, r.id, r.decision))
  }

  ghost predicate SameDecisionColumns(a: Recorded, b: Recorded) {
    var d, e := a.decision, b.decision;
    && a.organization == b.organization && a.id == b.id
    && d.snapshotId == e.snapshotId && d.decidedAt == e.decidedAt && d.decidedBy == e.decidedBy && d.agent == e.agent
    && d.action == e.action && d.outcome == e.outcome && d.rationale == e.rationale
  }

  ghost predicate SameSnapshotColumns(a: Recorded, b: Recorded) {
    var s, t := a.snapshot, b.snapshot;
    && s.query == t.query && s.validAt == t.validAt && s.knownAt == t.knownAt
    && s.embeddingModel == t.embeddingModel && s.vectorSearch == t.vectorSearch
    && multiset(s.scopes) == multiset(t.scopes)
  }

  /** The same facts in the same positions, with the same values and citations. */
  ghost predicate SameFacts(a: Recorded, b: Recorded)
    requires Legal(a) && Legal(b)
  {
    var facts := a.snapshot.facts;
    && facts == b.snapshot.facts && a.decision.reliedOn == b.decision.reliedOn
    && forall i :: 0 <= i < |facts| ==> a.versions[facts[i]].value == b.versions[facts[i]].value
  }

  lemma SameSealSameFacts(a: Recorded, b: Recorded)
    requires Legal(a) && Legal(b) && SealOf(a) == SealOf(b)
    ensures SameFacts(a, b)
  {
    SealedDocument(a.organization, a.versions, a.snapshot, a.id, a.decision);
    SealedDocument(b.organization, b.versions, b.snapshot, b.id, b.decision);
    assert a.snapshot.facts == b.snapshot.facts;
    forall v ensures v in a.decision.reliedOn <==> v in b.decision.reliedOn {
      if v in a.snapshot.facts {
        var i :| 0 <= i < |a.snapshot.facts| && a.snapshot.facts[i] == v;
      }
    }
  }

  lemma SameSealSameColumns(a: Recorded, b: Recorded)
    requires Legal(a) && Legal(b) && SealOf(a) == SealOf(b)
    ensures SameDecisionColumns(a, b) && SameSnapshotColumns(a, b)
  {
    SealedDocument(a.organization, a.versions, a.snapshot, a.id, a.decision);
    SealedDocument(b.organization, b.versions, b.snapshot, b.id, b.decision);
  }

  lemma SameColumnsSameSeal(a: Recorded, b: Recorded)
    requires Legal(a) && Legal(b) && SameDecisionColumns(a, b) && SameSnapshotColumns(a, b) && SameFacts(a, b)
    ensures SealOf(a) == SealOf(b)
  {
    assert Entries(a.versions, a.snapshot.facts) == Entries(b.versions, b.snapshot.facts);
    SortIgnoresOrder(a.snapshot.scopes, b.snapshot.scopes, ScopeLe);
  }

  /** Changing any stored column the seal is about changes the receipt hash, and nothing else does. */
  lemma SealCoversColumns(a: Recorded, b: Recorded)
    requires Legal(a) && Legal(b)
    ensures SealOf(a) == SealOf(b) <==> SameDecisionColumns(a, b) && SameSnapshotColumns(a, b) && SameFacts(a, b)
  {
    if SealOf(a) == SealOf(b) {
      SameSealSameColumns(a, b);
      SameSealSameFacts(a, b);
    } else if SameDecisionColumns(a, b) && SameSnapshotColumns(a, b) && SameFacts(a, b) {
      SameColumnsSameSeal(a, b);
    }
  }

  // ----- when a receipt shows what was captured -----

  /** A fact of a context is shown alike in two states; only the "revoked since" mark may differ. */
  ghost predicate ShownAlike(a: Db, b: Db, s: Snapshot, d: Decision, i: nat, visible: set<PrivacyScope>)
    requires i < |s.facts| && Stored(s.facts, a.versions) && Stored(s.facts, b.versions)
  {
    FactOf(a, s, d, i, visible).(revokedAt := None) == FactOf(b, s, d, i, visible).(revokedAt := None)
  }

  /** An accepted write that ends the open version v, at a transaction time no later than k. */
  ghost predicate Ends(db: Db, a: Action, v: Id, k: Instant)
    requires ForeignKeys(db)
  {
    && a.RecordVersion? && Step(db, a).Ok?
    && var last := LastRow(Rows(db, a.factId));
       last.Some? && last.value.id == v && last.value.validUntil.None? && NextTransactionTime(last, a.clock) <= k
  }

  /** Evidence for v that the reader may see is linked, at a time no later than k. */
  ghost predicate AddsEvidence(db: Db, a: Action, v: Id, k: Instant, visible: set<PrivacyScope>)
    requires ForeignKeys(db)
  {
    && a.LinkEvidence? && Step(db, a).Ok?
    && a.link.versionId == v && a.link.linkedAt <= k && a.link.scope in visible
  }

  /** The transaction makes later knowledge show in a receipt over this context. */
  ghost predicate Leaks(db: Db, a: Action, s: Snapshot, i: nat, visible: set<PrivacyScope>)
    requires ForeignKeys(db) && i < |s.facts| && Stored(s.facts, db.versions)
  {
    && db.versions[s.facts[i]].scope in visible
    && (Ends(db, a, s.facts[i], s.knownAt) || AddsEvidence(db, a, s.facts[i], s.knownAt, visible))
  }

  /** The stored version after a write: the last row as it was written back, any other as it was. */
  lemma RecordedRow(db: Db, a: Action, v: Id)
    requires ForeignKeys(db) && ChainsOk(db) && a.RecordVersion? && Step(db, a).Ok? && v in db.versions
    ensures var before := Rows(db, a.factId);
            var n := |before|;
            var rows := Record(FactHistory(before, []), a.factId, a.cmd, a.clock, a.newId).value.rows;
            && |rows| == n + 1 && v in Next(db, a).versions
            && Next(db, a).versions[v] == (if n > 0 && v == before[n - 1].id then rows[n - 1] else db.versions[v])
            && (n > 0 && v == before[n - 1].id ==> db.versions[v] == before[n - 1])
  {
    RecordRows(db, a.factId, a.cmd, a.clock, a.newId);
  }

  lemma ExtendedEnd(before: seq<Version>, rows: seq<Version>, f: Id, k: Instant)
    requires Chain(before, f) && Extends(before, rows, f) && before != []
    ensures var n := |before|;
            var ends := before[n - 1].validUntil.None? && rows[n].recordedAt <= k;
            && (ends ==>
                  && AsKnown(before[n - 1], Some(k)).validUntil.None?
                  && AsKnown(rows[n - 1], Some(k)).validUntil.Some?)
            && (!ends ==> AsKnown(before[n - 1], Some(k)) == AsKnown(rows[n - 1], Some(k)))
  {
    assert RowOk(before[|before| - 1], f);
  }

  lemma RecordEndsVersion(db: Db, a: Action, v: Id, k: Instant)
    requires ForeignKeys(db) && ChainsOk(db) && a.RecordVersion? && Step(db, a).Ok? && v in db.versions
    ensures v in Next(db, a).versions
    ensures Ends(db, a, v, k) ==>
              AsKnown(db.versions[v], Some(k)).validUntil.None?
                && AsKnown(Next(db, a).versions[v], Some(k)).validUntil.Some?
    ensures !Ends(db, a, v, k) ==> AsKnown(db.versions[v], Some(k)) == AsKnown(Next(db, a).versions[v], Some(k))
  {
    var before := Rows(db, a.factId);
    RecordedRow(db, a, v);
    RecordRows(db, a.factId, a.cmd, a.clock, a.newId);
    if before != [] && v == before[|before| - 1].id {
      ExtendedEnd(before, Record(FactHistory(before, []), a.factId, a.cmd, a.clock, a.newId).value.rows, a.factId, k);
    }
  }

  /** One transaction: the version as known at k changes exactly when the transaction ends it by then. */
  lemma EndsIff(db: Db, a: Action, v: Id, k: Instant)
    requires ForeignKeys(db) && ChainsOk(db) && v in db.versions
    ensures v in Next(db, a).versions
    ensures Ends(db, a, v, k) ==>
              AsKnown(db.versions[v], Some(k)).validUntil.None?
                && AsKnown(Next(db, a).versions[v], Some(k)).validUntil.Some?
    ensures !Ends(db, a, v, k) ==> AsKnown(db.versions[v], Some(k)) == AsKnown(Next(db, a).versions[v], Some(k))
  {
    if a.RecordVersion? {
      if Step(db, a).Ok? {
        RecordEndsVersion(db, a, v, k);
      }
    } else {
      LedgerUntouched(db, a);
    }
  }

  lemma EvidenceIff(db: Db, a: Action, v: Id, k: Instant, visible: set<PrivacyScope>)
    requires ForeignKeys(db)
    ensures AddsEvidence(db, a, v, k, visible) ==>
              |EvidenceFor(Next(db, a).links, v, k, visible)| == |EvidenceFor(db.links, v, k, visible)| + 1
    ensures !AddsEvidence(db, a, v, k, visible) ==>
              EvidenceFor(Next(db, a).links, v, k, visible) == EvidenceFor(db.links, v, k, visible)
  {
    if a.LinkEvidence? && Step(db, a).Ok? {
      assert Next(db, a).links[..|db.links|] == db.links;
      var shown := ShownLinks(db.links, v, k, visible);
      assert shown + [] == shown;
    }
  }

  lemma ShownPieces(a: Db, b: Db, s: Snapshot, d: Decision, i: nat, visible: set<PrivacyScope>)
    requires i < |s.facts| && Stored(s.facts, a.versions) && Stored(s.facts, b.versions)
    requires a.versions[s.facts[i]].scope == b.versions[s.facts[i]].scope
    ensures var v, k := s.facts[i], s.knownAt;
            ShownAlike(a, b, s, d, i, visible) <==>
              (a.versions[v].scope in visible ==>
                 && AsKnown(a.versions[v], Some(k)) == AsKnown(b.versions[v], Some(k))
                 && EvidenceFor(a.links, v, k, visible) == EvidenceFor(b.links, v, k, visible))
  {
  }

  /** One transaction changes what is shown exactly when it leaks; an end once shown stays, and evidence only grows. */
  lemma ShownStep(db: Db, a: Action, s: Snapshot, d: Decision, i: nat, visible: set<PrivacyScope>)
    requires ForeignKeys(db) && ChainsOk(db) && AppendOnly(db, Next(db, a))
    requires i < |s.facts| && Stored(s.facts, db.versions)
    ensures Stored(s.facts, Next(db, a).versions)
    ensures ShownAlike(db, Next(db, a), s, d, i, visible) <==> !Leaks(db, a, s, i, visible)
    ensures ShownGrows(db, Next(db, a), s, i, visible)
  {
    var v := s.facts[i];
    StoredKept(db, Next(db, a), s.facts, i);
    EndsIff(db, a, v, s.knownAt);
    EvidenceIff(db, a, v, s.knownAt, visible);
    ShownPieces(db, Next(db, a), s, d, i, visible);
  }

  lemma StoredKept(db: Db, after: Db, facts: seq<Id>, i: nat)
    requires AppendOnly(db, after) && Stored(facts, db.versions) && i < |facts|
    ensures Stored(facts, after.versions) && db.versions[facts[i]].scope == after.versions[facts[i]].scope
  {
    assert SameRecord(db.versions[facts[i]], after.versions[facts[i]]);
  }

  /** From one state to a later one: the scope is the same, a shown end stays, evidence is only added. */
  ghost predicate ShownGrows(a: Db, b: Db, s: Snapshot, i: nat, visible: set<PrivacyScope>)
    requires i < |s.facts| && Stored(s.facts, a.versions) && Stored(s.facts, b.versions)
  {
    var v, k := s.facts[i], s.knownAt;
    && a.versions[v].scope == b.versions[v].scope
    && (AsKnown(a.versions[v], Some(k)).validUntil.Some? ==>
          AsKnown(a.versions[v], Some(k)) == AsKnown(b.versions[v], Some(k)))
    && |EvidenceFor(a.links, v, k, visible)| <= |EvidenceFor(b.links, v, k, visible)|
  }

  lemma {:induction false} ShownGrowsOverRuns(
    db: Db, actions: seq<Action>, s: Snapshot, d: Decision, i: nat, visible: set<PrivacyScope>)
    requires Inv(db) && i < |s.facts| && Stored(s.facts, db.versions)
    ensures Stored(s.facts, Run(db, actions).versions)
    ensures ShownGrows(db, Run(db, actions), s, i, visible)
    decreases |actions|
  {
    if actions != [] {
      StepKeepsInv(db, actions[0]);
      ShownStep(db, actions[0], s, d, i, visible);
      ShownGrowsOverRuns(Next(db, actions[0]), actions[1..], s, d, i, visible);
    }
  }

  ghost predicate NeverLeaks(db: Db, actions: seq<Action>, s: Snapshot, i: nat, visible: set<PrivacyScope>)
    requires Inv(db) && i < |s.facts| && Stored(s.facts, db.versions)
    decreases |actions|
  {
    actions == [] ||
    (StepKeepsInv(db, actions[0]);
     !Leaks(db, actions[0], s, i, visible) && NeverLeaks(Next(db, actions[0]), actions[1..], s, i, visible))
  }

  /**
   From the search that found the context on, whatever is captured, decided, recorded, linked or revoked:
   a fact and its evidence are shown to a reader as they were then exactly if no accepted transaction
   ends that version, or links evidence the reader may see, at an instant not after `known_at`.
   */
  lemma {:induction false} ShownAsCapturedIff(
    db: Db, actions: seq<Action>, s: Snapshot, d: Decision, i: nat, visible: set<PrivacyScope>)
    requires Inv(db) && i < |s.facts| && Stored(s.facts, db.versions)
    ensures Stored(s.facts, Run(db, actions).versions)
    ensures ShownAlike(db, Run(db, actions), s, d, i, visible) <==> NeverLeaks(db, actions, s, i, visible)
    decreases |actions|
  {
    if actions != [] {
      var next := Next(db, actions[0]);
      StepKeepsInv(db, actions[0]);
      ShownStep(db, actions[0], s, d, i, visible);
      ShownAsCapturedIff(next, actions[1..], s, d, i, visible);
      ShownGrowsOverRuns(next, actions[1..], s, d, i, visible);
      if Leaks(db, actions[0], s, i, visible) {
        LeakStays(db, actions[0], Run(db, actions), s, d, i, visible);
      }
    }
  }

  lemma LeakStays(db: Db, a: Action, after: Db, s: Snapshot, d: Decision, i: nat, visible: set<PrivacyScope>)
    requires ForeignKeys(db) && ChainsOk(db) && i < |s.facts| && Stored(s.facts, db.versions)
    requires Stored(s.facts, Next(db, a).versions) && Stored(s.facts, after.versions)
    requires Leaks(db, a, s, i, visible)
    requires ShownGrows(db, Next(db, a), s, i, visible) && ShownGrows(Next(db, a), after, s, i, visible)
    ensures !ShownAlike(db, after, s, d, i, visible)
  {
    EndsIff(db, a, s.facts[i], s.knownAt);
    EvidenceIff(db, a, s.facts[i], s.knownAt, visible);
  }

  function TimeOf(a: Action): Option<Instant> {
    match a
    case RecordVersion(_, _, clock, _) => Some(clock)
    case LinkEvidence(link) => Some(link.linkedAt)
    case Revoke(_, now) => Some(now)
    case _ => None
  }

  /** The clock never reads less than `now` again. */
  ghost predicate NotBefore(actions: seq<Action>, now: Instant) {
    forall i :: 0 <= i < |actions| ==> TimeOf(actions[i]).Some? ==> now <= TimeOf(actions[i]).value
  }

  lemma {:induction false} ClockedIsLater(db: Db, actions: seq<Action>, now: Instant, k: Instant)
    requires Inv(db) && NotBefore(actions, now) && k < now
    ensures AllLater(db, actions, k)
    decreases |actions|
  {
    if actions != [] {
      StepKeepsInv(db, actions[0]);
      assert TimeOf(actions[0]).Some? ==> now <= TimeOf(actions[0]).value;
      assert NotBefore(actions[1..], now);
      ClockedIsLater(Next(db, actions[0]), actions[1..], now, k);
    }
  }

  lemma {:induction false} LaterNeverLeaks(
    db: Db, actions: seq<Action>, s: Snapshot, i: nat, visible: set<PrivacyScope>)
    requires Inv(db) && i < |s.facts| && Stored(s.facts, db.versions) && AllLater(db, actions, s.knownAt)
    ensures NeverLeaks(db, actions, s, i, visible)
    decreases |actions|
  {
    if actions != [] {
      StepKeepsInv(db, actions[0]);
      LaterNeverLeaks(Next(db, actions[0]), actions[1..], s, i, visible);
    }
  }

  /**
   So a context searched with `known_at` before the clock is shown as captured for good, if the clock
   does not go back.
   */
  lemma PastContextShownAsCaptured(
    db: Db, actions: seq<Action>, now: Instant, s: Snapshot, d: Decision, i: nat, visible: set<PrivacyScope>)
    requires Inv(db) && i < |s.facts| && Stored(s.facts, db.versions)
    requires s.knownAt < now && NotBefore(actions, now)
    ensures Stored(s.facts, Run(db, actions).versions)
    ensures ShownAlike(db, Run(db, actions), s, d, i, visible)
  {
    ClockedIsLater(db, actions, now, s.knownAt);
    LaterNeverLeaks(db, actions, s, i, visible);
    ShownAsCapturedIff(db, actions, s, d, i, visible);
  }

  // ----- revocation impact -----

  datatype Impacted = Impacted(reliedOn: bool, recordedAtRevocation: bool, decidedAfterRevocation: bool)

  /** `_report`, recomputed from the database. */
  function Report(db: Db, v: Id): map<Id, Impacted>
    requires v in db.revocations
  {
    map d | d in DecisionsWith(db.decisions, db.snapshots, v) ::
      Impacted(
        v in db.decisions[d].reliedOn,
        d in db.revocations[v].impacts,
        d !in db.revocations[v].impacts)
  }

  /** The stored impact rows and the recomputed report, by what they must contain. */
  ghost predicate ReportExact(db: Db, v: Id)
    requires ForeignKeys(db) && v in db.revocations
  {
    var r := db.revocations[v];
    var report := Report(db, v);
    && (forall d :: d in r.impacts <==>
          && d in db.decisions && db.decisions[d].recordedAt < r.recordedAt
          && v in db.snapshots[db.decisions[d].snapshotId].facts)
    && (forall d :: d in report <==>
          d in db.decisions && v in db.snapshots[db.decisions[d].snapshotId].facts)
    && (forall d :: d in report ==>
          && report[d].reliedOn == (v in db.decisions[d].reliedOn)
          && report[d].recordedAtRevocation == (db.decisions[d].recordedAt < r.recordedAt)
          && report[d].decidedAfterRevocation == !report[d].recordedAtRevocation)
    && (forall d :: d in r.impacts ==> r.impacts[d] == report[d].reliedOn)
  }

  /** A context searched after the revocation, and knowing about it, leaves the version out. */
  ghost predicate LeftOutOfLaterSearches(db: Db, v: Id)
    requires v in db.revocations
  {
    forall s :: && s in db.snapshots && db.revocations[v].recordedAt < db.snapshots[s].searchedAt
                && db.revocations[v].revokedAt <= db.snapshots[s].knownAt
                ==> v !in db.snapshots[s].facts
  }

  lemma ReportIsExact(db: Db, v: Id)
    requires ForeignKeys(db) && v in db.revocations && ImpactExact(db, v)
    ensures ReportExact(db, v)
  {
  }

  lemma LaterSearchesLeaveOut(db: Db, v: Id)
    requires Fresh(db) && v in db.revocations
    ensures LeftOutOfLaterSearches(db, v)
  {
    forall s | s in db.snapshots && db.revocations[v].recordedAt < db.snapshots[s].searchedAt
               && db.revocations[v].revokedAt <= db.snapshots[s].knownAt
      ensures v !in db.snapshots[s].facts
    {
      assert SearchedFresh(db, db.snapshots[s]);
    }
  }

  /**
   In every reachable state: the stored impact rows are the decisions recorded before the
   revocation whose context held the version; the report adds exactly those recorded later
   from such a context; flags match citations; and no context searched after the revocation
   with `known_at` at or past it holds the version.
   */
  lemma RevocationImpactExact(organization: Id, actions: seq<Action>, v: Id)
    requires v in Run(Empty(organization), actions).revocations
    ensures ReportExact(Run(Empty(organization), actions), v)
    ensures LeftOutOfLaterSearches(Run(Empty(organization), actions), v)
  {
    ReportIsExact(Run(Empty(organization), actions), v);
    LaterSearchesLeaveOut(Run(Empty(organization), actions), v);
  }

  // ----- contexts captured after a revocation -----

  /** A searched context holds the version, which is revoked at an instant the context knows about. */
  ghost predicate PendingRevoked(db: Db, search: Id, v: Id) {
    && search in db.pending && v in db.pending[search].facts
    && v in db.revocations && db.revocations[v].revokedAt <= db.pending[search].knownAt
  }

  /** A context captured after the revocation, and knowing about it, still holds the version. */
  ghost predicate CapturedRevoked(db: Db, s: Id, v: Id) {
    && s in db.snapshots && v in db.snapshots[s].facts && v in db.revocations
    && db.revocations[v].recordedAt < db.snapshots[s].capturedAt
    && db.revocations[v].revokedAt <= db.snapshots[s].knownAt
  }

  /** An accepted revocation of a version that a searched context holds and knows about. */
  ghost predicate RevokesPending(db: Db, a: Action, search: Id, v: Id)
    requires ForeignKeys(db)
  {
    && a.Revoke? && a.versionId == v && Step(db, a).Ok?
    && search in db.pending && v in db.pending[search].facts && a.now <= db.pending[search].knownAt
  }

  lemma PendingRevokedStep(db: Db, a: Action, search: Id, v: Id)
    requires ForeignKeys(db) && ChainsOk(db)
    ensures PendingRevoked(Next(db, a), search, v) <==>
            PendingRevoked(db, search, v) || RevokesPending(db, a, search, v)
  {
    StepTables(db, a);
    if a.Search? && a.searchId == search && Step(db, a).Ok? && v in a.context.facts && v in db.revocations {
      var i :| 0 <= i < |a.context.facts| && a.context.facts[i] == v;
      assert db.versions[v].id == v && v in RevokedAt(db);
      assert SqlValidAt(db.versions[a.context.facts[i]], RevokedAt(db), a.context.validAt, Some(a.context.knownAt));
    }
  }

  ghost predicate Captures(db: Db, a: Action, s: Id)
    requires ForeignKeys(db)
  {
    a.Capture? && a.snapshotId == s && Step(db, a).Ok?
  }

  lemma CapturedRevokedStep(db: Db, a: Action, s: Id, v: Id)
    requires ForeignKeys(db) && Fresh(db) && ImpactsOk(db)
    ensures CapturedRevoked(Next(db, a), s, v) <==>
            CapturedRevoked(db, s, v) || (Captures(db, a, s) && PendingRevoked(db, a.searchId, v))
  {
    StepTables(db, a);
    if v in db.revocations {
      assert ImpactExact(db, v);
    }
  }

  lemma {:induction false} RunSnoc(db: Db, actions: seq<Action>, a: Action)
    requires Inv(db)
    ensures Run(db, actions + [a]) == Next(Run(db, actions), a)
    decreases |actions|
  {
    if actions == [] {
      StepKeepsInv(db, a);
      assert [] + [a] == [a] && [a][1..] == [];
    } else {
      StepKeepsInv(db, actions[0]);
      assert (actions + [a])[1..] == actions[1..] + [a];
      RunSnoc(Next(db, actions[0]), actions[1..], a);
    }
  }

  /** The run revoked the version while the search was pending. */
  ghost predicate RevokedWhilePending(org: Id, actions: seq<Action>, search: Id, v: Id) {
    Ever((before, a) => RevokesPending(Run(Empty(org), before), a, search, v), actions)
  }

  /** After this run, the transaction captures as s a search during whose wait the version was revoked. */
  ghost predicate OvertakenBy(org: Id, before: seq<Action>, a: Action, s: Id, v: Id) {
    Captures(Run(Empty(org), before), a, s) && RevokedWhilePending(org, before, a.searchId, v)
  }

  /** The run captured as s a search during whose wait the version was revoked. */
  ghost predicate Overtaken(org: Id, actions: seq<Action>, s: Id, v: Id) {
    Ever((before, a) => OvertakenBy(org, before, a, s, v), actions)
  }

  lemma {:induction false} PendingRevokedIff(org: Id, actions: seq<Action>, search: Id, v: Id)
    ensures PendingRevoked(Run(Empty(org), actions), search, v) <==> RevokedWhilePending(org, actions, search, v)
  {
    if actions != [] {
      var init, a := actions[..|actions| - 1], actions[|actions| - 1];
      assert actions == init + [a];
      PendingRevokedIff(org, init, search, v);
      RunSnoc(Empty(org), init, a);
      PendingRevokedStep(Run(Empty(org), init), a, search, v);
      EverOneMore((before, x) => RevokesPending(Run(Empty(org), before), x, search, v), init, a);
    }
  }

  lemma OvertakenByIff(org: Id, init: seq<Action>, a: Action, s: Id, v: Id)
    ensures OvertakenBy(org, init, a, s, v) <==>
            Captures(Run(Empty(org), init), a, s) && PendingRevoked(Run(Empty(org), init), a.searchId, v)
  {
    if a.Capture? {
      PendingRevokedIff(org, init, a.searchId, v);
    }
  }

  /**
   In every reachable state a context captured after a revocation it knows about holds the revoked
   version exactly if the revocation happened between the context's search and its capture, at an
   instant not after `known_at`.
   */
  lemma {:induction false} CapturedRevokedIff(org: Id, actions: seq<Action>, s: Id, v: Id)
    ensures CapturedRevoked(Run(Empty(org), actions), s, v) <==> Overtaken(org, actions, s, v)
  {
    if actions != [] {
      var init, a := actions[..|actions| - 1], actions[|actions| - 1];
      assert actions == init + [a];
      CapturedRevokedIff(org, init, s, v);
      RunSnoc(Empty(org), init, a);
      CapturedRevokedStep(Run(Empty(org), init), a, s, v);
      OvertakenByIff(org, init, a, s, v);
      EverOneMore((before, x) => OvertakenBy(org, before, x, s, v), init, a);
    }
  }

  lemma SearchStep(db: Db, search: Id, context: Snapshot)
    requires ForeignKeys(db) && search !in db.pending && Retrieved(db, context)
    ensures Next(db, Search(search, context)) ==
            db.(pending := db.pending[search := context.(searchedAt := db.steps)], steps := db.steps + 1)
  {
  }

  lemma RevokedWhileSearching(db: Db, search: Id, context: Snapshot, v: Id, now: Instant, searched: Db, revoked: Db)
    requires Inv(db) && search !in db.pending && Retrieved(db, context)
    requires v in context.facts && v !in db.revocations && now <= context.knownAt
    requires searched == Next(db, Search(search, context))
    requires ForeignKeys(searched) && revoked == Next(searched, Revoke(v, now))
    ensures Inv(revoked) && revoked.snapshots == db.snapshots && PendingRevoked(revoked, search, v)
  {
    StepKeepsInv(db, Search(search, context));
    StepKeepsInv(searched, Revoke(v, now));
    SearchStep(db, search, context);
    RevokeStep(searched, v, now);
  }

  lemma PendingIsCaptured(revoked: Db, search: Id, v: Id, s: Id)
    requires Inv(revoked) && PendingRevoked(revoked, search, v) && s !in revoked.snapshots
    ensures CapturedRevoked(Next(revoked, Capture(search, s)), s, v)
  {
    CapturedRevokedStep(revoked, Capture(search, s), s, v);
  }

  /** It happens from any state: search, revoke a version found, at an instant the search knows about, and capture. */
  lemma RevokedBetweenSearchAndCapture(
    db: Db, search: Id, context: Snapshot, v: Id, now: Instant, s: Id, searched: Db, revoked: Db)
    requires Inv(db) && search !in db.pending && s !in db.snapshots && Retrieved(db, context)
    requires v in context.facts && v !in db.revocations && now <= context.knownAt
    requires searched == Next(db, Search(search, context))
    requires ForeignKeys(searched) && revoked == Next(searched, Revoke(v, now))
    ensures Inv(revoked) && CapturedRevoked(Next(revoked, Capture(search, s)), s, v)
  {
    RevokedWhileSearching(db, search, context, v, now, searched, revoked);
    PendingIsCaptured(revoked, search, v, s);
  }

  lemma {:induction false} LaterKeepsPendingFresh(db: Db, actions: seq<Action>, search: Id, v: Id)
    requires Inv(db) && search in db.pending && !PendingRevoked(db, search, v)
    requires AllLater(db, actions, db.pending[search].knownAt)
    ensures !PendingRevoked(Run(db, actions), search, v)
    decreases |actions|
  {
    if actions != [] {
      StepKeepsInv(db, actions[0]);
      PendingRevokedStep(db, actions[0], search, v);
      StepTables(db, actions[0]);
      assert Next(db, actions[0]).pending[search] == db.pending[search];
      LaterKeepsPendingFresh(Next(db, actions[0]), actions[1..], search, v);
    }
  }

  /** With `known_at` before the clock, and a clock that does not go back, no version revoked meanwhile is captured. */
  lemma PastContextCapturedFresh(db: Db, actions: seq<Action>, now: Instant, search: Id, s: Id, v: Id)
    requires Inv(db) && search in db.pending && !PendingRevoked(db, search, v)
    requires db.pending[search].knownAt < now && NotBefore(actions, now)
    requires s !in Run(db, actions).snapshots
    ensures !CapturedRevoked(Next(Run(db, actions), Capture(search, s)), s, v)
  {
    ClockedIsLater(db, actions, now, db.pending[search].knownAt);
    LaterKeepsPendingFresh(db, actions, search, v);
    CapturedRevokedStep(Run(db, actions), Capture(search, s), s, v);
  }

  // ----- an input on which a context with a future `known_at` fails -----

  const FIRST_CLAIM := Command("v", 1, 0, None, None, 50, 1.0, Public)
  const FIRST_VERSION := Version(7, 1, 1, "v", 1, 0, None, 0, 10, None, None, 50, 1.0, Public)
  const FIRST_WRITE := RecordVersion(1, FIRST_CLAIM, 10, 7)
  const SECOND_WRITE := RecordVersion(1, FIRST_CLAIM.(validFrom := 60), 20, 8)

  /** One version, recorded at 10. */
  const ONE_FACT := Empty(1).(versions := map[7 := FIRST_VERSION], chains := map[1 := [7]], steps := 1)

  /** Searched then, but pinned to what will be known at 100. */
  const FUTURE_CONTEXT := Snapshot("q", 5, 100, "m", "used", [Public], [7], 0, 0)

  lemma FirstWriteAccepted()
    ensures Record(FactHistory([], []), 1, FIRST_CLAIM, 10, 7) == Ok(FactHistory([FIRST_VERSION], []))
  {
    var none: seq<Version>, clear: seq<Contradiction> := [], [];
    assert none + [FIRST_VERSION] == [FIRST_VERSION] && clear + [] == [];
  }

  lemma SecondWriteAccepted()
    ensures Record(FactHistory([FIRST_VERSION], []), 1, FIRST_CLAIM.(validFrom := 60), 20, 8).Ok?
  {
  }

  lemma OneFactIsNext(empty: Db)
    requires empty == Db(1, map[], map[], [], map[], map[], map[], map[], 0) && ForeignKeys(empty)
    ensures Next(empty, FIRST_WRITE) == ONE_FACT
  {
    assert Rows(empty, 1) == [];
    FirstWriteAccepted();
    assert ChainOf(empty, 1) + [7] == [7] && WriteBack(empty.versions, [FIRST_VERSION]) == map[7 := FIRST_VERSION];
  }

  lemma OneFactIsReached()
    ensures Next(Empty(1), FIRST_WRITE) == ONE_FACT && Inv(ONE_FACT)
  {
    OneFactIsNext(Empty(1));
    StepKeepsInv(Empty(1), FIRST_WRITE);
  }

  lemma FutureContextIsRetrieved()
    ensures Retrieved(ONE_FACT, FUTURE_CONTEXT)
  {
  }

  lemma SecondWriteEndsVersion()
    requires ForeignKeys(ONE_FACT)
    ensures Ends(ONE_FACT, SECOND_WRITE, 7, 100)
  {
    assert Rows(ONE_FACT, 1) == [FIRST_VERSION];
    SecondWriteAccepted();
  }

  /** The second write, at 20, ends the version as known at 100: the receipt no longer shows it as captured. */
  lemma LaterWriteLeaks(d: Decision)
    ensures Inv(ONE_FACT) && Retrieved(ONE_FACT, FUTURE_CONTEXT)
    ensures Inv(Next(ONE_FACT, SECOND_WRITE)) && Stored(FUTURE_CONTEXT.facts, Next(ONE_FACT, SECOND_WRITE).versions)
    ensures !ShownAlike(ONE_FACT, Next(ONE_FACT, SECOND_WRITE), FUTURE_CONTEXT, d, 0, {Public})
  {
    OneFactIsReached();
    FutureContextIsRetrieved();
    StepKeepsInv(ONE_FACT, SECOND_WRITE);
    SecondWriteEndsVersion();
    ShownStep(ONE_FACT, SECOND_WRITE, FUTURE_CONTEXT, d, 0, {Public});
  }

  /** And a revocation at 50, between search and capture, leaves the revoked version in the new context. */
  lemma RevokedVersionIsCaptured(searched: Db, revoked: Db)
    requires ForeignKeys(ONE_FACT) && searched == Next(ONE_FACT, Search(1, FUTURE_CONTEXT))
    requires ForeignKeys(searched) && revoked == Next(searched, Revoke(7, 50))
    ensures Inv(revoked) && CapturedRevoked(Next(revoked, Capture(1, 2)), 2, 7)
  {
    OneFactIsReached();
    FutureContextIsRetrieved();
    assert FUTURE_CONTEXT.facts[0] == 7;
    RevokedBetweenSearchAndCapture(ONE_FACT, 1, FUTURE_CONTEXT, 7, 50, 2, searched, revoked);
  }

  // ----- decisions are what was decided -----

  lemma CitedSet(cited: seq<Id>, inContext: set<Id>)
    requires ValidateReliedOn(cited, inContext).Ok?
    ensures SetOf(ValidateReliedOn(cited, inContext).value) == SetOf(cited)
  {
    ValidateReliedOnExact(cited, inContext);
    SameElements(ValidateReliedOn(cited, inContext).value, cited);
  }

  /** The stored row is the command's, with exactly the versions it cites. */
  ghost predicate StoredAsDecided(row: Decision, d: Decision, cited: seq<Id>, at: nat) {
    row == d.(reliedOn := SetOf(cited), receipt := row.receipt, recordedAt := at)
  }

  lemma DecideStores(db: Db, id: Id, d: Decision, cited: seq<Id>)
    requires ForeignKeys(db) && Step(db, Decide(id, d, cited)).Ok?
    ensures var after := Next(db, Decide(id, d, cited));
            && id !in db.decisions && id in after.decisions
            && after.decisions == db.decisions[id := after.decisions[id]]
            && StoredAsDecided(after.decisions[id], d, cited, db.steps)
  {
    CitedSet(cited, SetOf(db.snapshots[d.snapshotId].facts));
  }

  lemma {:induction false} RunConcat(db: Db, a: seq<Action>, b: seq<Action>)
    requires Inv(db)
    ensures Run(db, a + b) == Run(Run(db, a), b)
    decreases |a|
  {
    if a == [] {
      assert a + b == b;
    } else {
      StepKeepsInv(db, a[0]);
      assert (a + b)[1..] == a[1..] + b;
      RunConcat(Next(db, a[0]), a[1..], b);
    }
  }

  /** Transaction n of the run is an accepted decision. */
  ghost predicate Decides(org: Id, before: seq<Action>, a: Action, id: Id) {
    a.Decide? && a.decisionId == id && Step(Run(Empty(org), before), a).Ok?
  }

  lemma JustDecided(org: Id, before: seq<Action>, a: Action, id: Id)
    requires Decides(org, before, a, id)
    ensures var db := Run(Empty(org), before + [a]);
            && id in db.decisions
            && StoredAsDecided(db.decisions[id], a.decision, a.cited, Run(Empty(org), before).steps)
  {
    DecideStores(Run(Empty(org), before), id, a.decision, a.cited);
    RunSnoc(Empty(org), before, a);
  }

  lemma RowKept(db: Db, rest: seq<Action>, id: Id)
    requires Inv(db) && id in db.decisions
    ensures id in Run(db, rest).decisions && Run(db, rest).decisions[id] == db.decisions[id]
  {
  }

  lemma DecisionKept(org: Id, before: seq<Action>, a: Action, rest: seq<Action>, id: Id)
    requires Decides(org, before, a, id)
    ensures var db := Run(Empty(org), before + [a] + rest);
            && id in db.decisions
            && StoredAsDecided(db.decisions[id], a.decision, a.cited, Run(Empty(org), before).steps)
  {
    JustDecided(org, before, a, id);
    RowKept(Run(Empty(org), before + [a]), rest, id);
    RunConcat(Empty(org), before + [a], rest);
  }

  lemma CitationsOf(db: Db, id: Id, cited: seq<Id>, v: Id)
    requires ForeignKeys(db) && id in db.decisions && db.decisions[id].reliedOn == SetOf(cited)
    requires v in db.revocations && ImpactExact(db, v)
    ensures id in db.revocations[v].impacts ==> (db.revocations[v].impacts[id] <==> v in cited)
    ensures id in Report(db, v) ==> (Report(db, v)[id].reliedOn <==> v in cited)
  {
  }

  /** Receipts and impacts flag as citations of the decision exactly these versions. */
  ghost predicate FlaggedCitations(db: Db, id: Id, cited: seq<Id>, visible: set<PrivacyScope>)
    requires ForeignKeys(db) && id in db.decisions
  {
    var d := db.decisions[id];
    var s := db.snapshots[d.snapshotId];
    && (forall i :: 0 <= i < |s.facts| ==> (FactOf(db, s, d, i, visible).reliedOn <==> s.facts[i] in cited))
    && (forall v :: v in db.revocations ==>
          && (id in db.revocations[v].impacts ==> (db.revocations[v].impacts[id] <==> v in cited))
          && (id in Report(db, v) ==> (Report(db, v)[id].reliedOn <==> v in cited)))
  }

  lemma FlaggedAsCited(db: Db, id: Id, cited: seq<Id>, visible: set<PrivacyScope>)
    requires ForeignKeys(db) && ImpactsOk(db) && id in db.decisions && db.decisions[id].reliedOn == SetOf(cited)
    ensures FlaggedCitations(db, id, cited, visible)
  {
    forall v | v in db.revocations
      ensures id in db.revocations[v].impacts ==> (db.revocations[v].impacts[id] <==> v in cited)
      ensures id in Report(db, v) ==> (Report(db, v)[id].reliedOn <==> v in cited)
    {
      CitationsOf(db, id, cited, v);
    }
  }

  /**
   Over every run, after an accepted decision and whatever else: it is stored as its transaction said,
   with exactly the versions it cited, and every receipt shows a fact as relied on, and every stored or
   reported impact of a revoked version as a citation, exactly when that transaction cited it.
   */
  lemma CitationsShow(org: Id, before: seq<Action>, a: Action, rest: seq<Action>, id: Id, visible: set<PrivacyScope>)
    requires Decides(org, before, a, id)
    ensures var db := Run(Empty(org), before + [a] + rest);
            && id in db.decisions
            && StoredAsDecided(db.decisions[id], a.decision, a.cited, Run(Empty(org), before).steps)
            && FlaggedCitations(db, id, a.cited, visible)
  {
    DecisionKept(org, before, a, rest, id);
    FlaggedAsCited(Run(Empty(org), before + [a] + rest), id, a.cited, visible);
  }

  /** And every stored decision comes from such a transaction. */
  lemma {:induction false} DecisionsWereDecided(org: Id, actions: seq<Action>, id: Id)
    ensures id in Run(Empty(org), actions).decisions <==> Ever((before, a) => Decides(org, before, a, id), actions)
  {
    if actions != [] {
      var init, a := actions[..|actions| - 1], actions[|actions| - 1];
      assert actions == init + [a];
      DecisionsWereDecided(org, init, id);
      DecidesIff(org, init, a, id);
      EverOneMore((before, x) => Decides(org, before, x, id), init, a);
    }
  }

  lemma DecidesIff(org: Id, init: seq<Action>, a: Action, id: Id)
    ensures id in Run(Empty(org), init + [a]).decisions <==>
            id in Run(Empty(org), init).decisions || Decides(org, init, a, id)
  {
    RunSnoc(Empty(org), init, a);
    DecideStepIff(Run(Empty(org), init), a, id);
  }

  lemma DecideStepIff(db: Db, a: Action, id: Id)
    requires ForeignKeys(db)
    ensures id in Next(db, a).decisions <==> id in db.decisions || (a.Decide? && a.decisionId == id && Step(db, a).Ok?)
  {
  }

  // ----- facts_valid_at -----

  ghost function Passing(db: Db, facts: set<Id>, t: Instant, known: Option<Instant>): set<Version>
    requires ForeignKeys(db)
  {
    set f, v | f in facts && v in SqlRows(Rows(db, f), RevokedAt(db), t, known) :: v
  }

  /** `DISTINCT ON (fact_id) ... ORDER BY fact_id, version DESC`. */
  ghost function DistinctOnFact(rows: set<Version>): set<Version> {
    set v | v in rows && forall w :: w in rows && w.factId == v.factId ==> w.number <= v.number
  }

  lemma OneRowPerFact(db: Db, f: Id, g: Id, t: Instant, known: Option<Instant>, v: Version, w: Version)
    requires ForeignKeys(db) && ChainsOk(db)
    requires v in SqlRows(Rows(db, f), RevokedAt(db), t, known) && w in SqlRows(Rows(db, g), RevokedAt(db), t, known)
    ensures v.factId == f && w.factId == g && (f == g ==> v == w)
  {
    assert Chain(Rows(db, f), f) && Chain(Rows(db, g), g);
    SqlRefinesReference(Rows(db, f), f, RevokedAt(db), t, known);
    SqlRowsElements(Rows(db, f), RevokedAt(db), t, known);
    SqlRowsElements(Rows(db, g), RevokedAt(db), t, known);
  }

  /** At most one row per fact passes, so the DISTINCT ON never drops one. */
  lemma DistinctOnDropsNothing(db: Db, facts: set<Id>, t: Instant, known: Option<Instant>)
    requires Inv(db)
    ensures DistinctOnFact(Passing(db, facts, t, known)) == Passing(db, facts, t, known)
  {
    var rows := Passing(db, facts, t, known);
    forall v, w | v in rows && w in rows && v.factId == w.factId ensures v == w {
      var f :| f in facts && v in SqlRows(Rows(db, f), RevokedAt(db), t, known);
      var g :| g in facts && w in SqlRows(Rows(db, g), RevokedAt(db), t, known);
      OneRowPerFact(db, f, g, t, known, v, w);
    }
  }

  // ----- the services -----

  lemma RevokeStep(db: Db, v: Id, now: Instant)
    requires ForeignKeys(db) && v in db.versions && v !in db.revocations
    ensures Next(db, Revoke(v, now)) == db.(
              revocations := db.revocations[v := Revocation(now, ImpactRows(db.decisions, db.snapshots, v), db.steps)],
              steps := db.steps + 1)
  {
  }

  lemma ReportOfFlags(db: Db, v: Id, flags: map<Id, bool>)
    requires v in db.revocations && flags == ImpactRows(db.decisions, db.snapshots, v)
    ensures var stored := db.revocations[v].impacts;
            (map d | d in flags :: Impacted(flags[d], d in stored, d !in stored)) == Report(db, v)
  {
  }

  lemma DecideStep(db: Db, id: Id, d: Decision, cited: seq<Id>)
    requires ForeignKeys(db) && d.snapshotId in db.snapshots && id !in db.decisions
    requires ValidateReliedOn(cited, SetOf(db.snapshots[d.snapshotId].facts)).Ok?
    ensures Next(db, Decide(id, d, cited)) ==
            db.(decisions := db.decisions[id := SealedRow(db, id, d, cited)], steps := db.steps + 1)
  {
  }

  /** The log lists every decision. */
  ghost predicate ListsAll(log: seq<Id>, decisions: map<Id, Decision>) {
    && (forall i :: 0 <= i < |log| ==> log[i] in decisions)
    && (forall d :: d in decisions ==> d in log)
  }

  lemma ListsOneMore(log: seq<Id>, decisions: map<Id, Decision>, id: Id, d: Decision)
    requires ListsAll(log, decisions)
    ensures ListsAll(log + [id], decisions[id := d])
  {
  }

  /** The version `revoke` is about: the one named, or the fact's latest; it must be the fact's and readable. */
  function RevocationTarget(db: Db, factId: Id, versionId: Option<Id>, readable: set<PrivacyScope>): Option<Id> {
    var chain := ChainOf(db, factId);
    var target := if versionId.Some? then versionId else if chain == [] then None else Some(chain[|chain| - 1]);
    if factId in db.chains && target.Some? && target.value in db.versions
       && db.versions[target.value].factId == factId && db.versions[target.value].scope in readable
    then target else None
  }

  /** A named version is the target exactly if it is the fact's and readable. */
  lemma NamedTarget(db: Db, factId: Id, v: Id, readable: set<PrivacyScope>)
    ensures var target := RevocationTarget(db, factId, Some(v), readable);
            && (target == Some(v) <==>
                  && factId in db.chains && v in db.versions
                  && db.versions[v].factId == factId && db.versions[v].scope in readable)
            && (target.Some? ==> target == Some(v))
  {
  }

  /** Without a name, it is the fact's version with the highest number, if that is readable. */
  lemma LatestTarget(db: Db, factId: Id, readable: set<PrivacyScope>, v: Id)
    requires ForeignKeys(db) && ChainsOk(db)
    ensures RevocationTarget(db, factId, None, readable) == Some(v) <==>
            && v in ChainOf(db, factId) && v in db.versions && db.versions[v].scope in readable
            && forall i :: 0 <= i < |ChainOf(db, factId)| ==>
                 db.versions[ChainOf(db, factId)[i]].number <= db.versions[v].number
  {
    var chain := ChainOf(db, factId);
    if factId in db.chains {
      assert Chain(Rows(db, factId), factId);
      assert forall i :: 0 <= i < |chain| ==>
          RowOk(Rows(db, factId)[i], factId) && db.versions[chain[i]].number == i + 1;
    }
  }

  /** The stored tables, as the services change them. */
  class DecisionStore {
    const organization: Id
    var versions: map<Id, Version>
    var chains: map<Id, seq<Id>>
    var links: seq<Link>
    var revocations: map<Id, Revocation>
    var pending: map<Id, Snapshot>
    var snapshots: map<Id, Snapshot>
    var decisions: map<Id, Decision>
    var decisionLog: seq<Id>
    var steps: nat

    /** The decisions table read in insertion order. */
    ghost predicate Logged()
      reads this
    {
      ListsAll(decisionLog, decisions)
    }

    function State(): Db
      reads this
    {
      Db(organization, versions, chains, links, revocations, pending, snapshots, decisions, steps)
    }

    constructor (organization: Id)
      ensures State() == Empty(organization) && Logged()
    {
      this.organization := organization;
      versions, chains, links, revocations := map[], map[], [], map[];
      pending, snapshots, decisions, decisionLog, steps := map[], map[], map[], [], 0;
    }

    /** `_decisions_with`, with the citation flag of each decision. */
    method DecisionsHolding(versionId: Id) returns (impacts: map<Id, bool>)
      requires Logged()
      ensures impacts == ImpactRows(decisions, snapshots, versionId)
    {
      impacts := map[];
      ghost var holding := DecisionsWith(decisions, snapshots, versionId);
      for n := 0 to |decisionLog|
        invariant forall d :: d in impacts ==> d in holding && impacts[d] == (versionId in decisions[d].reliedOn)
        invariant forall i :: 0 <= i < n && decisionLog[i] in holding ==> decisionLog[i] in impacts
      {
        var d := decisionLog[n];
        var row := decisions[d];
        if row.snapshotId in snapshots && versionId in snapshots[row.snapshotId].facts {
          impacts := impacts[d := versionId in row.reliedOn];
        }
      }
      assert impacts.Keys == holding;
    }

    /** Latest version by default; a version of another fact, or above the caller's ceiling, is not found. */
    method RevokeVersion(factId: Id, versionId: Option<Id>, readable: set<PrivacyScope>, now: Instant)
      returns (result: Result<map<Id, Impacted>>)
      requires ForeignKeys(State()) && Logged()
      modifies this`revocations, this`steps
      ensures var target := RevocationTarget(old(State()), factId, versionId, readable);
              && (result == Err(NotFound) <==> target.None?)
              && (result == Err(Conflict) <==> target.Some? && target.value in old(revocations))
              && (result.Err? ==> unchanged(this))
              && (result.Ok? <==> target.Some? && target.value !in old(revocations))
              && (result.Ok? ==>
                    && State() == Next(old(State()), Revoke(target.value, now))
                    && target.value in revocations && result.value == Report(State(), target.value))
    {
      var target := RevocationTarget(State(), factId, versionId, readable);
      if target.None? {
        return Err(NotFound);
      }
      if target.value in revocations {
        return Err(Conflict);
      }
      var report := StoreRevocation(target.value, now);
      result := Ok(report);
    }

    method StoreRevocation(v: Id, now: Instant) returns (report: map<Id, Impacted>)
      requires ForeignKeys(State()) && Logged() && v in versions && v !in revocations
      modifies this`revocations, this`steps
      ensures State() == Next(old(State()), Revoke(v, now))
      ensures v in revocations && report == Report(State(), v)
    {
      var impacts := DecisionsHolding(v);
      RevokeStep(State(), v, now);
      revocations := revocations[v := Revocation(now, impacts, steps)];
      steps := steps + 1;
      var flags := DecisionsHolding(v);
      report := map d | d in flags :: Impacted(flags[d], d in impacts, d !in impacts);
      ReportOfFlags(State(), v, flags);
    }

    method RecordDecision(id: Id, decision: Decision, cited: seq<Id>) returns (result: Result<Sha256<Document>>)
      requires ForeignKeys(State()) && Logged()
      modifies this`decisions, this`decisionLog, this`steps
      ensures Logged()
      ensures State() == Next(old(State()), Decide(id, decision, cited))
      ensures var step := Step(old(State()), Decide(id, decision, cited));
              && (result.Ok? <==> step.Ok?)
              && (result.Err? ==> result.error == step.error && unchanged(this))
      ensures result.Ok? ==>
                && id !in old(decisions) && id in decisions && decisions == old(decisions)[id := decisions[id]]
                && StoredAsDecided(decisions[id], decision, cited, old(steps)) && result.value == decisions[id].receipt
    {
      if decision.snapshotId !in snapshots {
        return Err(NotFound);
      }
      if id in decisions {
        return Err(IntegrityError);
      }
      var reliedOn := ValidateReliedOn(cited, SetOf(snapshots[decision.snapshotId].facts));
      if reliedOn.Err? {
        return Err(reliedOn.error);
      }
      DecideStep(State(), id, decision, cited);
      CitedSet(cited, SetOf(snapshots[decision.snapshotId].facts));
      var sealed := SealedRow(State(), id, decision, cited);
      ListsOneMore(decisionLog, decisions, id, sealed);
      decisions, decisionLog, steps := decisions[id := sealed], decisionLog + [id], steps + 1;
      result := Ok(sealed.receipt);
    }

    /** Facts in position order, redacted above the reader's ceiling, and the recomputed hash. */
    method ReadReceipt(id: Id, visible: set<PrivacyScope>) returns (result: Result<Receipt>)
      requires Inv(State())
      ensures result.Ok? <==> id in decisions
      ensures result.Ok? ==>
                var d := decisions[id];
                var s := snapshots[d.snapshotId];
                && result.value.integrityVerified
                && result.value.receipt == d.receipt
                && |result.value.facts| == |s.facts|
                && (forall i :: 0 <= i < |s.facts| ==> result.value.facts[i] == FactOf(State(), s, d, i, visible))
      ensures result.Ok? ==>
                var s := snapshots[decisions[id].snapshotId];
                forall i :: 0 <= i < |s.facts| ==>
                  var v, fact := s.facts[i], result.value.facts[i];
                  && fact.versionId == v && fact.position == i + 1 && fact.scope == versions[v].scope
                  && (fact.reliedOn <==> v in decisions[id].reliedOn)
                  && (fact.redacted <==> versions[v].scope !in visible)
                  && (fact.redacted ==> fact.version == None && fact.evidence == [] && fact.revokedAt == None)
                  && (!fact.redacted ==>
                        && fact.version == Some(AsKnown(versions[v], Some(s.knownAt)))
                        && fact.revokedAt == if v in revocations then Some(revocations[v].revokedAt) else None)
    {
      if id !in decisions {
        return Err(NotFound);
      }
      var d := decisions[id];
      assert Sealed(State(), id);
      var s := snapshots[d.snapshotId];
      var facts: seq<ReceiptFact> := [];
      for i := 0 to |s.facts|
        invariant |facts| == i
        invariant forall j :: 0 <= j < i ==> facts[j] == FactOf(State(), s, d, j, visible)
      {
        var versionId := s.facts[i];
        var v := versions[versionId];
        if v.scope !in visible {
          facts := facts + [ReceiptFact(versionId, i + 1, versionId in d.reliedOn, true, v.scope, None, [], None)];
        } else {
          var evidence := EvidenceFor(links, versionId, s.knownAt, visible);
          var revokedAt := if versionId in revocations then Some(revocations[versionId].revokedAt) else None;
          facts := facts + [ReceiptFact(
            versionId, i + 1, versionId in d.reliedOn, false, v.scope,
            Some(AsKnown(v, Some(s.knownAt))), evidence, revokedAt)];
        }
      }
      var recomputed := ReceiptHash(ContentOf(organization, versions, s, id, d));
      result := Ok(Receipt(facts, d.receipt, recomputed == d.receipt));
    }
  }
}
