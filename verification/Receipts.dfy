/** Decision receipts as values: what the receipt hash covers (`app/domain/decisions.py`). */
module Receipts {
  import opened Common
  import opened Sorting

  const MAX_RELIED_ON := 50

  predicate IdLe(a: Id, b: Id) {
    a <= b
  }

  /** Cited versions must be distinct, at most 50, and all from the snapshot. */
  function ValidateReliedOn(reliedOn: seq<Id>, snapshotFacts: set<Id>): Result<seq<Id>> {
    if !Distinct(reliedOn) then Err(ValidationFailed)
    else if |reliedOn| > MAX_RELIED_ON then Err(ValidationFailed)
    else if exists id :: id in reliedOn && id !in snapshotFacts then Err(ValidationFailed)
    else Ok(SortBy(reliedOn, IdLe))
  }

  /** Accepted exactly for legal citations; the result is the same citations in id order. */
  lemma ValidateReliedOnExact(reliedOn: seq<Id>, snapshotFacts: set<Id>)
    ensures ValidateReliedOn(reliedOn, snapshotFacts).Ok? <==>
            Distinct(reliedOn) && |reliedOn| <= 50 && forall id :: id in reliedOn ==> id in snapshotFacts
    ensures ValidateReliedOn(reliedOn, snapshotFacts).Err? ==>
              ValidateReliedOn(reliedOn, snapshotFacts).error == ValidationFailed
    ensures ValidateReliedOn(reliedOn, snapshotFacts).Ok? ==>
              var ids := ValidateReliedOn(reliedOn, snapshotFacts).value;
              && multiset(ids) == multiset(reliedOn)
              && (forall i, j :: 0 <= i < j < |ids| ==> ids[i] < ids[j])
  {
    if ValidateReliedOn(reliedOn, snapshotFacts).Ok? {
      SortKeepsElements(reliedOn, IdLe);
      SortSorts(reliedOn, IdLe);
      SortedDistinct(reliedOn, SortBy(reliedOn, IdLe));
    }
  }

  lemma SortedDistinct(xs: seq<Id>, ids: seq<Id>)
    requires Distinct(xs) && multiset(xs) == multiset(ids) && SortedBy(ids, IdLe)
    ensures forall i, j :: 0 <= i < j < |ids| ==> ids[i] < ids[j]
  {
    RearrangedDistinct(xs, ids);
    forall i, j | 0 <= i < j < |ids| ensures ids[i] < ids[j] {
      assert IdLe(ids[i], ids[j]);
    }
  }

  // ----- the sealed document -----

  /** One entry of `facts`: version id, position in the snapshot, digest of the recorded value. */
  datatype FactEntry = FactEntry(versionId: Id, position: nat, digest: Sha256<string>)

  datatype Content = Content(
    organizationId: Id,
    decisionId: Id,
    snapshotId: Id,
    decidedAt: Instant,
    decidedBy: Id,
    agent: Option<string>,
    action: string,
    outcome: string,
    rationale: Option<string>,
    query: string,
    validAt: Instant,
    knownAt: Instant,
    embeddingModel: string,
    vectorSearch: string,
    scopes: seq<PrivacyScope>,
    facts: seq<FactEntry>,
    reliedOn: set<Id>)

  datatype DecisionPart = DecisionPart(
    id: Id,
    decidedAt: Instant,
    decidedBy: Id,
    agent: Option<string>,
    action: string,
    outcome: string,
    rationale: Option<string>)

  datatype ContextPart = ContextPart(
    snapshotId: Id,
    query: string,
    validAt: Instant,
    knownAt: Instant,
    embeddingModel: string,
    vectorSearch: string,
    scopes: seq<PrivacyScope>)

  datatype FactPart = FactPart(entry: FactEntry, reliedOn: bool)

  datatype Document = Document(
    organizationId: Id,
    decision: DecisionPart,
    context: ContextPart,
    facts: seq<FactPart>)

  /** Scope names in the alphabetical order `sorted` puts them in. */
  function Alphabetical(s: PrivacyScope): nat {
    match s
    case Confidential => 0
    case Internal => 1
    case Public => 2
    case Restricted => 3
  }

  /** Confidential, internal, public, restricted. */
  lemma ScopesAlphabetical()
    ensures ScopeLe(Confidential, Internal) && !ScopeLe(Internal, Confidential)
    ensures ScopeLe(Internal, Public) && !ScopeLe(Public, Internal)
    ensures ScopeLe(Public, Restricted) && !ScopeLe(Restricted, Public)
  {
  }

  predicate ScopeLe(a: PrivacyScope, b: PrivacyScope) {
    Alphabetical(a) <= Alphabetical(b)
  }

  predicate PositionLe(a: FactEntry, b: FactEntry) {
    a.position <= b.position
  }

  function Flagged(entries: seq<FactEntry>, reliedOn: set<Id>): seq<FactPart> {
    seq(|entries|, i requires 0 <= i < |entries| => FactPart(entries[i], entries[i].versionId in reliedOn))
  }

  function ReceiptDocument(c: Content): Document {
    Document(
      c.organizationId,
      DecisionPart(c.decisionId, c.decidedAt, c.decidedBy, c.agent, c.action, c.outcome, c.rationale),
      ContextPart(
        c.snapshotId, c.query, c.validAt, c.knownAt, c.embeddingModel, c.vectorSearch,
        SortBy(c.scopes, ScopeLe)),
      Flagged(SortBy(c.facts, PositionLe), c.reliedOn))
  }

  function ReceiptHash(c: Content): Sha256<Document> {
    Sha256(ReceiptDocument(c))
  }

  /** Positions are unique within a snapshot, and only versions of the snapshot are cited. */
  ghost predicate ValidContent(c: Content) {
    && (forall i, j :: 0 <= i < j < |c.facts| ==> c.facts[i].position != c.facts[j].position)
    && (forall id :: id in c.reliedOn ==> exists e :: e in c.facts && e.versionId == id)
  }

  /** Equal up to the order of scopes and of the fact map. */
  ghost predicate SameContent(a: Content, b: Content) {
    && a.(scopes := [], facts := []) == b.(scopes := [], facts := [])
    && multiset(a.scopes) == multiset(b.scopes)
    && multiset(a.facts) == multiset(b.facts)
  }

  lemma FlaggedDetermines(a: Content, b: Content)
    requires ValidContent(a) && ValidContent(b)
    requires Flagged(SortBy(a.facts, PositionLe), a.reliedOn) == Flagged(SortBy(b.facts, PositionLe), b.reliedOn)
    ensures multiset(a.facts) == multiset(b.facts)
    ensures a.reliedOn <= b.reliedOn
  {
    var sa, sb := SortBy(a.facts, PositionLe), SortBy(b.facts, PositionLe);
    var fa, fb := Flagged(sa, a.reliedOn), Flagged(sb, b.reliedOn);
    assert |fa| == |sa| && |fb| == |sb|;
    assert sa == sb by {
      forall i | 0 <= i < |sa| ensures sa[i] == sb[i] {
        assert fa[i].entry == fb[i].entry;
      }
    }
    SortKeepsElements(a.facts, PositionLe);
    SortKeepsElements(b.facts, PositionLe);
    SameElements(sa, a.facts);
    forall id | id in a.reliedOn ensures id in b.reliedOn {
      var e :| e in a.facts && e.versionId == id;
      var i :| 0 <= i < |sa| && sa[i] == e;
      assert fa[i].reliedOn && fb[i].reliedOn;
    }
  }

  lemma EqualPositions(facts: seq<FactEntry>)
    requires forall i, j :: 0 <= i < j < |facts| ==> facts[i].position != facts[j].position
    ensures forall x, y :: x in facts && y in facts && PositionLe(x, y) && PositionLe(y, x) ==> x == y
  {
  }

  lemma SameContentSameDocument(a: Content, b: Content)
    requires ValidContent(a) && SameContent(a, b)
    ensures ReceiptDocument(a) == ReceiptDocument(b)
  {
    EqualPositions(a.facts);
    SortIgnoresOrder(a.facts, b.facts, PositionLe);
    SortIgnoresOrder(a.scopes, b.scopes, ScopeLe);
  }

  lemma SameDocumentSameContent(a: Content, b: Content)
    requires ValidContent(a) && ValidContent(b) && ReceiptDocument(a) == ReceiptDocument(b)
    ensures SameContent(a, b)
  {
    var da, db := ReceiptDocument(a), ReceiptDocument(b);
    assert multiset(a.scopes) == multiset(b.scopes) by {
      SortKeepsElements(a.scopes, ScopeLe);
      SortKeepsElements(b.scopes, ScopeLe);
      assert da.context.scopes == db.context.scopes;
    }
    assert da.facts == db.facts;
    FlaggedDetermines(a, b);
    FlaggedDetermines(b, a);
  }

  /** The sealed document determines every covered field, and nothing but them. */
  lemma ReceiptDocumentInjective(a: Content, b: Content)
    requires ValidContent(a) && ValidContent(b)
    ensures ReceiptHash(a) == ReceiptHash(b) <==> SameContent(a, b)
  {
    if ReceiptDocument(a) == ReceiptDocument(b) {
      SameDocumentSameContent(a, b);
    }
    if SameContent(a, b) {
      SameContentSameDocument(a, b);
    }
  }
}
