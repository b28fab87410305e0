/** The projected tables with all their columns (`app/models`), and what of them reaches the graph. */
module Tables {
  import opened Common
  import opened Graph

  datatype TableRow =
    | EntityRow(
        id: Id, org: Id, entityType: string, externalId: string,
        displayName: Option<string>, createdAt: Instant, updatedAt: Instant)
    | FactRow(id: Id, org: Id, entityId: Id, property: string, createdAt: Instant, updatedAt: Instant)
    | SourceRow(
        id: Id, org: Id, name: string, sourceType: string, uri: Option<string>, defaultAuthority: int,
        createdAt: Instant, updatedAt: Instant)
    | VersionRow(
        id: Id, org: Id, factId: Id, sourceId: Id, supersedesId: Option<Id>,
        version: int, value: string, validFrom: Instant, validUntil: Option<Instant>, observedAt: Instant,
        recordedAt: Instant, validUntilRecordedAt: Option<Instant>,
        authority: int, confidence: string, privacyScope: string)
    | EvidenceRow(
        id: Id, org: Id, sourceId: Id, evidenceType: string, excerpt: string, contentSha256: Sha256<string>,
        uri: Option<string>, metadata: string, privacyScope: string, capturedAt: Instant, recordedAt: Instant)
    | VersionEvidenceRow(
        org: Id, versionId: Id, evidenceId: Id, relation: string, linkedAt: Instant, linkedBy: Option<Id>)
    | SnapshotRow(
        id: Id, org: Id, capturedBy: Id, query: string, validAt: Instant, knownAt: Instant,
        embeddingModel: string, vectorSearch: string, privacyScopes: seq<string>, parameters: string,
        createdAt: Instant)
    | SnapshotFactRow(org: Id, snapshotId: Id, versionId: Id, position: int, ranking: string)
    | DecisionRow(
        id: Id, org: Id, snapshotId: Id, decidedBy: Id, agent: Option<string>, action: string,
        outcome: string, rationale: Option<string>, decidedAt: Instant, receiptSha256: string)
    | DecisionFactRow(org: Id, decisionId: Id, snapshotId: Id, versionId: Id)

  function ToGraphRow(r: TableRow): Graph.Row {
    match r
    case EntityRow(id, org, entityType, externalId, _, _, _) => Graph.Entity(id, org, entityType, externalId)
    case FactRow(id, org, entityId, property, _, _) => Graph.Fact(id, org, entityId, property)
    case SourceRow(id, org, name, sourceType, _, authority, _, _) => Graph.Source(id, org, name, sourceType, authority)
    case VersionRow(id, org, factId, sourceId, supersedesId, version, value, from, until, _, recordedAt, endRecordedAt,
                    authority, confidence, scope) =>
      Graph.FactVersion(
        id, org, factId, sourceId, supersedesId, version, Sha256(value), from, until, recordedAt, endRecordedAt,
        authority, confidence, scope)
    case EvidenceRow(id, org, sourceId, evidenceType, _, sha, uri, _, scope, capturedAt, _) =>
      Graph.Evidence(id, org, sourceId, evidenceType, sha, uri, scope, capturedAt)
    case VersionEvidenceRow(org, versionId, evidenceId, relation, linkedAt, _) =>
      Graph.VersionEvidence(org, versionId, evidenceId, relation, linkedAt)
    case SnapshotRow(id, org, capturedBy, _, validAt, knownAt, _, _, _, _, _) =>
      Graph.Snapshot(id, org, validAt, knownAt, capturedBy)
    case SnapshotFactRow(org, snapshotId, versionId, position, _) =>
      Graph.SnapshotFact(org, snapshotId, versionId, position)
    case DecisionRow(id, org, snapshotId, decidedBy, agent, action, _, _, decidedAt, receipt) =>
      Graph.Decision(id, org, snapshotId, action, agent, decidedAt, decidedBy, receipt)
    case DecisionFactRow(org, decisionId, _, versionId) => Graph.DecisionFact(org, decisionId, versionId)
  }

  /**
   The row without the columns the graph never sees: display names, source addresses, bookkeeping
   times, when a version was observed, evidence excerpts and metadata, who linked evidence, what a
   snapshot asked and how it ranked, and what a decision decided and why. `excerpt` and
   `content_sha256` are two columns here; `ExcerptCountsThroughItsHash` is about rows in which the
   second is computed from the first.
   */
  function Kept(r: TableRow): TableRow {
    match r
    case EntityRow(id, org, entityType, externalId, _, _, _) => EntityRow(id, org, entityType, externalId, None, 0, 0)
    case FactRow(id, org, entityId, property, _, _) => FactRow(id, org, entityId, property, 0, 0)
    case SourceRow(id, org, name, sourceType, _, authority, _, _) =>
      SourceRow(id, org, name, sourceType, None, authority, 0, 0)
    case VersionRow(id, org, factId, sourceId, supersedesId, version, value, from, until, _, recordedAt, endRecordedAt,
                    authority, confidence, scope) =>
      VersionRow(
        id, org, factId, sourceId, supersedesId, version, value, from, until, 0, recordedAt, endRecordedAt,
        authority, confidence, scope)
    case EvidenceRow(id, org, sourceId, evidenceType, _, sha, uri, _, scope, capturedAt, _) =>
      EvidenceRow(id, org, sourceId, evidenceType, "", sha, uri, "", scope, capturedAt, 0)
    case VersionEvidenceRow(org, versionId, evidenceId, relation, linkedAt, _) =>
      VersionEvidenceRow(org, versionId, evidenceId, relation, linkedAt, None)
    case SnapshotRow(id, org, capturedBy, _, validAt, knownAt, _, _, _, _, _) =>
      SnapshotRow(id, org, capturedBy, "", validAt, knownAt, "", "", [], "", 0)
    case SnapshotFactRow(org, snapshotId, versionId, position, _) =>
      SnapshotFactRow(org, snapshotId, versionId, position, "")
    case DecisionRow(id, org, snapshotId, decidedBy, agent, action, _, _, decidedAt, receipt) =>
      DecisionRow(id, org, snapshotId, decidedBy, agent, action, "", None, decidedAt, receipt)
    case DecisionFactRow(org, decisionId, _, versionId) => DecisionFactRow(org, decisionId, 0, versionId)
  }

  /**
   Two rows become the same graph row exactly when they agree outside those columns; a value counts
   through its hash.
   */
  lemma SameGraphRowIff(r: TableRow, q: TableRow)
    ensures ToGraphRow(r) == ToGraphRow(q) <==> Kept(r) == Kept(q)
  {
  }

  /** `content_hash`: how the service fills the column. */
  predicate Hashed(r: TableRow) {
    r.EvidenceRow? ==> r.contentSha256 == Sha256(r.excerpt)
  }

  /** Evidence rows written by the service become the same graph row only if their excerpts are the same. */
  lemma ExcerptCountsThroughItsHash(r: TableRow, q: TableRow)
    requires r.EvidenceRow? && q.EvidenceRow? && Hashed(r) && Hashed(q)
    ensures ToGraphRow(r) == ToGraphRow(q) <==> Kept(r) == Kept(q) && r.excerpt == q.excerpt
  {
  }

  type TableDatabase = map<Graph.Key, TableRow>

  function Image(db: TableDatabase): Graph.Database {
    map k | k in db :: ToGraphRow(db[k])
  }

  /** The same rows, up to the columns the graph never sees. */
  ghost predicate SameKept(a: TableDatabase, b: TableDatabase) {
    a.Keys == b.Keys && forall k :: k in a && k in b ==> Kept(a[k]) == Kept(b[k])
  }

  lemma SameImageIff(a: TableDatabase, b: TableDatabase)
    ensures Image(a) == Image(b) <==> SameKept(a, b)
  {
    assert Image(a).Keys == a.Keys && Image(b).Keys == b.Keys;
    forall k | k in a && k in b ensures Image(a)[k] == Image(b)[k] <==> Kept(a[k]) == Kept(b[k]) {
      SameGraphRowIff(a[k], b[k]);
    }
  }

  /**
   A graph that is the projection of one database is the projection of another exactly when the two
   hold the same rows up to the columns the graph never sees.
   */
  lemma SameProjectionIff(g: Graph.ProvenanceGraph, a: TableDatabase, b: TableDatabase)
    requires Graph.WellFormed(Image(a)) && Graph.WellFormed(Image(b)) && Graph.IsProjection(g, Image(a))
    ensures Graph.IsProjection(g, Image(b)) <==> SameKept(a, b)
  {
    SameImageIff(a, b);
    if Graph.IsProjection(g, Image(b)) {
      Graph.GraphDeterminesDatabase(g, Image(a), Image(b));
    }
  }

  // ----- which column lands where -----

  /** The property holds the column; a null column is an absent property. */
  ghost predicate Column(props: Props, name: string, value: Option<Val>) {
    (name in props <==> value.Some?) && (name in props ==> props[name] == value.value)
  }

  ghost predicate TextColumn(props: Props, name: string, value: string) {
    Column(props, name, Some(Text(value)))
  }

  ghost predicate NumberColumn(props: Props, name: string, value: int) {
    Column(props, name, Some(Number(value)))
  }

  ghost predicate NameColumn(props: Props, name: string, value: Id) {
    Column(props, name, Some(Name(value)))
  }

  ghost predicate EntityColumns(props: Props, r: TableRow)
    requires r.EntityRow?
  {
    && props.Keys <= {"org", "entity_type", "external_id"} && NameColumn(props, "org", r.org)
    && TextColumn(props, "entity_type", r.entityType) && TextColumn(props, "external_id", r.externalId)
  }

  ghost predicate FactColumns(props: Props, r: TableRow)
    requires r.FactRow?
  {
    && props.Keys <= {"org", "property"}
    && NameColumn(props, "org", r.org) && TextColumn(props, "property", r.property)
  }

  ghost predicate SourceColumns(props: Props, r: TableRow)
    requires r.SourceRow?
  {
    && props.Keys <= {"org", "name", "source_type", "default_authority"} && NameColumn(props, "org", r.org)
    && TextColumn(props, "name", r.name) && TextColumn(props, "source_type", r.sourceType)
    && NumberColumn(props, "default_authority", r.defaultAuthority)
  }

  ghost predicate VersionTimes(props: Props, r: TableRow)
    requires r.VersionRow?
  {
    && NumberColumn(props, "valid_from", r.validFrom) && NumberColumn(props, "recorded_at", r.recordedAt)
    && Column(props, "valid_until", if r.validUntil.None? then None else Some(Number(r.validUntil.value)))
    && Column(props, "valid_until_recorded_at",
              if r.validUntilRecordedAt.None? then None else Some(Number(r.validUntilRecordedAt.value)))
  }

  ghost predicate VersionContent(props: Props, r: TableRow)
    requires r.VersionRow?
  {
    && NameColumn(props, "org", r.org) && NumberColumn(props, "version", r.version)
    && Column(props, "value_sha256", Some(Digest(Sha256(r.value))))
    && NumberColumn(props, "authority", r.authority) && TextColumn(props, "confidence", r.confidence)
    && TextColumn(props, "privacy_scope", r.privacyScope)
  }

  ghost predicate VersionColumns(props: Props, r: TableRow)
    requires r.VersionRow?
  {
    && props.Keys <= {"org", "version", "value_sha256", "valid_from", "valid_until", "recorded_at",
                      "valid_until_recorded_at", "authority", "confidence", "privacy_scope"}
    && VersionTimes(props, r) && VersionContent(props, r)
  }

  ghost predicate EvidenceColumns(props: Props, r: TableRow)
    requires r.EvidenceRow?
  {
    && props.Keys <= {"org", "evidence_type", "content_sha256", "uri", "privacy_scope", "captured_at"}
    && NameColumn(props, "org", r.org) && TextColumn(props, "evidence_type", r.evidenceType)
    && Column(props, "content_sha256", Some(Digest(r.contentSha256)))
    && Column(props, "uri", if r.uri.None? then None else Some(Text(r.uri.value)))
    && TextColumn(props, "privacy_scope", r.privacyScope) && NumberColumn(props, "captured_at", r.capturedAt)
  }

  ghost predicate SnapshotColumns(props: Props, r: TableRow)
    requires r.SnapshotRow?
  {
    && props.Keys <= {"org", "valid_at", "known_at", "captured_by_user_id"}
    && NameColumn(props, "org", r.org) && NumberColumn(props, "valid_at", r.validAt)
    && NumberColumn(props, "known_at", r.knownAt) && NameColumn(props, "captured_by_user_id", r.capturedBy)
  }

  ghost predicate DecisionColumns(props: Props, r: TableRow)
    requires r.DecisionRow?
  {
    && props.Keys <= {"org", "action", "agent", "decided_at", "decided_by_user_id", "receipt_sha256"}
    && NameColumn(props, "org", r.org) && TextColumn(props, "action", r.action)
    && Column(props, "agent", if r.agent.None? then None else Some(Text(r.agent.value)))
    && NumberColumn(props, "decided_at", r.decidedAt) && NameColumn(props, "decided_by_user_id", r.decidedBy)
    && TextColumn(props, "receipt_sha256", r.receiptSha256)
  }

  predicate IsLink(r: TableRow) {
    r.VersionEvidenceRow? || r.SnapshotFactRow? || r.DecisionFactRow?
  }

  /** The node that stands for a row, by the table and the id column. */
  function NodeFor(r: TableRow): Node
    requires !IsLink(r)
  {
    var kind :=
      if r.EntityRow? then EntityNode else if r.FactRow? then FactNode else if r.SourceRow? then SourceNode
      else if r.VersionRow? then VersionNode else if r.EvidenceRow? then EvidenceNode
      else if r.SnapshotRow? then SnapshotNode else DecisionNode;
    Node(kind, r.id)
  }

  /** The relationship a link row stands for, by its two id columns. */
  function EdgeFor(r: TableRow): Edge
    requires IsLink(r)
  {
    if r.VersionEvidenceRow? then Edge(EVIDENCE_FOR, Node(EvidenceNode, r.evidenceId), Node(VersionNode, r.versionId))
    else if r.SnapshotFactRow? then Edge(INCLUDED, Node(SnapshotNode, r.snapshotId), Node(VersionNode, r.versionId))
    else Edge(RELIED_ON, Node(DecisionNode, r.decisionId), Node(VersionNode, r.versionId))
  }

  ghost predicate NodeColumns(props: Props, r: TableRow)
    requires !IsLink(r)
  {
    && (r.EntityRow? ==> EntityColumns(props, r)) && (r.FactRow? ==> FactColumns(props, r))
    && (r.SourceRow? ==> SourceColumns(props, r)) && (r.VersionRow? ==> VersionColumns(props, r))
    && (r.EvidenceRow? ==> EvidenceColumns(props, r)) && (r.SnapshotRow? ==> SnapshotColumns(props, r))
    && (r.DecisionRow? ==> DecisionColumns(props, r))
  }

  ghost predicate LinkColumns(props: Props, r: TableRow)
    requires IsLink(r)
  {
    && (r.VersionEvidenceRow? ==>
          && props.Keys <= {"relation", "linked_at"}
          && TextColumn(props, "relation", r.relation) && NumberColumn(props, "linked_at", r.linkedAt))
    && (r.SnapshotFactRow? ==> props.Keys <= {"position"} && NumberColumn(props, "position", r.position))
    && (r.DecisionFactRow? ==> props == map[])
  }

  /** Where the reference columns of a row say that a relationship of this kind goes. */
  predicate Goes(r: TableRow, rel: Rel, x: Node) {
    || (r.FactRow? && rel == OF_ENTITY && x == Node(EntityNode, r.entityId))
    || (r.VersionRow? && rel == VERSION_OF && x == Node(FactNode, r.factId))
    || (r.VersionRow? && rel == ASSERTED_BY && x == Node(SourceNode, r.sourceId))
    || (r.VersionRow? && rel == SUPERSEDES && r.supersedesId.Some? && x == Node(VersionNode, r.supersedesId.value))
    || (r.EvidenceRow? && rel == FROM_SOURCE && x == Node(SourceNode, r.sourceId))
    || (r.DecisionRow? && rel == BASED_ON && x == Node(SnapshotNode, r.snapshotId))
  }

  predicate OfLink(rel: Rel) {
    rel == EVIDENCE_FOR || rel == INCLUDED || rel == RELIED_ON
  }

  /** The relationships of a node's row are exactly those its columns name. */
  ghost predicate NodeEdges(g: ProvenanceGraph, r: TableRow)
    requires !IsLink(r)
  {
    forall rel, x :: !OfLink(rel) ==> (Edge(rel, NodeFor(r), x) in g.edges <==> Goes(r, rel, x))
  }

  lemma CompactColumn(sets: Sets, name: string)
    requires name in sets
    ensures Column(Compact(sets), name, sets[name]) && Compact(sets).Keys <= sets.Keys
  {
  }

  lemma NodeOf(r: TableRow)
    requires !IsLink(r)
    ensures OwnNode(ToGraphRow(r)).Some? && OwnNode(ToGraphRow(r)).value.0 == NodeFor(r)
  {
  }

  lemma EntityRowColumns(r: TableRow, sets: Sets)
    requires r.EntityRow? && OwnNode(ToGraphRow(r)) == Some((NodeFor(r), sets))
    ensures NodeColumns(Compact(sets), r)
  {
    CompactColumn(sets, "org");
    CompactColumn(sets, "entity_type");
    CompactColumn(sets, "external_id");
  }

  lemma FactRowColumns(r: TableRow, sets: Sets)
    requires r.FactRow? && OwnNode(ToGraphRow(r)) == Some((NodeFor(r), sets))
    ensures NodeColumns(Compact(sets), r)
  {
    CompactColumn(sets, "org");
    CompactColumn(sets, "property");
  }

  lemma SourceRowColumns(r: TableRow, sets: Sets)
    requires r.SourceRow? && OwnNode(ToGraphRow(r)) == Some((NodeFor(r), sets))
    ensures NodeColumns(Compact(sets), r)
  {
    CompactColumn(sets, "org");
    CompactColumn(sets, "name");
    CompactColumn(sets, "source_type");
    CompactColumn(sets, "default_authority");
  }

  lemma EvidenceRowColumns(r: TableRow, sets: Sets)
    requires r.EvidenceRow? && OwnNode(ToGraphRow(r)) == Some((NodeFor(r), sets))
    ensures NodeColumns(Compact(sets), r)
  {
    CompactColumn(sets, "org");
    CompactColumn(sets, "evidence_type");
    CompactColumn(sets, "content_sha256");
    CompactColumn(sets, "uri");
    CompactColumn(sets, "privacy_scope");
    CompactColumn(sets, "captured_at");
  }

  lemma SnapshotRowColumns(r: TableRow, sets: Sets)
    requires r.SnapshotRow? && OwnNode(ToGraphRow(r)) == Some((NodeFor(r), sets))
    ensures NodeColumns(Compact(sets), r)
  {
    CompactColumn(sets, "org");
    CompactColumn(sets, "valid_at");
    CompactColumn(sets, "known_at");
    CompactColumn(sets, "captured_by_user_id");
  }

  lemma DecisionRowColumns(r: TableRow, sets: Sets)
    requires r.DecisionRow? && OwnNode(ToGraphRow(r)) == Some((NodeFor(r), sets))
    ensures NodeColumns(Compact(sets), r)
  {
    CompactColumn(sets, "org");
    CompactColumn(sets, "action");
    CompactColumn(sets, "agent");
    CompactColumn(sets, "decided_at");
    CompactColumn(sets, "decided_by_user_id");
    CompactColumn(sets, "receipt_sha256");
  }

  lemma VersionRowTimes(r: TableRow, sets: Sets)
    requires r.VersionRow? && OwnNode(ToGraphRow(r)) == Some((NodeFor(r), sets))
    ensures VersionTimes(Compact(sets), r)
  {
    CompactColumn(sets, "valid_from");
    CompactColumn(sets, "valid_until");
    CompactColumn(sets, "recorded_at");
    CompactColumn(sets, "valid_until_recorded_at");
  }

  lemma VersionRowContent(r: TableRow, sets: Sets)
    requires r.VersionRow? && OwnNode(ToGraphRow(r)) == Some((NodeFor(r), sets))
    ensures VersionContent(Compact(sets), r)
  {
    CompactColumn(sets, "org");
    CompactColumn(sets, "version");
    CompactColumn(sets, "value_sha256");
    CompactColumn(sets, "authority");
    CompactColumn(sets, "confidence");
    CompactColumn(sets, "privacy_scope");
  }

  lemma VersionRowColumns(r: TableRow, sets: Sets)
    requires r.VersionRow? && OwnNode(ToGraphRow(r)) == Some((NodeFor(r), sets))
    ensures NodeColumns(Compact(sets), r)
  {
    VersionRowTimes(r, sets);
    VersionRowContent(r, sets);
    CompactColumn(sets, "org");
  }

  lemma LinkRowColumns(r: TableRow)
    requires IsLink(r)
    ensures var row := ToGraphRow(r);
            && OwnNode(row).None? && |Links(row)| == 1 && Links(row)[0].edge == EdgeFor(r)
            && LinkColumns(Compact(Links(row)[0].sets), r)
  {
  }

  lemma RowColumns(r: TableRow)
    requires !IsLink(r)
    ensures var own := OwnNode(ToGraphRow(r));
            own.Some? && own.value.0 == NodeFor(r) && NodeColumns(Compact(own.value.1), r)
  {
    NodeOf(r);
    var sets := OwnNode(ToGraphRow(r)).value.1;
    match r
    case EntityRow(_, _, _, _, _, _, _) => EntityRowColumns(r, sets);
    case FactRow(_, _, _, _, _, _) => FactRowColumns(r, sets);
    case SourceRow(_, _, _, _, _, _, _, _) => SourceRowColumns(r, sets);
    case VersionRow(_, _, _, _, _, _, _, _, _, _, _, _, _, _, _) => VersionRowColumns(r, sets);
    case EvidenceRow(_, _, _, _, _, _, _, _, _, _, _) => EvidenceRowColumns(r, sets);
    case SnapshotRow(_, _, _, _, _, _, _, _, _, _, _) => SnapshotRowColumns(r, sets);
    case DecisionRow(_, _, _, _, _, _, _, _, _, _) => DecisionRowColumns(r, sets);
  }

  /** Where the relationships of a node's row go, before they are merged. */
  lemma RowDescribes(r: TableRow, rel: Rel, x: Node)
    requires !IsLink(r) && !OfLink(rel)
    ensures Describes(ToGraphRow(r), Edge(rel, NodeFor(r), x)) <==> Goes(r, rel, x)
  {
    var links := Links(ToGraphRow(r));
    assert |links| > 0 ==> links[0] in links;
    assert |links| > 1 ==> links[1] in links;
    assert |links| > 2 ==> links[2] in links;
  }

  lemma EdgesShown(g: ProvenanceGraph, db: Database, r: TableRow, rel: Rel, x: Node)
    requires IsProjection(g, db) && !IsLink(r) && !OfLink(rel)
    requires NodeKey(NodeFor(r)) in db && db[NodeKey(NodeFor(r))] == ToGraphRow(r)
    ensures Edge(rel, NodeFor(r), x) in g.edges <==> Goes(r, rel, x)
  {
    RowDescribes(r, rel, x);
    assert Owner(Edge(rel, NodeFor(r), x)) == NodeKey(NodeFor(r));
  }

  /**
   In the projection of a database every row of a node table has its node, whose properties are the
   row's columns by name, null ones absent and no others, and whose relationships go where its
   reference columns say.
   */
  lemma NodeRowsShown(g: ProvenanceGraph, db: TableDatabase, k: Key)
    requires WellFormed(Image(db)) && IsProjection(g, Image(db)) && k in db && !IsLink(db[k])
    ensures NodeFor(db[k]) in g.nodes && NodeColumns(g.nodes[NodeFor(db[k])], db[k]) && NodeEdges(g, db[k])
  {
    var r := db[k];
    RowColumns(r);
    assert Image(db)[k] == ToGraphRow(r) && k == NodeKey(NodeFor(r));
    forall rel, x | !OfLink(rel) ensures Edge(rel, NodeFor(r), x) in g.edges <==> Goes(r, rel, x) {
      EdgesShown(g, Image(db), r, rel, x);
    }
  }

  /** And every row of a link table has its relationship between the two ids, with its columns. */
  lemma LinkRowsShown(g: ProvenanceGraph, db: TableDatabase, k: Key)
    requires WellFormed(Image(db)) && IsProjection(g, Image(db)) && k in db && IsLink(db[k])
    ensures EdgeFor(db[k]) in g.edges && LinkColumns(g.edges[EdgeFor(db[k])], db[k])
  {
    var r := db[k];
    LinkRowColumns(r);
    var l := Links(ToGraphRow(r))[0];
    assert Image(db)[k] == ToGraphRow(r);
    LinkOwner(ToGraphRow(r), l);
    assert Describes(Image(db)[Owner(l.edge)], l.edge);
  }
}
