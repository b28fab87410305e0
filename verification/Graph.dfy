/** The provenance graph: what each row merges into it (`app/provenance/projection.py`). */
module Graph {
  import opened Common

  datatype Label = EntityNode | FactNode | VersionNode | SourceNode | EvidenceNode | SnapshotNode | DecisionNode

  datatype Node = Node(kind: Label, id: Id)

  datatype Rel =
    | OF_ENTITY
    | VERSION_OF
    | ASSERTED_BY
    | SUPERSEDES
    | FROM_SOURCE
    | EVIDENCE_FOR
    | INCLUDED
    | BASED_ON
    | RELIED_ON

  datatype Edge = Edge(rel: Rel, src: Node, dst: Node)

  /** A property value; a node or edge has no property that was set to null. */
  datatype Val = Text(text: string) | Number(number: int) | Name(id: Id) | Digest(digest: Sha256<string>)

  type Props = map<string, Val>

  /** The right-hand sides of a `SET` clause; `None` is null and removes the property. */
  type Sets = map<string, Option<Val>>

  datatype ProvenanceGraph = ProvenanceGraph(nodes: map<Node, Props>, edges: map<Edge, Props>)

  /** One clause of a Cypher statement, for one row. */
  datatype Merge =
    | SetNode(node: Node, sets: Sets)
    | EnsureNode(node: Node, org: Id)
    | SetEdge(edge: Edge, sets: Sets)

  function Patch(props: Props, sets: Sets): Props {
    map k | k in props.Keys + sets.Keys && (k in sets ==> sets[k].Some?) ::
      if k in sets then sets[k].value else props[k]
  }

  function Compact(sets: Sets): Props {
    map k | k in sets && sets[k].Some? :: sets[k].value
  }

  function Placeholder(org: Id): Props {
    map["org" := Name(org)]
  }

  function ApplyMerge(g: ProvenanceGraph, m: Merge): ProvenanceGraph {
    match m
    case SetNode(n, sets) =>
      g.(nodes := g.nodes[n := Patch(if n in g.nodes then g.nodes[n] else map[], sets)])
    case EnsureNode(n, org) =>
      if n in g.nodes then g else g.(nodes := g.nodes[n := Placeholder(org)])
    case SetEdge(e, sets) =>
      g.(edges := g.edges[e := Patch(if e in g.edges then g.edges[e] else map[], sets)])
  }

  function ApplyMerges(g: ProvenanceGraph, ms: seq<Merge>): ProvenanceGraph {
    if ms == [] then g else ApplyMerge(ApplyMerges(g, ms[..|ms| - 1]), ms[|ms| - 1])
  }

  // ----- rows and their Cypher statements -----

  /** A graph row: the parameters that `to_graph_row` hands to a statement. */
  datatype Row =
    | Entity(id: Id, org: Id, entityType: string, externalId: string)
    | Fact(id: Id, org: Id, entityId: Id, property: string)
    | Source(id: Id, org: Id, name: string, sourceType: string, defaultAuthority: int)
    | FactVersion(
        id: Id, org: Id, factId: Id, sourceId: Id, supersedesId: Option<Id>,
        version: int, valueSha256: Sha256<string>, validFrom: Instant, validUntil: Option<Instant>,
        recordedAt: Instant, validUntilRecordedAt: Option<Instant>,
        authority: int, confidence: string, privacyScope: string)
    | Evidence(
        id: Id, org: Id, sourceId: Id, evidenceType: string, contentSha256: Sha256<string>,
        uri: Option<string>, privacyScope: string, capturedAt: Instant)
    | VersionEvidence(org: Id, versionId: Id, evidenceId: Id, relation: string, linkedAt: Instant)
    | Snapshot(id: Id, org: Id, validAt: Instant, knownAt: Instant, capturedBy: Id)
    | SnapshotFact(org: Id, snapshotId: Id, versionId: Id, position: int)
    | Decision(
        id: Id, org: Id, snapshotId: Id, action: string, agent: Option<string>,
        decidedAt: Instant, decidedBy: Id, receiptSha256: string)
    | DecisionFact(org: Id, decisionId: Id, versionId: Id)

  /** Primary keys: a node's row, or a link row named by the edge it becomes. */
  datatype Key = NodeKey(node: Node) | LinkKey(edge: Edge)

  datatype Link = Link(edge: Edge, sets: Sets)

  function TextOf(s: string): Option<Val> { Some(Text(s)) }
  function NumberOf(n: int): Option<Val> { Some(Number(n)) }
  function Ident(id: Id): Option<Val> { Some(Name(id)) }
  function OptionalNumber(n: Option<int>): Option<Val> { if n.None? then None else NumberOf(n.value) }
  function OptionalText(s: Option<string>): Option<Val> { if s.None? then None else TextOf(s.value) }

  /** The node a row describes, with its SET clause; link rows describe none. */
  function OwnNode(r: Row): Option<(Node, Sets)> {
    match r
    case Entity(id, org, entityType, externalId) =>
      Some((Node(EntityNode, id),
            map["org" := Ident(org), "entity_type" := TextOf(entityType), "external_id" := TextOf(externalId)]))
    case Fact(id, org, _, property) =>
      Some((Node(FactNode, id), map["org" := Ident(org), "property" := TextOf(property)]))
    case Source(id, org, name, sourceType, authority) =>
      Some((Node(SourceNode, id),
            map["org" := Ident(org), "name" := TextOf(name), "source_type" := TextOf(sourceType),
                "default_authority" := NumberOf(authority)]))
    case FactVersion(id, org, _, _, _, version, sha, validFrom, validUntil, recordedAt, endRecordedAt, authority,
         confidence, scope) =>
      Some((Node(VersionNode, id),
            map["org" := Ident(org), "version" := NumberOf(version), "value_sha256" := Some(Digest(sha)),
                "valid_from" := NumberOf(validFrom), "valid_until" := OptionalNumber(validUntil),
                "recorded_at" := NumberOf(recordedAt), "valid_until_recorded_at" := OptionalNumber(endRecordedAt),
                "authority" := NumberOf(authority), "confidence" := TextOf(confidence),
                "privacy_scope" := TextOf(scope)]))
    case Evidence(id, org, _, evidenceType, sha, uri, scope, capturedAt) =>
      Some((Node(EvidenceNode, id),
            map["org" := Ident(org), "evidence_type" := TextOf(evidenceType), "content_sha256" := Some(Digest(sha)),
                "uri" := OptionalText(uri), "privacy_scope" := TextOf(scope), "captured_at" := NumberOf(capturedAt)]))
    case Snapshot(id, org, validAt, knownAt, user) =>
      Some((Node(SnapshotNode, id),
            map["org" := Ident(org), "valid_at" := NumberOf(validAt), "known_at" := NumberOf(knownAt),
                "captured_by_user_id" := Ident(user)]))
    case Decision(id, org, _, action, agent, decidedAt, user, receipt) =>
      Some((Node(DecisionNode, id),
            map["org" := Ident(org), "action" := TextOf(action), "agent" := OptionalText(agent),
                "decided_at" := NumberOf(decidedAt),
                "decided_by_user_id" := Ident(user), "receipt_sha256" := TextOf(receipt)]))
    case _ => None
  }

  /** The relationships a row describes. */
  function Links(r: Row): seq<Link> {
    match r
    case Fact(id, _, entityId, _) => [Link(Edge(OF_ENTITY, Node(FactNode, id), Node(EntityNode, entityId)), map[])]
    case FactVersion(id, _, factId, sourceId, previous, _, _, _, _, _, _, _, _, _) =>
      var v := Node(VersionNode, id);
      [Link(Edge(VERSION_OF, v, Node(FactNode, factId)), map[]),
       Link(Edge(ASSERTED_BY, v, Node(SourceNode, sourceId)), map[])] +
      (if previous.None? then [] else [Link(Edge(SUPERSEDES, v, Node(VersionNode, previous.value)), map[])])
    case Evidence(id, _, sourceId, _, _, _, _, _) =>
      [Link(Edge(FROM_SOURCE, Node(EvidenceNode, id), Node(SourceNode, sourceId)), map[])]
    case VersionEvidence(_, versionId, evidenceId, relation, linkedAt) =>
      [Link(Edge(EVIDENCE_FOR, Node(EvidenceNode, evidenceId), Node(VersionNode, versionId)),
            map["relation" := TextOf(relation), "linked_at" := NumberOf(linkedAt)])]
    case SnapshotFact(_, snapshotId, versionId, position) =>
      [Link(Edge(INCLUDED, Node(SnapshotNode, snapshotId), Node(VersionNode, versionId)),
        map["position" := NumberOf(position)])]
    case Decision(id, _, snapshotId, _, _, _, _, _) =>
      [Link(Edge(BASED_ON, Node(DecisionNode, id), Node(SnapshotNode, snapshotId)), map[])]
    case DecisionFact(_, decisionId, versionId) =>
      [Link(Edge(RELIED_ON, Node(DecisionNode, decisionId), Node(VersionNode, versionId)), map[])]
    case _ => []
  }

  function LinkMerges(links: seq<Link>, own: Option<(Node, Sets)>, org: Id): seq<Merge> {
    if links == [] then []
    else
      var l := links[0];
      (if own.Some? then [] else [EnsureNode(l.edge.src, org)]) +
      [EnsureNode(l.edge.dst, org), SetEdge(l.edge, l.sets)] + LinkMerges(links[1..], own, org)
  }

  /** The clauses of the row's statement in `CYPHER`, in order. */
  function Merges(r: Row): seq<Merge> {
    (if OwnNode(r).Some? then [SetNode(OwnNode(r).value.0, OwnNode(r).value.1)] else []) +
    LinkMerges(Links(r), OwnNode(r), r.org)
  }

  lemma LinkRowsHaveLinks(r: Row)
    ensures OwnNode(r).None? ==> |Links(r)| == 1
  {
  }

  function KeyOf(r: Row): Key {
    LinkRowsHaveLinks(r);
    if OwnNode(r).Some? then NodeKey(OwnNode(r).value.0) else LinkKey(Links(r)[0].edge)
  }

  /** The row an edge comes from. */
  function Owner(e: Edge): Key {
    if e.rel in {EVIDENCE_FOR, INCLUDED, RELIED_ON} then LinkKey(e) else NodeKey(e.src)
  }

  function FlatMap<R, M>(f: R -> seq<M>, rows: seq<R>): seq<M> {
    if rows == [] then [] else FlatMap(f, rows[..|rows| - 1]) + f(rows[|rows| - 1])
  }

  function MergesOf(rows: seq<Row>): seq<Merge> {
    FlatMap(Merges, rows)
  }

  /** The properties a statement sets on a node of this label, or an edge of this kind. */
  function NodeSchema(l: Label): set<string> {
    match l
    case EntityNode => {"org", "entity_type", "external_id"}
    case FactNode => {"org", "property"}
    case SourceNode => {"org", "name", "source_type", "default_authority"}
    case VersionNode =>
      {"org", "version", "value_sha256", "valid_from", "valid_until", "recorded_at",
       "valid_until_recorded_at", "authority", "confidence", "privacy_scope"}
    case EvidenceNode => {"org", "evidence_type", "content_sha256", "uri", "privacy_scope", "captured_at"}
    case SnapshotNode => {"org", "valid_at", "known_at", "captured_by_user_id"}
    case DecisionNode => {"org", "action", "agent", "decided_at", "decided_by_user_id", "receipt_sha256"}
  }

  function EdgeSchema(rel: Rel): set<string> {
    match rel
    case EVIDENCE_FOR => {"relation", "linked_at"}
    case INCLUDED => {"position"}
    case _ => {}
  }

  // ----- merging is order independent -----

  /** Nodes and edges carry only the properties their statements set. */
  ghost predicate InSchema(g: ProvenanceGraph) {
    && (forall n :: n in g.nodes ==> g.nodes[n].Keys <= NodeSchema(n.kind))
    && (forall e :: e in g.edges ==> g.edges[e].Keys <= EdgeSchema(e.rel))
  }

  /** Two clauses about the same thing say the same. */
  predicate Compatible(a: Merge, b: Merge) {
    && (a.SetNode? && b.SetNode? && a.node == b.node ==> a == b)
    && (a.EnsureNode? && b.EnsureNode? && a.node == b.node ==> a == b)
    && (a.SetEdge? && b.SetEdge? && a.edge == b.edge ==> a == b)
  }

  /** A SET clause names every property of its schema. */
  predicate Complete(m: Merge) {
    && (m.SetNode? ==> m.sets.Keys == NodeSchema(m.node.kind))
    && (m.SetEdge? ==> m.sets.Keys == EdgeSchema(m.edge.rel))
  }

  ghost predicate Consistent(ms: seq<Merge>) {
    && (forall a, b :: a in ms && b in ms ==> Compatible(a, b))
    && (forall a :: a in ms ==> Complete(a))
  }

  function LastSet(ms: seq<Merge>, n: Node): Option<Sets> {
    if ms == [] then None
    else
      var m := ms[|ms| - 1];
      if m.SetNode? && m.node == n then Some(m.sets) else LastSet(ms[..|ms| - 1], n)
  }

  function LastEnsured(ms: seq<Merge>, n: Node): Option<Id> {
    if ms == [] then None
    else
      var m := ms[|ms| - 1];
      if m.EnsureNode? && m.node == n then Some(m.org) else LastEnsured(ms[..|ms| - 1], n)
  }

  function LastEdge(ms: seq<Merge>, e: Edge): Option<Sets> {
    if ms == [] then None
    else
      var m := ms[|ms| - 1];
      if m.SetEdge? && m.edge == e then Some(m.sets) else LastEdge(ms[..|ms| - 1], e)
  }

  lemma {:induction false} LastSetMember(ms: seq<Merge>, n: Node)
    ensures LastSet(ms, n).Some? ==> SetNode(n, LastSet(ms, n).value) in ms
    ensures LastSet(ms, n).None? ==> forall m :: m in ms && m.SetNode? ==> m.node != n
  {
    if ms != [] {
      LastSetMember(ms[..|ms| - 1], n);
      assert ms == ms[..|ms| - 1] + [ms[|ms| - 1]];
    }
  }

  lemma {:induction false} LastEnsuredMember(ms: seq<Merge>, n: Node)
    ensures LastEnsured(ms, n).Some? ==> EnsureNode(n, LastEnsured(ms, n).value) in ms
    ensures LastEnsured(ms, n).None? ==> forall m :: m in ms && m.EnsureNode? ==> m.node != n
  {
    if ms != [] {
      LastEnsuredMember(ms[..|ms| - 1], n);
      assert ms == ms[..|ms| - 1] + [ms[|ms| - 1]];
    }
  }

  lemma {:induction false} LastEdgeMember(ms: seq<Merge>, e: Edge)
    ensures LastEdge(ms, e).Some? ==> SetEdge(e, LastEdge(ms, e).value) in ms
    ensures LastEdge(ms, e).None? ==> forall m :: m in ms && m.SetEdge? ==> m.edge != e
  {
    if ms != [] {
      LastEdgeMember(ms[..|ms| - 1], e);
      assert ms == ms[..|ms| - 1] + [ms[|ms| - 1]];
    }
  }

  lemma ConsistentInit(ms: seq<Merge>)
    requires Consistent(ms) && ms != []
    ensures Consistent(ms[..|ms| - 1])
  {
  }

  lemma PatchOverwrites(props: Props, sets: Sets)
    requires props.Keys <= sets.Keys
    ensures Patch(props, sets) == Compact(sets)
  {
  }

  /** What a node holds after the merges: its SET clause, else what it held, else a placeholder. */
  ghost function NodeAfter(g: ProvenanceGraph, ms: seq<Merge>, n: Node): Option<Props> {
    if LastSet(ms, n).Some? then Some(Compact(LastSet(ms, n).value))
    else if n in g.nodes then Some(g.nodes[n])
    else if LastEnsured(ms, n).Some? then Some(Placeholder(LastEnsured(ms, n).value))
    else None
  }

  ghost function EdgeAfter(g: ProvenanceGraph, ms: seq<Merge>, e: Edge): Option<Props> {
    if LastEdge(ms, e).Some? then Some(Compact(LastEdge(ms, e).value))
    else if e in g.edges then Some(g.edges[e])
    else None
  }

  ghost predicate NodeIs(g: ProvenanceGraph, n: Node, props: Option<Props>) {
    (n in g.nodes <==> props.Some?) && (n in g.nodes ==> g.nodes[n] == props.value)
  }

  ghost predicate EdgeIs(g: ProvenanceGraph, e: Edge, props: Option<Props>) {
    (e in g.edges <==> props.Some?) && (e in g.edges ==> g.edges[e] == props.value)
  }

  lemma {:induction false} MergedNode(g: ProvenanceGraph, ms: seq<Merge>, n: Node)
    requires InSchema(g) && Consistent(ms)
    ensures NodeIs(ApplyMerges(g, ms), n, NodeAfter(g, ms, n))
    ensures n in ApplyMerges(g, ms).nodes ==> ApplyMerges(g, ms).nodes[n].Keys <= NodeSchema(n.kind)
  {
    if ms != [] {
      var init, m := ms[..|ms| - 1], ms[|ms| - 1];
      ConsistentInit(ms);
      MergedNode(g, init, n);
      assert m in ms && Complete(m);
      if m.SetNode? && m.node == n {
        SetReplaces(ApplyMerges(g, init), m);
      } else if m.EnsureNode? && m.node == n {
        EnsuredOnce(ms, n);
      }
    }
  }

  /** A complete SET clause on a node inside the schema replaces all its properties. */
  lemma SetReplaces(g: ProvenanceGraph, m: Merge)
    requires m.SetNode? && Complete(m) && (m.node in g.nodes ==> g.nodes[m.node].Keys <= NodeSchema(m.node.kind))
    ensures ApplyMerge(g, m).nodes == g.nodes[m.node := Compact(m.sets)]
    ensures Compact(m.sets).Keys <= NodeSchema(m.node.kind)
  {
    PatchOverwrites(if m.node in g.nodes then g.nodes[m.node] else map[], m.sets);
  }

  /** All placeholders of a node name the same tenant. */
  lemma EnsuredOnce(ms: seq<Merge>, n: Node)
    requires Consistent(ms) && ms != []
    ensures var last := ms[|ms| - 1];
            last.EnsureNode? && last.node == n && LastEnsured(ms[..|ms| - 1], n).Some? ==>
              LastEnsured(ms[..|ms| - 1], n) == Some(last.org)
  {
    var init, last := ms[..|ms| - 1], ms[|ms| - 1];
    LastEnsuredMember(init, n);
    assert last in ms && forall x :: x in init ==> x in ms;
    if last.EnsureNode? && last.node == n && LastEnsured(init, n).Some? {
      assert Compatible(last, EnsureNode(n, LastEnsured(init, n).value));
    }
  }

  lemma {:induction false} MergedEdge(g: ProvenanceGraph, ms: seq<Merge>, e: Edge)
    requires InSchema(g) && Consistent(ms)
    ensures EdgeIs(ApplyMerges(g, ms), e, EdgeAfter(g, ms, e))
    ensures e in ApplyMerges(g, ms).edges ==> ApplyMerges(g, ms).edges[e].Keys <= EdgeSchema(e.rel)
  {
    if ms != [] {
      var init, m := ms[..|ms| - 1], ms[|ms| - 1];
      ConsistentInit(ms);
      MergedEdge(g, init, e);
      assert m in ms;
      if m.SetEdge? && m.edge == e {
        var props := if e in ApplyMerges(g, init).edges then ApplyMerges(g, init).edges[e] else map[];
        PatchOverwrites(props, m.sets);
      }
    }
  }

  lemma SameMergesSameNode(g: ProvenanceGraph, a: seq<Merge>, b: seq<Merge>, n: Node)
    requires InSchema(g) && Consistent(a) && Consistent(b)
    requires forall m :: m in a <==> m in b
    ensures NodeIs(ApplyMerges(g, a), n, NodeAfter(g, b, n))
  {
    MergedNode(g, a, n);
    SameLastSet(a, b, n);
    SameLastEnsured(a, b, n);
  }

  lemma SameLastSet(a: seq<Merge>, b: seq<Merge>, n: Node)
    requires Consistent(a) && forall m :: m in a <==> m in b
    ensures LastSet(a, n) == LastSet(b, n)
  {
    LastSetMember(a, n);
    LastSetMember(b, n);
    if LastSet(a, n).Some? && LastSet(b, n).Some? {
      assert Compatible(SetNode(n, LastSet(a, n).value), SetNode(n, LastSet(b, n).value));
    }
  }

  lemma SameLastEnsured(a: seq<Merge>, b: seq<Merge>, n: Node)
    requires Consistent(a) && forall m :: m in a <==> m in b
    ensures LastEnsured(a, n) == LastEnsured(b, n)
  {
    LastEnsuredMember(a, n);
    LastEnsuredMember(b, n);
    if LastEnsured(a, n).Some? && LastEnsured(b, n).Some? {
      assert Compatible(EnsureNode(n, LastEnsured(a, n).value), EnsureNode(n, LastEnsured(b, n).value));
    }
  }

  lemma SameMergesSameEdge(g: ProvenanceGraph, a: seq<Merge>, b: seq<Merge>, e: Edge)
    requires InSchema(g) && Consistent(a) && Consistent(b)
    requires forall m :: m in a <==> m in b
    ensures EdgeIs(ApplyMerges(g, a), e, EdgeAfter(g, b, e))
  {
    MergedEdge(g, a, e);
    LastEdgeMember(a, e);
    LastEdgeMember(b, e);
  }

  /** Any order and any repeats of the same consistent merges give the same graph. */
  lemma MergeOrderIrrelevant(g: ProvenanceGraph, a: seq<Merge>, b: seq<Merge>)
    requires InSchema(g) && Consistent(a)
    requires forall m :: m in a <==> m in b
    ensures ApplyMerges(g, a) == ApplyMerges(g, b)
  {
    var ga, gb := ApplyMerges(g, a), ApplyMerges(g, b);
    assert Consistent(b);
    forall n ensures (n in ga.nodes <==> n in gb.nodes) && (n in ga.nodes ==> ga.nodes[n] == gb.nodes[n]) {
      SameMergesSameNode(g, a, b, n);
      SameMergesSameNode(g, b, b, n);
    }
    forall e ensures (e in ga.edges <==> e in gb.edges) && (e in ga.edges ==> ga.edges[e] == gb.edges[e]) {
      SameMergesSameEdge(g, a, b, e);
      SameMergesSameEdge(g, b, b, e);
    }
    assert ga.nodes == gb.nodes && ga.edges == gb.edges;
  }

  // ----- merging whole rows -----

  predicate Describes(r: Row, e: Edge) {
    exists l :: l in Links(r) && l.edge == e
  }

  /** The other rows' nodes that a row's relationships touch. */
  ghost predicate Touches(r: Row, n: Node) {
    exists l :: l in Links(r) && (l.edge.dst == n || (OwnNode(r).None? && l.edge.src == n))
  }

  lemma {:induction false} LinkMergesMember(links: seq<Link>, own: Option<(Node, Sets)>, org: Id, m: Merge)
    ensures m in LinkMerges(links, own, org) <==>
            match m
            case SetNode(_, _) => false
            case EnsureNode(n, o) =>
              o == org && exists l :: l in links && (l.edge.dst == n || (own.None? && l.edge.src == n))
            case SetEdge(e, sets) => Link(e, sets) in links
  {
    if links != [] {
      LinkMergesMember(links[1..], own, org, m);
      assert links == [links[0]] + links[1..];
      assert forall l :: l in links <==> l == links[0] || l in links[1..];
    }
  }

  /** A row's statement sets its own node, ensures the far ends and sets its relationships. */
  lemma MergesMember(r: Row, m: Merge)
    ensures m in Merges(r) <==>
            match m
            case SetNode(n, sets) => OwnNode(r) == Some((n, sets))
            case EnsureNode(n, org) => org == r.org && Touches(r, n)
            case SetEdge(e, sets) => Link(e, sets) in Links(r)
  {
    LinkMergesMember(Links(r), OwnNode(r), r.org, m);
  }

  ghost predicate SomeYields<R, M>(f: R -> seq<M>, rows: seq<R>, m: M) {
    exists i :: 0 <= i < |rows| && m in f(rows[i])
  }

  lemma {:induction false} FlatMapMember<R, M>(f: R -> seq<M>, rows: seq<R>, m: M)
    ensures m in FlatMap(f, rows) <==> SomeYields(f, rows, m)
  {
    if rows != [] {
      FlatMapMember(f, rows[..|rows| - 1], m);
      assert rows[..|rows| - 1] + [rows[|rows| - 1]] == rows;
    }
  }

  lemma {:induction false} FlatMapAppend<R, M>(f: R -> seq<M>, a: seq<R>, b: seq<R>)
    ensures FlatMap(f, a + b) == FlatMap(f, a) + FlatMap(f, b)
  {
    if b == [] {
      assert a + b == a;
    } else {
      FlatMapAppend(f, a, b[..|b| - 1]);
      assert (a + b)[..|a + b| - 1] == a + b[..|b| - 1];
    }
  }

  lemma SomeRowOf(rows: seq<Row>, r: Row, m: Merge)
    requires r in rows && m in Merges(r)
    ensures m in MergesOf(rows)
  {
    FlatMapMember(Merges, rows, m);
    var i :| 0 <= i < |rows| && rows[i] == r;
    assert m in Merges(rows[i]);
  }

  lemma LinkOwner(r: Row, l: Link)
    requires l in Links(r)
    ensures Owner(l.edge) == KeyOf(r)
    ensures l.sets.Keys == EdgeSchema(l.edge.rel)
  {
  }

  lemma LinksDistinct(r: Row, a: Link, b: Link)
    requires a in Links(r) && b in Links(r) && a.edge == b.edge
    ensures a == b
  {
  }

  lemma OwnSchema(r: Row)
    requires OwnNode(r).Some?
    ensures OwnNode(r).value.1.Keys == NodeSchema(OwnNode(r).value.0.kind)
  {
  }

  type Database = map<Key, Row>

  /** Same-tenant foreign keys. */
  predicate RefsOk(db: Database, r: Row) {
    forall l :: l in Links(r) ==>
      && NodeKey(l.edge.dst) in db && db[NodeKey(l.edge.dst)].org == r.org
      && (OwnNode(r).None? ==> NodeKey(l.edge.src) in db && db[NodeKey(l.edge.src)].org == r.org)
  }

  /** One row per key, every reference to a row of the same tenant. */
  ghost predicate Agree(db: Database, rows: seq<Row>) {
    && (forall r :: r in rows ==> KeyOf(r) in db && RefsOk(db, r))
    && (forall r, q :: r in rows && q in rows && KeyOf(r) == KeyOf(q) ==> r == q)
  }

  lemma RowOf(rows: seq<Row>, m: Merge) returns (r: Row)
    requires m in MergesOf(rows)
    ensures r in rows && m in Merges(r)
  {
    FlatMapMember(Merges, rows, m);
    var i :| 0 <= i < |rows| && m in Merges(rows[i]);
    r := rows[i];
  }

  lemma RowsConsistentPair(db: Database, rows: seq<Row>, a: Merge, b: Merge)
    requires Agree(db, rows) && a in MergesOf(rows) && b in MergesOf(rows)
    ensures Compatible(a, b) && Complete(a)
  {
    var r := RowOf(rows, a);
    var q := RowOf(rows, b);
    RowsCompatible(r, q, a, b, db);
    RowComplete(r, a);
  }

  lemma RowComplete(r: Row, a: Merge)
    requires a in Merges(r)
    ensures Complete(a)
  {
    MergesMember(r, a);
    if a.SetNode? {
      OwnSchema(r);
    } else if a.SetEdge? {
      LinkOwner(r, Link(a.edge, a.sets));
    }
  }

  /** Clauses of two rows of one database about the same node or edge agree. */
  lemma RowsCompatible(r: Row, q: Row, a: Merge, b: Merge, db: Database)
    requires a in Merges(r) && b in Merges(q) && RefsOk(db, r) && RefsOk(db, q) && (KeyOf(r) == KeyOf(q) ==> r == q)
    ensures Compatible(a, b)
  {
    MergesMember(r, a);
    MergesMember(q, b);
    if a.SetEdge? && b.SetEdge? && a.edge == b.edge {
      SameLink(r, q, Link(a.edge, a.sets), Link(b.edge, b.sets));
    } else if a.EnsureNode? && b.EnsureNode? && a.node == b.node {
      TouchedTenant(db, r, a.node);
      TouchedTenant(db, q, a.node);
    }
  }

  lemma TouchedTenant(db: Database, r: Row, n: Node)
    requires RefsOk(db, r) && Touches(r, n)
    ensures NodeKey(n) in db && db[NodeKey(n)].org == r.org
  {
  }

  lemma SameLink(r: Row, q: Row, a: Link, b: Link)
    requires a in Links(r) && b in Links(q) && a.edge == b.edge && (KeyOf(r) == KeyOf(q) ==> r == q)
    ensures a == b
  {
    LinkOwner(r, a);
    LinkOwner(q, b);
    LinksDistinct(r, a, b);
  }

  lemma PairsMakeConsistent(ms: seq<Merge>)
    requires forall a, b :: a in ms && b in ms ==> Compatible(a, b) && Complete(a)
    ensures Consistent(ms)
  {
  }

  lemma RowsConsistent(db: Database, rows: seq<Row>)
    requires Agree(db, rows)
    ensures Consistent(MergesOf(rows))
  {
    var ms := MergesOf(rows);
    forall a, b | a in ms && b in ms ensures Compatible(a, b) && Complete(a) {
      RowsConsistentPair(db, rows, a, b);
    }
    PairsMakeConsistent(ms);
  }

  function ApplyRows(g: ProvenanceGraph, rows: seq<Row>): ProvenanceGraph {
    ApplyMerges(g, MergesOf(rows))
  }

  /** The same rows in any order, with any repeats, give the same graph. */
  lemma RowOrderIrrelevant(g: ProvenanceGraph, db: Database, a: seq<Row>, b: seq<Row>)
    requires InSchema(g) && Agree(db, a)
    requires forall r :: r in a <==> r in b
    ensures ApplyRows(g, a) == ApplyRows(g, b)
  {
    RowsConsistent(db, a);
    forall m ensures m in MergesOf(a) <==> m in MergesOf(b) {
      if m in MergesOf(a) {
        var r := RowOf(a, m);
        SomeRowOf(b, r, m);
      }
      if m in MergesOf(b) {
        var r := RowOf(b, m);
        SomeRowOf(a, r, m);
      }
    }
    MergeOrderIrrelevant(g, MergesOf(a), MergesOf(b));
  }

  /** The graph holds exactly what the row's statement writes. */
  ghost predicate Reflected(g: ProvenanceGraph, r: Row) {
    && (OwnNode(r).Some? ==> NodeIs(g, OwnNode(r).value.0, Some(Compact(OwnNode(r).value.1))))
    && (forall l :: l in Links(r) ==> EdgeIs(g, l.edge, Some(Compact(l.sets))))
  }

  /** Every node and relationship has a row behind it. */
  ghost predicate Sound(g: ProvenanceGraph, db: Database) {
    && InSchema(g)
    && (forall n :: n in g.nodes ==> NodeKey(n) in db)
    && (forall e :: e in g.edges ==> Owner(e) in db && Describes(db[Owner(e)], e))
  }

  lemma SetNodeWins(g: ProvenanceGraph, ms: seq<Merge>, n: Node, sets: Sets)
    requires InSchema(g) && Consistent(ms) && SetNode(n, sets) in ms
    ensures NodeIs(ApplyMerges(g, ms), n, Some(Compact(sets)))
  {
    LastSetMember(ms, n);
    MergedNode(g, ms, n);
    assert Compatible(SetNode(n, sets), SetNode(n, LastSet(ms, n).value));
  }

  lemma SetEdgeWins(g: ProvenanceGraph, ms: seq<Merge>, e: Edge, sets: Sets)
    requires InSchema(g) && Consistent(ms) && SetEdge(e, sets) in ms
    ensures EdgeIs(ApplyMerges(g, ms), e, Some(Compact(sets)))
  {
    LastEdgeMember(ms, e);
    MergedEdge(g, ms, e);
    assert Compatible(SetEdge(e, sets), SetEdge(e, LastEdge(ms, e).value));
  }

  lemma AppliedRowReflected(g: ProvenanceGraph, db: Database, rows: seq<Row>, r: Row)
    requires InSchema(g) && Agree(db, rows) && r in rows
    ensures Reflected(ApplyRows(g, rows), r)
  {
    var ms := MergesOf(rows);
    RowsConsistent(db, rows);
    if OwnNode(r).Some? {
      var n, sets := OwnNode(r).value.0, OwnNode(r).value.1;
      MergesMember(r, SetNode(n, sets));
      SomeRowOf(rows, r, SetNode(n, sets));
      SetNodeWins(g, ms, n, sets);
    }
    forall l | l in Links(r) ensures EdgeIs(ApplyRows(g, rows), l.edge, Some(Compact(l.sets))) {
      MergesMember(r, SetEdge(l.edge, l.sets));
      SomeRowOf(rows, r, SetEdge(l.edge, l.sets));
      SetEdgeWins(g, ms, l.edge, l.sets);
    }
  }

  lemma UnsetNodeKept(g: ProvenanceGraph, db: Database, rows: seq<Row>, n: Node)
    requires InSchema(g) && Agree(db, rows)
    requires forall r :: r in rows ==> KeyOf(r) != NodeKey(n)
    ensures n in g.nodes ==> NodeIs(ApplyRows(g, rows), n, Some(g.nodes[n]))
  {
    var ms := MergesOf(rows);
    RowsConsistent(db, rows);
    MergedNode(g, ms, n);
    LastSetMember(ms, n);
    if LastSet(ms, n).Some? {
      var r := RowOf(rows, SetNode(n, LastSet(ms, n).value));
      MergesMember(r, SetNode(n, LastSet(ms, n).value));
    }
  }

  lemma UnsetEdgeKept(g: ProvenanceGraph, db: Database, rows: seq<Row>, e: Edge)
    requires InSchema(g) && Agree(db, rows)
    requires forall r :: r in rows ==> KeyOf(r) != Owner(e)
    ensures e in g.edges ==> EdgeIs(ApplyRows(g, rows), e, Some(g.edges[e]))
  {
    var ms := MergesOf(rows);
    RowsConsistent(db, rows);
    MergedEdge(g, ms, e);
    LastEdgeMember(ms, e);
    if LastEdge(ms, e).Some? {
      var r := RowOf(rows, SetEdge(e, LastEdge(ms, e).value));
      MergesMember(r, SetEdge(e, LastEdge(ms, e).value));
      LinkOwner(r, Link(e, LastEdge(ms, e).value));
    }
  }

  /** Projecting other rows does not disturb a reflected one. */
  lemma OtherRowStaysReflected(g: ProvenanceGraph, db: Database, rows: seq<Row>, q: Row)
    requires InSchema(g) && Agree(db, rows) && Reflected(g, q)
    requires forall r :: r in rows ==> KeyOf(r) != KeyOf(q)
    ensures Reflected(ApplyRows(g, rows), q)
  {
    if OwnNode(q).Some? {
      UnsetNodeKept(g, db, rows, OwnNode(q).value.0);
    }
    forall l | l in Links(q) ensures EdgeIs(ApplyRows(g, rows), l.edge, Some(Compact(l.sets))) {
      LinkOwner(q, l);
      UnsetEdgeKept(g, db, rows, l.edge);
    }
  }

  /** Rows that name the same edges as the stored ones add nothing without a row behind it. */
  lemma ApplyKeepsSound(g: ProvenanceGraph, db: Database, rows: seq<Row>)
    requires Sound(g, db) && Agree(db, rows)
    requires forall r, e :: r in rows && Describes(r, e) ==> Describes(db[KeyOf(r)], e)
    ensures Sound(ApplyRows(g, rows), db)
  {
    var ms, h := MergesOf(rows), ApplyRows(g, rows);
    RowsConsistent(db, rows);
    forall n | n in h.nodes ensures h.nodes[n].Keys <= NodeSchema(n.kind) && NodeKey(n) in db {
      MergedNode(g, ms, n);
      LastSetMember(ms, n);
      LastEnsuredMember(ms, n);
      if LastSet(ms, n).Some? {
        var r := RowOf(rows, SetNode(n, LastSet(ms, n).value));
        MergesMember(r, SetNode(n, LastSet(ms, n).value));
      } else if n !in g.nodes {
        var r := RowOf(rows, EnsureNode(n, LastEnsured(ms, n).value));
        MergesMember(r, EnsureNode(n, LastEnsured(ms, n).value));
      }
    }
    forall e | e in h.edges ensures h.edges[e].Keys <= EdgeSchema(e.rel) && Owner(e) in db
           && Describes(db[Owner(e)], e) {
      MergedEdge(g, ms, e);
      LastEdgeMember(ms, e);
      if LastEdge(ms, e).Some? {
        var l := Link(e, LastEdge(ms, e).value);
        var r := RowOf(rows, SetEdge(e, l.sets));
        MergesMember(r, SetEdge(e, l.sets));
        LinkOwner(r, l);
        assert Describes(r, e);
      }
    }
  }

  // ----- the graph a database stands for -----

  ghost predicate WellFormed(db: Database) {
    && (forall k :: k in db ==> KeyOf(db[k]) == k)
    && (forall k :: k in db ==> RefsOk(db, db[k]))
  }

  /** Node for node and relationship for relationship: the graph says what the database says. */
  ghost predicate IsProjection(g: ProvenanceGraph, db: Database) {
    && (forall n :: n in g.nodes <==> NodeKey(n) in db)
    && (forall n :: n in g.nodes && NodeKey(n) in db ==>
          OwnNode(db[NodeKey(n)]).Some? && g.nodes[n] == Compact(OwnNode(db[NodeKey(n)]).value.1))
    && (forall e :: e in g.edges <==> Owner(e) in db && Describes(db[Owner(e)], e))
    && (forall e, l :: e in g.edges && Owner(e) in db && l in Links(db[Owner(e)]) && l.edge == e ==>
          g.edges[e] == Compact(l.sets))
  }

  /** A database has one projection. */
  lemma ProjectionUnique(g: ProvenanceGraph, h: ProvenanceGraph, db: Database)
    requires IsProjection(g, db) && IsProjection(h, db)
    ensures g == h
  {
  }

  /** When every row is reflected and nothing is there without a row, the graph is the projection. */
  lemma ReflectedIsProjection(g: ProvenanceGraph, db: Database)
    requires WellFormed(db) && Sound(g, db)
    requires forall k :: k in db ==> Reflected(g, db[k])
    ensures IsProjection(g, db)
  {
    forall n | NodeKey(n) in db
      ensures n in g.nodes && OwnNode(db[NodeKey(n)]).Some? && g.nodes[n] == Compact(OwnNode(db[NodeKey(n)]).value.1)
    {
      assert Reflected(g, db[NodeKey(n)]);
    }
    forall e, l | Owner(e) in db && l in Links(db[Owner(e)]) && l.edge == e
      ensures e in g.edges && g.edges[e] == Compact(l.sets)
    {
      assert Reflected(g, db[Owner(e)]);
    }
  }

  const EMPTY_GRAPH := ProvenanceGraph(map[], map[])

  /** Rebuilding from nothing, in any order of the rows, gives the projection. */
  lemma RebuildIsProjection(db: Database, rows: seq<Row>)
    requires WellFormed(db)
    requires forall r :: r in rows <==> KeyOf(r) in db && db[KeyOf(r)] == r
    ensures IsProjection(ApplyRows(EMPTY_GRAPH, rows), db)
  {
    assert Agree(db, rows);
    ApplyKeepsSound(EMPTY_GRAPH, db, rows);
    forall k | k in db ensures Reflected(ApplyRows(EMPTY_GRAPH, rows), db[k]) {
      AppliedRowReflected(EMPTY_GRAPH, db, rows, db[k]);
    }
    ReflectedIsProjection(ApplyRows(EMPTY_GRAPH, rows), db);
  }

  // ----- the graph determines its rows -----

  predicate NodeRow(r: Row) {
    OwnNode(r).Some?
  }

  lemma CompactInjective(a: Sets, b: Sets)
    requires a.Keys == b.Keys && Compact(a) == Compact(b)
    ensures a == b
  {
    forall k | k in a ensures a[k] == b[k] {
      assert k in Compact(a) <==> a[k].Some?;
      assert k in Compact(b) <==> b[k].Some?;
      assert k in Compact(a) ==> Compact(a)[k] == a[k].value && Compact(b)[k] == b[k].value;
    }
  }

  /** A node's label tells its table. */
  lemma SameTable(r: Row, q: Row)
    requires NodeRow(r) && NodeRow(q) && OwnNode(r).value.0 == OwnNode(q).value.0
    ensures r.id == q.id
    ensures r.Entity? == q.Entity? && r.Fact? == q.Fact? && r.Source? == q.Source? && r.FactVersion? == q.FactVersion?
    ensures r.Evidence? == q.Evidence? && r.Snapshot? == q.Snapshot? && r.Decision? == q.Decision?
  {
  }

  lemma FactVersionColumns(r: Row, q: Row)
    requires r.FactVersion? && q.FactVersion? && OwnNode(r).value.1 == OwnNode(q).value.1
    requires r.id == q.id && r.factId == q.factId && r.sourceId == q.sourceId && r.supersedesId == q.supersedesId
    ensures r == q
  {
    var a, b := OwnNode(r).value.1, OwnNode(q).value.1;
    assert a["org"] == b["org"] && a["version"] == b["version"] && a["value_sha256"] == b["value_sha256"];
    assert a["valid_from"] == b["valid_from"] && a["valid_until"] == b["valid_until"]
           && a["recorded_at"] == b["recorded_at"];
    assert a["valid_until_recorded_at"] == b["valid_until_recorded_at"] && a["authority"] == b["authority"];
    assert a["confidence"] == b["confidence"] && a["privacy_scope"] == b["privacy_scope"];
  }

  lemma FactVersionReferences(r: Row, q: Row)
    requires r.FactVersion? && q.FactVersion? && r.id == q.id
    requires forall e :: Describes(r, e) <==> Describes(q, e)
    ensures r.factId == q.factId && r.sourceId == q.sourceId && r.supersedesId == q.supersedesId
  {
    assert Describes(r, Links(r)[0].edge) && Describes(r, Links(r)[1].edge);
    if r.supersedesId.Some? {
      assert Describes(r, Links(r)[2].edge);
    }
    if q.supersedesId.Some? {
      assert Describes(q, Links(q)[2].edge);
    }
  }

  lemma OneReference(r: Row, q: Row)
    requires (r.Fact? && q.Fact?) || (r.Evidence? && q.Evidence?) || (r.Decision? && q.Decision?)
    requires forall e :: Describes(r, e) <==> Describes(q, e)
    ensures r.Fact? ==> r.entityId == q.entityId
    ensures r.Evidence? ==> r.sourceId == q.sourceId
    ensures r.Decision? ==> r.snapshotId == q.snapshotId
  {
    assert Describes(r, Links(r)[0].edge);
  }

  lemma SmallRowColumns(r: Row, q: Row)
    requires (r.Entity? && q.Entity?) || (r.Fact? && q.Fact?) || (r.Source? && q.Source?)
             || (r.Snapshot? && q.Snapshot?)
    requires OwnNode(r).value.1 == OwnNode(q).value.1 && r.id == q.id && (r.Fact? ==> r.entityId == q.entityId)
    ensures r == q
  {
    var a, b := OwnNode(r).value.1, OwnNode(q).value.1;
    assert a["org"] == b["org"];
    if r.Entity? {
      assert a["entity_type"] == b["entity_type"] && a["external_id"] == b["external_id"];
    } else if r.Fact? {
      assert a["property"] == b["property"];
    } else if r.Source? {
      assert a["name"] == b["name"] && a["source_type"] == b["source_type"]
             && a["default_authority"] == b["default_authority"];
    } else {
      assert a["valid_at"] == b["valid_at"] && a["known_at"] == b["known_at"];
      assert a["captured_by_user_id"] == b["captured_by_user_id"];
    }
  }

  lemma LargeRowColumns(r: Row, q: Row)
    requires (r.Evidence? && q.Evidence?) || (r.Decision? && q.Decision?)
    requires OwnNode(r).value.1 == OwnNode(q).value.1 && r.id == q.id
    requires r.Evidence? ==> r.sourceId == q.sourceId
    requires r.Decision? ==> r.snapshotId == q.snapshotId
    ensures r == q
  {
    var a, b := OwnNode(r).value.1, OwnNode(q).value.1;
    assert a["org"] == b["org"];
    if r.Evidence? {
      assert a["evidence_type"] == b["evidence_type"] && a["content_sha256"] == b["content_sha256"]
             && a["uri"] == b["uri"];
      assert a["privacy_scope"] == b["privacy_scope"] && a["captured_at"] == b["captured_at"];
    } else {
      assert a["action"] == b["action"] && a["agent"] == b["agent"] && a["decided_at"] == b["decided_at"];
      assert a["decided_by_user_id"] == b["decided_by_user_id"] && a["receipt_sha256"] == b["receipt_sha256"];
    }
  }

  /** The columns of a node's row are in its properties or in its relationships. */
  lemma NodeRowDetermined(r: Row, q: Row)
    requires NodeRow(r) && OwnNode(r) == OwnNode(q)
    requires forall e :: Describes(r, e) <==> Describes(q, e)
    ensures r == q
  {
    SameTable(r, q);
    if r.FactVersion? {
      FactVersionReferences(r, q);
      FactVersionColumns(r, q);
    } else if r.Evidence? || r.Decision? {
      OneReference(r, q);
      LargeRowColumns(r, q);
    } else {
      if r.Fact? {
        OneReference(r, q);
      }
      SmallRowColumns(r, q);
    }
  }

  /** A link row is its relationship, with the tenant of the rows it joins. */
  lemma LinkRowDetermined(r: Row, q: Row)
    requires !NodeRow(r) && !NodeRow(q) && r.org == q.org && KeyOf(r) == KeyOf(q)
    requires |Links(r)| == 1 == |Links(q)| && Links(r)[0].sets == Links(q)[0].sets
    ensures r == q
  {
    var a, b := Links(r)[0].sets, Links(q)[0].sets;
    if r.VersionEvidence? {
      assert a["relation"] == b["relation"] && a["linked_at"] == b["linked_at"];
    } else if r.SnapshotFact? {
      assert a["position"] == b["position"];
    }
  }

  lemma SameKeys(g: ProvenanceGraph, a: Database, b: Database, k: Key)
    requires WellFormed(a) && IsProjection(g, a) && IsProjection(g, b) && k in a
    ensures k in b
  {
    if k.NodeKey? {
      assert k.node in g.nodes;
    } else {
      LinkRowsHaveLinks(a[k]);
      LinkOwner(a[k], Links(a[k])[0]);
      assert Describes(a[Owner(k.edge)], k.edge);
      assert k.edge in g.edges;
    }
  }

  lemma SameDescribed(g: ProvenanceGraph, a: Database, b: Database, k: Key, e: Edge)
    requires WellFormed(a) && WellFormed(b) && IsProjection(g, a) && IsProjection(g, b) && k in a && k in b
    requires Describes(a[k], e)
    ensures Describes(b[k], e)
  {
    var l :| l in Links(a[k]) && l.edge == e;
    LinkOwner(a[k], l);
    assert e in g.edges;
  }

  lemma SameNodeRow(g: ProvenanceGraph, a: Database, b: Database, n: Node)
    requires WellFormed(a) && WellFormed(b) && IsProjection(g, a) && IsProjection(g, b)
    requires NodeKey(n) in a && NodeKey(n) in b
    ensures a[NodeKey(n)] == b[NodeKey(n)]
  {
    var r, q := a[NodeKey(n)], b[NodeKey(n)];
    assert n in g.nodes && KeyOf(r) == KeyOf(q) == NodeKey(n);
    OwnSchema(r);
    OwnSchema(q);
    CompactInjective(OwnNode(r).value.1, OwnNode(q).value.1);
    forall e ensures Describes(r, e) <==> Describes(q, e) {
      if Describes(r, e) {
        SameDescribed(g, a, b, NodeKey(n), e);
      }
      if Describes(q, e) {
        SameDescribed(g, b, a, NodeKey(n), e);
      }
    }
    NodeRowDetermined(r, q);
  }

  lemma SameLinkRow(g: ProvenanceGraph, a: Database, b: Database, e: Edge)
    requires WellFormed(a) && WellFormed(b) && IsProjection(g, a) && IsProjection(g, b)
    requires LinkKey(e) in a && LinkKey(e) in b
    ensures a[LinkKey(e)] == b[LinkKey(e)]
  {
    var r, q := a[LinkKey(e)], b[LinkKey(e)];
    LinkRowsHaveLinks(r);
    LinkRowsHaveLinks(q);
    var l, m := Links(r)[0], Links(q)[0];
    assert KeyOf(r) == LinkKey(e) == KeyOf(q) && l.edge == e == m.edge;
    LinkOwner(r, l);
    LinkOwner(q, m);
    SameTenant(g, a, b, e);
    assert Describes(a[Owner(e)], e) && e in g.edges;
    CompactInjective(l.sets, m.sets);
    LinkRowDetermined(r, q);
  }

  /** A link row's tenant is the tenant of the row at its far end. */
  lemma SameTenant(g: ProvenanceGraph, a: Database, b: Database, e: Edge)
    requires WellFormed(a) && WellFormed(b) && IsProjection(g, a) && IsProjection(g, b)
    requires LinkKey(e) in a && LinkKey(e) in b
    ensures a[LinkKey(e)].org == b[LinkKey(e)].org
  {
    var r, q := a[LinkKey(e)], b[LinkKey(e)];
    LinkRowsHaveLinks(r);
    LinkRowsHaveLinks(q);
    assert Links(r)[0].edge == e == Links(q)[0].edge;
    assert RefsOk(a, r) && RefsOk(b, q);
    SameNodeRow(g, a, b, e.dst);
  }

  /** The merged graph is faithful to its graph rows: databases of graph rows with the same graph are equal. */
  lemma GraphDeterminesDatabase(g: ProvenanceGraph, a: Database, b: Database)
    requires WellFormed(a) && WellFormed(b) && IsProjection(g, a) && IsProjection(g, b)
    ensures a == b
  {
    forall k | k in a ensures k in b && a[k] == b[k] {
      SameKeys(g, a, b, k);
      if k.NodeKey? {
        SameNodeRow(g, a, b, k.node);
      } else {
        SameLinkRow(g, a, b, k.edge);
      }
    }
    forall k | k in b ensures k in a {
      SameKeys(g, b, a, k);
    }
  }
}
