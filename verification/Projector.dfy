/**
 The graph projector (`app/workers/graph.py`, `app/repositories/graph_outbox.py`): writers commit
 rows with an outbox event each; one projector claims events, re-reads their rows, merges them
 into the graph and deletes the events.
 */
module Projector {
  import opened Common
  import opened Graph

  datatype Table =
    | Entities
    | FactSources
    | Facts
    | EvidenceRows
    | FactVersions
    | FactVersionEvidence
    | ContextSnapshots
    | ContextSnapshotFacts
    | Decisions
    | DecisionFacts

  function TableOf(k: Key): Table {
    match k
    case NodeKey(n) => (
      match n.kind
      case EntityNode => Entities
      case FactNode => Facts
      case SourceNode => FactSources
      case VersionNode => FactVersions
      case EvidenceNode => EvidenceRows
      case SnapshotNode => ContextSnapshots
      case DecisionNode => Decisions
    )
    case LinkKey(e) =>
      if e.rel == EVIDENCE_FOR then FactVersionEvidence
      else if e.rel == INCLUDED then ContextSnapshotFacts
      else DecisionFacts
  }

  const TABLE_ORDER: seq<Table> :=
    [Entities, FactSources, Facts, EvidenceRows, FactVersions, FactVersionEvidence,
     ContextSnapshots, ContextSnapshotFacts, Decisions, DecisionFacts]

  /** `claimed` are the events locked by the projector's open transaction; `applied` once Neo4j has committed. */
  datatype State = State(
    db: Database, outbox: map<Id, Key>, graph: ProvenanceGraph,
    claimed: set<Id>, loaded: map<Key, Row>, applied: bool)

  const START := State(map[], map[], EMPTY_GRAPH, {}, map[], false)

  datatype Step =
    | Write(row: Row, event: Id)     // a writer inserts or updates a row; the trigger adds an event
    | ClaimEvents(ids: set<Id>)
    | LoadTable(table: Table)        // one SELECT, at its own instant
    | Project(rows: seq<Row>)        // one Neo4j transaction
    | DeleteEvents                   // delete and commit
    | Abort                          // rollback, before or after the Neo4j transaction

  function ClaimedKeys(s: State): set<Key> {
    set id | id in s.claimed && id in s.outbox :: s.outbox[id]
  }

  predicate SameEdges(r: Row, q: Row) {
    (forall l :: l in Links(r) ==> Describes(q, l.edge)) && (forall l :: l in Links(q) ==> Describes(r, l.edge))
  }

  /** Foreign keys hold, and an update keeps the row's tenant and references. */
  predicate MayWrite(db: Database, row: Row) {
    && RefsOk(db[KeyOf(row) := row], row)
    && (KeyOf(row) in db ==> db[KeyOf(row)].org == row.org && SameEdges(db[KeyOf(row)], row))
  }

  predicate IsLoaded(s: State, rows: seq<Row>) {
    && (forall r :: r in rows ==> KeyOf(r) in s.loaded && s.loaded[KeyOf(r)] == r)
    && (forall k :: k in s.loaded ==> s.loaded[k] in rows)
  }

  predicate Allowed(s: State, step: Step) {
    match step
    case Write(row, event) => event !in s.outbox && MayWrite(s.db, row)
    case ClaimEvents(ids) => s.claimed == {} && ids <= s.outbox.Keys
    case LoadTable(_) => s.claimed != {} && !s.applied
    case Project(rows) => s.claimed != {} && !s.applied && ClaimedKeys(s) <= s.loaded.Keys && IsLoaded(s, rows)
    case DeleteEvents => s.applied
    case Abort => true
  }

  function Next(s: State, step: Step): State {
    if !Allowed(s, step) then s else
    match step
    case Write(row, event) => s.(db := s.db[KeyOf(row) := row], outbox := s.outbox[event := KeyOf(row)])
    case ClaimEvents(ids) => s.(claimed := ids, loaded := map[], applied := false)
    case LoadTable(t) =>
      s.(loaded := s.loaded + (map k | k in ClaimedKeys(s) && TableOf(k) == t && k in s.db :: s.db[k]))
    case Project(rows) => s.(graph := ApplyRows(s.graph, rows), applied := true)
    case DeleteEvents => s.(outbox := s.outbox - s.claimed, claimed := {}, loaded := map[], applied := false)
    case Abort => s.(claimed := {}, loaded := map[], applied := false)
  }

  // ----- the invariant -----

  /** An event for the row that the open transaction will not delete. */
  ghost predicate Pending(outbox: map<Id, Key>, except: set<Id>, k: Key) {
    exists id :: id in outbox && id !in except && outbox[id] == k
  }

  ghost predicate LoadedOk(s: State, k: Key)
    requires k in s.loaded
  {
    && k in s.db && KeyOf(s.loaded[k]) == k && RefsOk(s.db, s.loaded[k]) && SameEdges(s.loaded[k], s.db[k])
    && (s.loaded[k] == s.db[k] || Pending(s.outbox, s.claimed, k))
  }

  /** The events that are deleted if the projector's transaction commits now. */
  ghost function Doomed(s: State): set<Id> {
    if s.applied then s.claimed else {}
  }

  ghost predicate UpToDate(s: State, k: Key)
    requires k in s.db
  {
    Reflected(s.graph, s.db[k]) || Pending(s.outbox, Doomed(s), k)
  }

  ghost predicate Inv(s: State) {
    && WellFormed(s.db) && Sound(s.graph, s.db)
    && s.claimed <= s.outbox.Keys
    && (forall id :: id in s.outbox ==> s.outbox[id] in s.db)
    && (forall k :: k in s.loaded ==> LoadedOk(s, k))
    && (forall k :: k in s.db ==> UpToDate(s, k))
  }

  // ----- a write -----

  lemma WriteKeepsRefs(db: Database, row: Row, r: Row)
    requires MayWrite(db, row) && RefsOk(db, r)
    ensures RefsOk(db[KeyOf(row) := row], r)
  {
  }

  lemma WriteKeepsWellFormed(db: Database, row: Row)
    requires MayWrite(db, row) && WellFormed(db)
    ensures WellFormed(db[KeyOf(row) := row])
  {
    forall k | k in db && k != KeyOf(row) ensures RefsOk(db[KeyOf(row) := row], db[k]) {
      WriteKeepsRefs(db, row, db[k]);
    }
  }

  lemma WriteKeepsSound(g: ProvenanceGraph, db: Database, row: Row)
    requires MayWrite(db, row) && Sound(g, db)
    ensures Sound(g, db[KeyOf(row) := row])
  {
  }

  lemma SameEdgesTransitive(a: Row, b: Row, c: Row)
    requires SameEdges(a, b) && SameEdges(b, c)
    ensures SameEdges(a, c)
  {
  }

  lemma PendingGrows(outbox: map<Id, Key>, except: set<Id>, event: Id, key: Key)
    requires event !in outbox
    ensures forall k :: Pending(outbox, except, k) ==> Pending(outbox[event := key], except, k)
    ensures event !in except ==> Pending(outbox[event := key], except, key)
  {
  }

  lemma WriteKeepsLoaded(s: State, row: Row, event: Id, k: Key)
    requires event !in s.outbox && MayWrite(s.db, row) && s.claimed <= s.outbox.Keys && k in s.loaded && LoadedOk(s, k)
    ensures LoadedOk(s.(db := s.db[KeyOf(row) := row], outbox := s.outbox[event := KeyOf(row)]), k)
  {
    WriteKeepsRefs(s.db, row, s.loaded[k]);
    PendingGrows(s.outbox, s.claimed, event, KeyOf(row));
    if KeyOf(row) == k {
      SameEdgesTransitive(s.loaded[k], s.db[k], row);
    }
  }

  lemma WriteKeepsInv(s: State, row: Row, event: Id)
    requires Inv(s) && Allowed(s, Write(row, event))
    ensures Inv(Next(s, Write(row, event)))
  {
    var t := Next(s, Write(row, event));
    WriteKeepsSound(s.graph, s.db, row);
    WriteKeepsWellFormed(s.db, row);
    forall k | k in t.loaded ensures LoadedOk(t, k) {
      WriteKeepsLoaded(s, row, event, k);
    }
    PendingGrows(s.outbox, Doomed(s), event, KeyOf(row));
    forall k | k in t.db ensures UpToDate(t, k) {
      assert k != KeyOf(row) ==> UpToDate(s, k);
    }
  }

  // ----- the projector's steps -----

  lemma SameEdgesSelf(r: Row)
    ensures SameEdges(r, r)
  {
  }

  lemma LoadKeepsInv(s: State, table: Table)
    requires Inv(s) && Allowed(s, LoadTable(table))
    ensures Inv(Next(s, LoadTable(table)))
  {
    var t := Next(s, LoadTable(table));
    forall k | k in t.loaded ensures LoadedOk(t, k) {
      if k in s.loaded && t.loaded[k] == s.loaded[k] {
        assert LoadedOk(s, k);
      } else {
        SameEdgesSelf(s.db[k]);
      }
    }
    forall k | k in t.db ensures UpToDate(t, k) {
      assert UpToDate(s, k);
    }
  }

  lemma LoadedAgrees(s: State, rows: seq<Row>)
    requires Inv(s) && IsLoaded(s, rows)
    ensures Agree(s.db, rows)
    ensures forall r, e :: r in rows && Describes(r, e) ==> Describes(s.db[KeyOf(r)], e)
  {
  }

  /** After projecting: a loaded row is reflected unless it changed, and then an unclaimed event names it. */
  lemma ProjectedUpToDate(s: State, rows: seq<Row>, k: Key)
    requires Inv(s) && Allowed(s, Project(rows)) && k in s.db
    ensures UpToDate(s.(graph := ApplyRows(s.graph, rows), applied := true), k)
  {
    LoadedAgrees(s, rows);
    assert UpToDate(s, k);
    if k in s.loaded {
      assert LoadedOk(s, k);
      AppliedRowReflected(s.graph, s.db, rows, s.loaded[k]);
    } else if Reflected(s.graph, s.db[k]) {
      OtherRowStaysReflected(s.graph, s.db, rows, s.db[k]);
    } else {
      var id: Id :| id in s.outbox && s.outbox[id] == k;
      assert id !in s.claimed;
    }
  }

  lemma ProjectKeepsInv(s: State, rows: seq<Row>)
    requires Inv(s) && Allowed(s, Project(rows))
    ensures Inv(Next(s, Project(rows)))
  {
    var t := Next(s, Project(rows));
    LoadedAgrees(s, rows);
    ApplyKeepsSound(s.graph, s.db, rows);
    forall k | k in t.loaded ensures LoadedOk(t, k) {
      assert LoadedOk(s, k);
    }
    forall k | k in t.db ensures UpToDate(t, k) {
      ProjectedUpToDate(s, rows, k);
    }
  }

  lemma EndKeepsInv(s: State, step: Step)
    requires Inv(s) && (step.ClaimEvents? || step.DeleteEvents? || step.Abort?)
    ensures Inv(Next(s, step))
  {
    var t := Next(s, step);
    if Allowed(s, step) {
      forall k | k in t.db ensures UpToDate(t, k) {
        assert UpToDate(s, k);
        if !Reflected(s.graph, s.db[k]) {
          var id: Id :| id in s.outbox && id !in Doomed(s) && s.outbox[id] == k;
          assert t.outbox[id] == k;
        }
      }
    }
  }

  lemma StepKeepsInv(s: State, step: Step)
    requires Inv(s)
    ensures Inv(Next(s, step))
  {
    if Allowed(s, step) {
      match step
      case Write(row, event) => WriteKeepsInv(s, row, event);
      case LoadTable(table) => LoadKeepsInv(s, table);
      case Project(rows) => ProjectKeepsInv(s, rows);
      case _ => EndKeepsInv(s, step);
    }
  }

  ghost function Run(steps: seq<Step>): State {
    if steps == [] then START else Next(Run(steps[..|steps| - 1]), steps[|steps| - 1])
  }

  lemma {:induction false} RunKeepsInv(steps: seq<Step>)
    ensures Inv(Run(steps))
  {
    if steps != [] {
      RunKeepsInv(steps[..|steps| - 1]);
      StepKeepsInv(Run(steps[..|steps| - 1]), steps[|steps| - 1]);
    }
  }

  /** In every reachable state a row missing from the graph has an event that will outlive the open transaction. */
  lemma MissingRowIsQueued(steps: seq<Step>, k: Key)
    requires k in Run(steps).db && !Reflected(Run(steps).graph, Run(steps).db[k])
    ensures Pending(Run(steps).outbox, Doomed(Run(steps)), k)
  {
    RunKeepsInv(steps);
    assert UpToDate(Run(steps), k);
  }

  /** Once the outbox is empty the graph is the projection of the database. */
  lemma Converged(steps: seq<Step>)
    requires Run(steps).outbox == map[]
    ensures IsProjection(Run(steps).graph, Run(steps).db)
  {
    var s := Run(steps);
    RunKeepsInv(steps);
    forall k | k in s.db ensures Reflected(s.graph, s.db[k]) {
      assert UpToDate(s, k);
    }
    ReflectedIsProjection(s.graph, s.db);
  }

  /** Then it is also the graph that a rebuild from nothing gives, in any order of the rows. */
  lemma EmptyOutboxMeansConverged(steps: seq<Step>, rows: seq<Row>)
    requires Run(steps).outbox == map[]
    requires forall r :: r in rows <==> KeyOf(r) in Run(steps).db && Run(steps).db[KeyOf(r)] == r
    ensures Run(steps).graph == ApplyRows(EMPTY_GRAPH, rows)
  {
    var s := Run(steps);
    RunKeepsInv(steps);
    Converged(steps);
    RebuildIsProjection(s.db, rows);
    ProjectionUnique(s.graph, ApplyRows(EMPTY_GRAPH, rows), s.db);
  }

  // ----- `GraphOutboxRepository.load` and `GraphWriter.apply` -----

  function InOrder(rows: map<Table, seq<Row>>, tables: seq<Table>): seq<Row> {
    if tables == [] then []
    else
      var t := tables[|tables| - 1];
      InOrder(rows, tables[..|tables| - 1]) + if t in rows then rows[t] else []
  }

  lemma {:induction false} ApplyMergesAppend(g: ProvenanceGraph, a: seq<Merge>, b: seq<Merge>)
    ensures ApplyMerges(g, a + b) == ApplyMerges(ApplyMerges(g, a), b)
  {
    if b == [] {
      assert a + b == a;
    } else {
      ApplyMergesAppend(g, a, b[..|b| - 1]);
      assert (a + b)[..|a + b| - 1] == a + b[..|b| - 1] && (a + b)[|a + b| - 1] == b[|b| - 1];
    }
  }

  lemma ApplyRowsAppend(g: ProvenanceGraph, a: seq<Row>, b: seq<Row>)
    ensures ApplyRows(g, a + b) == ApplyRows(ApplyRows(g, a), b)
  {
    FlatMapAppend(Merges, a, b);
    ApplyMergesAppend(g, MergesOf(a), MergesOf(b));
  }

  lemma {:induction false} InOrderMember(rows: map<Table, seq<Row>>, tables: seq<Table>, r: Row)
    ensures r in InOrder(rows, tables) <==> exists t :: t in tables && t in rows && r in rows[t]
  {
    if tables != [] {
      InOrderMember(rows, tables[..|tables| - 1], r);
      assert tables == tables[..|tables| - 1] + [tables[|tables| - 1]];
      assert forall t :: t in tables <==> t in tables[..|tables| - 1] || t == tables[|tables| - 1];
    }
  }

  lemma InTableOrder(t: Table)
    ensures t in TABLE_ORDER
  {
  }

  /** Every table has its place in the order, once. */
  lemma TableOrderComplete()
    ensures Distinct(TABLE_ORDER) && forall t: Table :: t in TABLE_ORDER
  {
    forall t: Table ensures t in TABLE_ORDER {
      InTableOrder(t);
    }
  }

  lemma InOrderNext(rows: map<Table, seq<Row>>, tables: seq<Table>, i: nat)
    requires i < |tables|
    ensures InOrder(rows, tables[..i + 1]) ==
            InOrder(rows, tables[..i]) + if tables[i] in rows then rows[tables[i]] else []
  {
    assert tables[..i + 1][..i] == tables[..i];
  }

  /** Write the tables in order; every row given is merged, and `written` counts them. */
  method ApplyTables(g: ProvenanceGraph, rowsByTable: map<Table, seq<Row>>)
    returns (h: ProvenanceGraph, written: nat)
    ensures h == ApplyRows(g, InOrder(rowsByTable, TABLE_ORDER))
    ensures written == |InOrder(rowsByTable, TABLE_ORDER)|
  {
    h, written := g, 0;
    ghost var done: seq<Row> := [];
    for i := 0 to |TABLE_ORDER|
      invariant done == InOrder(rowsByTable, TABLE_ORDER[..i])
      invariant h == ApplyRows(g, done) && written == |done|
    {
      var t := TABLE_ORDER[i];
      InOrderNext(rowsByTable, TABLE_ORDER, i);
      if t in rowsByTable && rowsByTable[t] != [] {
        ApplyRowsAppend(g, done, rowsByTable[t]);
        h := ApplyRows(h, rowsByTable[t]);
        written := written + |rowsByTable[t]|;
        done := done + rowsByTable[t];
      }
    }
    assert TABLE_ORDER[..|TABLE_ORDER|] == TABLE_ORDER;
  }

  /** The claimed events' keys by table, each once. */
  method GroupKeys(events: seq<Key>) returns (keys: map<Table, set<Key>>)
    ensures forall k :: k in events ==> TableOf(k) in keys && k in keys[TableOf(k)]
    ensures forall t :: t in keys ==> keys[t] != {} && forall k :: k in keys[t] ==> k in events && TableOf(k) == t
  {
    keys := map[];
    for i := 0 to |events|
      invariant forall k :: k in events[..i] ==> TableOf(k) in keys && k in keys[TableOf(k)]
      invariant forall t :: t in keys ==>
                keys[t] != {} && forall k :: k in keys[t] ==> k in events[..i] && TableOf(k) == t
    {
      var t := TableOf(events[i]);
      assert events[..i + 1] == events[..i] + [events[i]];
      keys := keys[t := (if t in keys then keys[t] else {}) + {events[i]}];
    }
    assert events[..|events|] == events;
  }

  function Add(rows: map<Table, seq<Row>>, t: Table, r: Row): map<Table, seq<Row>> {
    rows[t := (if t in rows then rows[t] else []) + [r]]
  }

  /** Adding a row to its table adds one row in all. */
  lemma {:induction false} InOrderGrows(rows: map<Table, seq<Row>>, t: Table, r: Row, tables: seq<Table>)
    requires Distinct(tables)
    ensures |InOrder(Add(rows, t, r), tables)| == |InOrder(rows, tables)| + if t in tables then 1 else 0
  {
    if tables != [] {
      InOrderGrows(rows, t, r, tables[..|tables| - 1]);
      assert tables == tables[..|tables| - 1] + [tables[|tables| - 1]];
    }
  }

  ghost predicate Among(loaded: map<Key, Row>, keys: set<Key>, r: Row)
    requires keys <= loaded.Keys
  {
    exists k :: k in keys && loaded[k] == r
  }

  /** The rows of these keys, and no others, each under its table. */
  ghost predicate Grouped(loaded: map<Key, Row>, keys: set<Key>, rows: map<Table, seq<Row>>)
    requires keys <= loaded.Keys
  {
    && (forall t, r :: t in rows && r in rows[t] ==> Among(loaded, keys, r))
    && (forall k :: k in keys ==> TableOf(k) in rows && loaded[k] in rows[TableOf(k)])
  }

  lemma GroupedAdd(loaded: map<Key, Row>, keys: set<Key>, rows: map<Table, seq<Row>>, k: Key)
    requires keys <= loaded.Keys && k in loaded && Grouped(loaded, keys, rows)
    ensures Grouped(loaded, keys + {k}, Add(rows, TableOf(k), loaded[k]))
  {
    var more := Add(rows, TableOf(k), loaded[k]);
    forall t, r | t in more && r in more[t] ensures Among(loaded, keys + {k}, r) {
      if t in rows && r in rows[t] {
        assert Among(loaded, keys, r);
      } else {
        assert k in keys + {k} && loaded[k] == r;
      }
    }
  }

  lemma GroupedMember(loaded: map<Key, Row>, rows: map<Table, seq<Row>>, tables: seq<Table>, r: Row)
    requires Grouped(loaded, loaded.Keys, rows) && forall t: Table :: t in tables
    ensures r in InOrder(rows, tables) <==> Among(loaded, loaded.Keys, r)
  {
    InOrderMember(rows, tables, r);
  }

  /** The loaded rows grouped by table, for an order that lists every table once. */
  method GroupRows(loaded: map<Key, Row>, tables: seq<Table>) returns (rows: map<Table, seq<Row>>)
    requires Distinct(tables) && forall t: Table :: t in tables
    ensures forall r :: r in InOrder(rows, tables) <==> Among(loaded, loaded.Keys, r)
    ensures |InOrder(rows, tables)| == |loaded|
  {
    rows := map[];
    var todo := loaded.Keys;
    EmptyInOrder(tables);
    ghost var done: set<Key> := {};
    while todo != {}
      invariant done + todo == loaded.Keys && done !! todo
      invariant Grouped(loaded, done, rows)
      invariant |InOrder(rows, tables)| == |done|
      decreases todo
    {
      var k :| k in todo;
      InOrderGrows(rows, TableOf(k), loaded[k], tables);
      GroupedAdd(loaded, done, rows, k);
      rows := Add(rows, TableOf(k), loaded[k]);
      todo, done := todo - {k}, done + {k};
    }
    assert done == loaded.Keys;
    forall r ensures r in InOrder(rows, tables) <==> Among(loaded, loaded.Keys, r) {
      GroupedMember(loaded, rows, tables, r);
    }
  }

  lemma {:induction false} EmptyInOrder(tables: seq<Table>)
    ensures InOrder(map[], tables) == []
  {
    if tables != [] {
      EmptyInOrder(tables[..|tables| - 1]);
    }
  }

  // ----- the worker -----

  /** The keys of the events, one per event, in some order. */
  method KeysOf(outbox: map<Id, Key>, ids: set<Id>) returns (events: seq<Key>)
    requires ids <= outbox.Keys
    ensures forall k :: k in events <==> k in (set id | id in ids :: outbox[id])
  {
    events := [];
    var rest := ids;
    while rest != {}
      invariant rest <= ids
      invariant forall k :: k in events <==> k in (set id | id in ids - rest :: outbox[id])
      decreases rest
    {
      var id :| id in rest;
      rest, events := rest - {id}, events + [outbox[id]];
    }
    assert ids - rest == ids;
  }

  datatype ProjectorFault = NoFault | GraphFails | CommitFails

  function RowsNamed(s: State, tables: set<Table>): map<Key, Row> {
    map k | k in ClaimedKeys(s) && TableOf(k) in tables && k in s.db :: s.db[k]
  }

  function TablesOf(keys: set<Key>): set<Table> {
    set k | k in keys :: TableOf(k)
  }

  lemma LoadNext(s: State, tables: set<Table>, t: Table)
    requires s.claimed != {} && !s.applied
    ensures Next(s.(loaded := RowsNamed(s, tables)), LoadTable(t)) == s.(loaded := RowsNamed(s, tables + {t}))
  {
  }

  lemma LoadedRows(s: State, rows: seq<Row>)
    requires Inv(s) && forall r :: r in rows <==> Among(s.loaded, s.loaded.Keys, r)
    ensures IsLoaded(s, rows)
  {
  }

  /** Loading every table that is named finds every row that is named, at most one per event. */
  lemma LoadIsComplete(s: State)
    requires Inv(s)
    ensures RowsNamed(s, TablesOf(ClaimedKeys(s))).Keys == ClaimedKeys(s)
    ensures |RowsNamed(s, TablesOf(ClaimedKeys(s)))| <= |s.claimed|
  {
    assert RowsNamed(s, TablesOf(ClaimedKeys(s))).Keys == ClaimedKeys(s);
    ImageSize(s.outbox, s.claimed);
    assert ClaimedKeys(s) == set id | id in s.claimed :: s.outbox[id];
  }

  lemma ProjectNext(s: State, rows: seq<Row>)
    requires Inv(s) && s.claimed != {} && !s.applied && ClaimedKeys(s) <= s.loaded.Keys
    requires forall r :: r in rows <==> Among(s.loaded, s.loaded.Keys, r)
    ensures Next(s, Project(rows)) == s.(graph := ApplyRows(s.graph, rows), applied := true)
  {
    LoadedRows(s, rows);
  }

  lemma {:induction false} ImageSize(outbox: map<Id, Key>, ids: set<Id>)
    requires ids <= outbox.Keys
    ensures |set id | id in ids :: outbox[id]| <= |ids|
    decreases ids
  {
    if ids != {} {
      var x :| x in ids;
      ImageSize(outbox, ids - {x});
      assert (set id | id in ids :: outbox[id]) == (set id | id in ids - {x} :: outbox[id]) + {outbox[x]};
    }
  }

  lemma OutboxShrinks(outbox: map<Id, Key>, ids: set<Id>)
    requires ids <= outbox.Keys
    ensures |outbox - ids| + |ids| == |outbox|
  {
    assert (outbox - ids).Keys == outbox.Keys - ids;
  }

  /** What writers commit while the projector's transaction is open: after each of its statements. */
  datatype Gaps = Gaps(afterClaim: seq<(Row, Id)>, afterLoad: seq<(Row, Id)>, afterGraph: seq<(Row, Id)>)

  function AllWrites(gaps: Gaps): seq<(Row, Id)> {
    gaps.afterClaim + gaps.afterLoad + gaps.afterGraph
  }

  function GapsAt(rounds: seq<Gaps>, n: nat): Gaps {
    if n < |rounds| then rounds[n] else Gaps([], [], [])
  }

  /** The database and outbox after these writes; a write that breaks a constraint is refused. */
  function Commit(db: Database, outbox: map<Id, Key>, writes: seq<(Row, Id)>): (Database, map<Id, Key>) {
    if writes == [] then (db, outbox)
    else
      var (d, o) := Commit(db, outbox, writes[..|writes| - 1]);
      var (row, event) := writes[|writes| - 1];
      if event !in o && MayWrite(d, row) then (d[KeyOf(row) := row], o[event := KeyOf(row)]) else (d, o)
  }

  function Committed(s: State, writes: seq<(Row, Id)>): State {
    var (d, o) := Commit(s.db, s.outbox, writes);
    s.(db := d, outbox := o)
  }

  lemma {:induction false} CommitAppend(db: Database, outbox: map<Id, Key>, a: seq<(Row, Id)>, b: seq<(Row, Id)>)
    ensures Commit(db, outbox, a + b) == Commit(Commit(db, outbox, a).0, Commit(db, outbox, a).1, b)
  {
    if b == [] {
      assert a + b == a;
    } else {
      CommitAppend(db, outbox, a, b[..|b| - 1]);
      assert (a + b)[..|a + b| - 1] == a + b[..|b| - 1] && (a + b)[|a + b| - 1] == b[|b| - 1];
    }
  }

  lemma {:induction false} CommitKeepsEvents(db: Database, outbox: map<Id, Key>, writes: seq<(Row, Id)>, id: Id)
    requires id in outbox
    ensures var o := Commit(db, outbox, writes).1; id in o && o[id] == outbox[id]
  {
    if writes != [] {
      CommitKeepsEvents(db, outbox, writes[..|writes| - 1], id);
    }
  }

  lemma ClaimedKeysKept(s: State, writes: seq<(Row, Id)>)
    requires s.claimed <= s.outbox.Keys
    ensures ClaimedKeys(Committed(s, writes)) == ClaimedKeys(s)
  {
    forall id | id in s.claimed
      ensures id in Committed(s, writes).outbox && Committed(s, writes).outbox[id] == s.outbox[id]
    {
      CommitKeepsEvents(s.db, s.outbox, writes, id);
    }
  }

  lemma CommitIgnoresClaims(s: State, t: State, writes: seq<(Row, Id)>)
    requires s.db == t.db && s.outbox == t.outbox
    ensures Committed(s, writes).db == Committed(t, writes).db
            && Committed(s, writes).outbox == Committed(t, writes).outbox
  {
  }

  /** A round in which nobody writes only takes the claimed events away. */
  lemma QuietRound(s: State, gaps: Gaps, claimed: set<Id>)
    requires claimed <= s.outbox.Keys
    ensures gaps == Gaps([], [], []) ==>
              var after := Committed(s, AllWrites(gaps));
              after.db == s.db && |after.outbox - claimed| + |claimed| == |s.outbox|
  {
    OutboxShrinks(s.outbox, claimed);
  }

  class GraphProjector {
    var state: State
    ghost var trace: seq<Step>

    ghost predicate Reached()
      reads this
    {
      state == Run(trace)
    }

    constructor ()
      ensures Reached() && state == START
    {
      state, trace := START, [];
    }

    method Do(step: Step)
      requires Reached()
      modifies this
      ensures Reached() && state == Next(old(state), step) && trace == old(trace) + [step]
    {
      assert (trace + [step])[..|trace|] == trace;
      state, trace := Next(state, step), trace + [step];
    }

    /** `FOR UPDATE SKIP LOCKED LIMIT batch_size`. */
    method Claim(batchSize: nat) returns (ids: set<Id>)
      requires Reached() && state.claimed == {}
      modifies this
      ensures Reached()
      ensures ids <= old(state).outbox.Keys && |ids| <= batchSize
      ensures ids == {} && batchSize > 0 ==> old(state).outbox == map[]
      ensures state == old(state).(claimed := ids, loaded := map[], applied := false)
    {
      ids := {};
      while |ids| < batchSize && ids != state.outbox.Keys
        invariant ids <= state.outbox.Keys && |ids| <= batchSize
        decreases state.outbox.Keys - ids
      {
        var id :| id in state.outbox && id !in ids;
        ids := ids + {id};
      }
      Do(ClaimEvents(ids));
    }

    method ClaimedTables() returns (keys: map<Table, set<Key>>)
      requires Reached()
      ensures keys.Keys == TablesOf(ClaimedKeys(state))
    {
      RunKeepsInv(trace);
      var events := KeysOf(state.outbox, state.claimed);
      assert forall k :: k in events <==> k in ClaimedKeys(state);
      keys := GroupKeys(events);
    }

    lemma NamedRowsExist()
      requires Reached()
      ensures RowsNamed(state, TablesOf(ClaimedKeys(state))).Keys == ClaimedKeys(state)
      ensures |RowsNamed(state, TablesOf(ClaimedKeys(state)))| <= |state.claimed|
    {
      RunKeepsInv(trace);
      LoadIsComplete(state);
    }

    /** Read the rows the claimed events name, table by table. */
    method Load()
      requires Reached() && state.claimed != {} && state.loaded == map[] && !state.applied
      modifies this
      ensures Reached()
      ensures state == old(state).(loaded := RowsNamed(old(state), TablesOf(ClaimedKeys(old(state)))))
      ensures state.loaded.Keys == ClaimedKeys(state) && |state.loaded| <= |state.claimed|
    {
      NamedRowsExist();
      var keys := ClaimedTables();
      var todo := keys.Keys;
      assert RowsNamed(state, keys.Keys - todo) == map[];
      while todo != {}
        invariant Reached() && todo <= keys.Keys
        invariant state == old(state).(loaded := RowsNamed(old(state), keys.Keys - todo))
        decreases todo
      {
        var t :| t in todo;
        LoadNext(old(state), keys.Keys - todo, t);
        assert keys.Keys - todo + {t} == keys.Keys - (todo - {t});
        todo := todo - {t};
        Do(LoadTable(t));
      }
      assert keys.Keys - todo == keys.Keys;
    }

    /** Merge everything loaded, in one Neo4j transaction. */
    method WriteGraph() returns (written: nat)
      requires Reached() && state.claimed != {} && !state.applied && ClaimedKeys(state) <= state.loaded.Keys
      modifies this
      ensures Reached() && state == old(state).(graph := state.graph, applied := true)
      ensures written == |old(state).loaded|
    {
      TableOrderComplete();
      var rows := GroupRows(state.loaded, TABLE_ORDER);
      var graph;
      graph, written := ApplyTables(state.graph, rows);
      RunKeepsInv(trace);
      ProjectNext(state, InOrder(rows, TABLE_ORDER));
      Do(Project(InOrder(rows, TABLE_ORDER)));
      assert state.graph == graph;
    }

    /** Writers commit while the projector's transaction is open. */
    method CommitWrites(writes: seq<(Row, Id)>)
      requires Reached()
      modifies this
      ensures Reached()
      ensures state == Committed(old(state), writes)
    {
      for i := 0 to |writes|
        invariant Reached() && state == Committed(old(state), writes[..i])
      {
        assert writes[..i + 1][..i] == writes[..i];
        Do(Write(writes[i].0, writes[i].1));
      }
      assert writes[..|writes|] == writes;
    }

    lemma ClaimsAreQueued()
      requires Reached()
      ensures state.claimed <= state.outbox.Keys
    {
      RunKeepsInv(trace);
    }

    /** Load what was claimed, while writers commit before and after. */
    method LoadBetween(before: seq<(Row, Id)>, after: seq<(Row, Id)>)
      requires Reached() && state.claimed != {} && state.loaded == map[] && !state.applied
      modifies this
      ensures Reached()
      ensures state == Committed(old(state), before + after).(loaded := state.loaded)
      ensures state.loaded.Keys == ClaimedKeys(state) && |state.loaded| <= |state.claimed|
    {
      CommitWrites(before);
      Load();
      ghost var loaded := state;
      ClaimsAreQueued();
      CommitWrites(after);
      CommitAppend(old(state).db, old(state).outbox, before, after);
      ClaimedKeysKept(loaded, after);
    }

    /** Load and write what was claimed while writers go on; then delete the events and commit, or roll back. */
    method Finish(fault: ProjectorFault, gaps: Gaps) returns (rows: nat)
      requires Reached() && state.claimed != {} && state.loaded == map[] && !state.applied
      modifies this
      ensures Reached() && state.claimed == {} && rows <= |old(state).claimed|
      ensures var after := Committed(old(state), AllWrites(gaps));
              && state.db == after.db
              && state.outbox == if fault.NoFault? then after.outbox - old(state).claimed else after.outbox
      ensures fault.GraphFails? ==> state.graph == old(state).graph
    {
      LoadBetween(gaps.afterClaim, gaps.afterLoad);
      rows := 0;
      if !fault.GraphFails? {
        rows := WriteGraph();
      }
      CommitWrites(gaps.afterGraph);
      CommitAppend(old(state).db, old(state).outbox, gaps.afterClaim + gaps.afterLoad, gaps.afterGraph);
      Do(if fault.NoFault? then DeleteEvents else Abort);
    }

    /**
     One iteration, with writers committing in between. Without a fault exactly the claimed events are
     gone; with one they all stay, whether or not the graph was already written.
     */
    method RunOnce(batchSize: nat, fault: ProjectorFault, gaps: Gaps)
      returns (events: nat, rows: nat, ghost claimed: set<Id>)
      requires Reached() && state.claimed == {}
      modifies this
      ensures Reached() && state.claimed == {}
      ensures claimed <= old(state).outbox.Keys && |claimed| <= batchSize && rows <= |claimed|
      ensures claimed == {} ==> events == 0 && state.db == old(state).db && state.outbox == old(state).outbox
      ensures claimed == {} && batchSize > 0 ==> state.outbox == map[]
      ensures claimed != {} ==>
                var after := Committed(old(state), AllWrites(gaps));
                && state.db == after.db
                && events == (if fault.NoFault? then |claimed| else 0)
                && state.outbox == if fault.NoFault? then after.outbox - claimed else after.outbox
      ensures fault.GraphFails? ==> state.graph == old(state).graph
    {
      var ids := Claim(batchSize);
      claimed := ids;
      events, rows := 0, 0;
      if ids != {} {
        CommitIgnoresClaims(old(state), state, AllWrites(gaps));
        rows := Finish(fault, gaps);
        events := if fault.NoFault? then |ids| else 0;
      }
    }

    /**
     However writers interleave while it drains, the outbox ends empty and the graph is what the database
     stands for.
     */
    method Drain(batchSize: nat, rounds: seq<Gaps>) returns (events: nat, rows: nat)
      requires Reached() && state.claimed == {} && batchSize > 0
      modifies this
      ensures Reached() && state.outbox == map[] && IsProjection(state.graph, state.db)
      ensures rounds == [] ==> state.db == old(state).db && events == |old(state).outbox| && rows <= events
    {
      events, rows := 0, 0;
      var n := 0;
      var moreEvents, moreRows, claimed := RunOnce(batchSize, NoFault, GapsAt(rounds, n));
      QuietRound(old(state), GapsAt(rounds, n), claimed);
      while moreEvents != 0
        invariant Reached() && state.claimed == {} && n <= |rounds|
        invariant moreEvents == 0 ==> state.outbox == map[]
        invariant rounds == [] ==>
                    && state.db == old(state).db && rows <= events && moreRows <= moreEvents
                    && events + moreEvents + |state.outbox| == |old(state).outbox|
        decreases |rounds| - n, |state.outbox|, moreEvents
      {
        events, rows := events + moreEvents, rows + moreRows;
        n := if n < |rounds| then n + 1 else n;
        ghost var before := state;
        moreEvents, moreRows, claimed := RunOnce(batchSize, NoFault, GapsAt(rounds, n));
        QuietRound(before, GapsAt(rounds, n), claimed);
      }
      Converged(trace);
    }
  }
}
