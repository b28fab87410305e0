/**
 The write path of the ledger: supersession rules (`app/domain/facts.py`), the row
 operations (`app/repositories/facts.py`), `FactService.record_version`, contradiction
 detection, and the SQL form of "valid at T as known at K".
 */
module Ledger {
  import opened Common
  import opened Sorting
  import opened Temporal

  // ----- supersession rules -----

  datatype Window = Window(from: Instant, until: Option<Instant>)

  function MakeWindow(from: Instant, until: Option<Instant>): Result<Window> {
    if until.Some? && until.value <= from then Err(ValidationFailed) else Ok(Window(from, until))
  }

  datatype LatestVersion = LatestVersion(number: int, window: Window)

  datatype VersionPlan = VersionPlan(number: int, closePreviousAt: Option<Instant>)

  function PlanNewVersion(latest: Option<LatestVersion>, window: Window): Result<VersionPlan> {
    if latest.None? then Ok(VersionPlan(1, None))
    else
      var previous := latest.value.window;
      if window.from <= previous.from then Err(Conflict)
      else if previous.until.None? then Ok(VersionPlan(latest.value.number + 1, Some(window.from)))
      else if window.from < previous.until.value then Err(Conflict)
      else Ok(VersionPlan(latest.value.number + 1, None))
  }

  /** The database clock, pushed strictly past the latest version's transaction time. */
  function NextTransactionTime(latest: Option<Version>, clock: Instant): Instant {
    if latest.Some? && clock <= latest.value.recordedAt then latest.value.recordedAt + 1 else clock
  }

  datatype Command = Command(
    value: string,
    sourceId: Id,
    validFrom: Instant,
    validUntil: Option<Instant>,
    observedAt: Option<Instant>,
    authority: int,
    confidence: real,
    scope: PrivacyScope)

  function NewVersion(
    factId: Id, id: Id, number: int, window: Window, supersedes: Option<Id>, cmd: Command, recordedAt: Instant
  ): Version {
    Version(
      id, factId, number, cmd.value, cmd.sourceId,
      window.from, window.until,
      if cmd.observedAt.Some? then cmd.observedAt.value else cmd.validFrom,
      recordedAt,
      if window.until.None? then None else Some(recordedAt),
      supersedes, cmd.authority, cmd.confidence, cmd.scope)
  }

  // ----- contradictions (`app/domain/contradictions.py`) -----

  datatype Claim = Claim(
    id: Id,
    sourceId: Id,
    value: string,
    validFrom: Instant,
    validUntil: Option<Instant>,
    observedAt: Instant,
    authority: int,
    confidence: real)

  function RuleView(v: Version): Claim {
    Claim(v.id, v.sourceId, v.value, v.validFrom, v.validUntil, v.observedAt, v.authority, v.confidence)
  }

  predicate ValueConflict(previous: Claim, next: Claim) {
    && previous.sourceId != next.sourceId
    && previous.value != next.value
    && !(previous.validUntil.Some? && previous.observedAt >= previous.validUntil.value)
    && next.validFrom <= previous.observedAt
  }

  /** `max` over (authority, confidence, observed_at): the first of two equals wins. */
  function Preferred(a: Claim, b: Claim): Id {
    if || a.authority < b.authority
       || (a.authority == b.authority && a.confidence < b.confidence)
       || (a.authority == b.authority && a.confidence == b.confidence && a.observedAt < b.observedAt)
    then b.id else a.id
  }

  datatype Contradiction = Contradiction(left: Id, right: Id, preferred: Id, scope: PrivacyScope)

  function DetectValueConflict(previous: Version, next: Version): seq<Contradiction> {
    if !ValueConflict(RuleView(previous), RuleView(next)) then []
    else [Contradiction(
            previous.id, next.id, Preferred(RuleView(previous), RuleView(next)),
            if Sensitivity(previous.scope) < Sensitivity(next.scope) then next.scope else previous.scope)]
  }

  // ----- one write, as a function of the fact's rows -----

  datatype FactHistory = FactHistory(rows: seq<Version>, contradictions: seq<Contradiction>)

  function LastRow(rows: seq<Version>): Option<Version> {
    if rows == [] then None else Some(rows[|rows| - 1])
  }

  function Planned(latest: Option<Version>, window: Window): Result<VersionPlan> {
    PlanNewVersion(
      if latest.None? then None
      else Some(LatestVersion(latest.value.number, Window(latest.value.validFrom, latest.value.validUntil))),
      window)
  }

  /** `UPDATE ... WHERE id = ? AND valid_until IS NULL`. */
  function CloseRows(rows: seq<Version>, id: Id, until: Instant, recordedAt: Instant): seq<Version> {
    seq(|rows|, i requires 0 <= i < |rows| => CloseRow(rows[i], id, until, recordedAt))
  }

  function CloseRow(v: Version, id: Id, until: Instant, recordedAt: Instant): Version {
    if v.id == id && v.validUntil.None?
    then v.(validUntil := Some(until), endRecordedAt := Some(recordedAt))
    else v
  }

  /** A rejected write is rolled back: it has no new state. */
  function Record(h: FactHistory, factId: Id, cmd: Command, clock: Instant, newId: Id): Result<FactHistory> {
    var window := MakeWindow(cmd.validFrom, cmd.validUntil);
    if window.Err? then Err(window.error)
    else
      var latest := LastRow(h.rows);
      var plan := Planned(latest, window.value);
      if plan.Err? then Err(plan.error)
      else if exists v :: v in h.rows && v.id == newId then Err(IntegrityError)
      else
        var at := NextTransactionTime(latest, clock);
        var supersedes := if latest.None? then None else Some(latest.value.id);
        var version := NewVersion(factId, newId, plan.value.number, window.value, supersedes, cmd, at);
        var rows :=
          if latest.Some? && plan.value.closePreviousAt.Some?
          then CloseRows(h.rows, latest.value.id, plan.value.closePreviousAt.value, at)
          else h.rows;
        var found := if latest.None? then [] else DetectValueConflict(latest.value, version);
        Ok(FactHistory(rows + [version], h.contradictions + found))
  }

  /** The rows of one fact, as the repository changes them under the fact's row lock. */
  class FactRepository {
    const factId: Id
    var rows: seq<Version>
    var contradictions: seq<Contradiction>

    ghost predicate Valid()
      reads this
    {
      Chain(rows, factId)
    }

    constructor (factId: Id)
      ensures Valid() && this.factId == factId && rows == [] && contradictions == []
    {
      this.factId := factId;
      rows, contradictions := [], [];
    }

    /** `ORDER BY version DESC LIMIT 1`. */
    method Latest() returns (latest: Option<Version>)
      ensures latest.None? <==> rows == []
      ensures latest.Some? ==> latest.value in rows && forall v :: v in rows ==> v.number <= latest.value.number
    {
      latest := None;
      for i := 0 to |rows|
        invariant latest.None? <==> i == 0
        invariant latest.Some? ==>
                  latest.value in rows && forall j :: 0 <= j < i ==> rows[j].number <= latest.value.number
      {
        if latest.None? || latest.value.number < rows[i].number {
          latest := Some(rows[i]);
        }
      }
    }

    method CloseVersion(id: Id, until: Instant, recordedAt: Instant)
      modifies this`rows
      ensures rows == CloseRows(old(rows), id, until, recordedAt)
    {
      ghost var before := rows;
      for i := 0 to |rows|
        invariant |rows| == |before|
        invariant forall j :: 0 <= j < i ==> rows[j] == CloseRow(before[j], id, until, recordedAt)
        invariant forall j :: i <= j < |rows| ==> rows[j] == before[j]
      {
        if rows[i].id == id && rows[i].validUntil.None? {
          rows := rows[i := rows[i].(validUntil := Some(until), endRecordedAt := Some(recordedAt))];
        }
      }
    }

    method RecordVersion(cmd: Command, clock: Instant, newId: Id) returns (result: Result<Version>)
      requires Valid()
      modifies this`rows, this`contradictions
      ensures Valid()
      ensures var after := Record(old(FactHistory(rows, contradictions)), factId, cmd, clock, newId);
              && result.Ok? == after.Ok?
              && (result.Err? ==> result.error == after.error && unchanged(this))
              && (result.Ok? ==> FactHistory(rows, contradictions) == after.value && result.value == rows[|rows| - 1])
    {
      var window := MakeWindow(cmd.validFrom, cmd.validUntil);
      if window.Err? {
        return Err(window.error);
      }
      var latest := Latest();
      LatestIsLast(rows, factId, latest);
      var plan := Planned(latest, window.value);
      if plan.Err? {
        return Err(plan.error);
      }
      if exists v :: v in rows && v.id == newId {
        return Err(IntegrityError);
      }
      ghost var before := FactHistory(rows, contradictions);
      var recordedAt := NextTransactionTime(latest, clock);
      if latest.Some? && plan.value.closePreviousAt.Some? {
        CloseVersion(latest.value.id, plan.value.closePreviousAt.value, recordedAt);
      }
      var supersedes := if latest.None? then None else Some(latest.value.id);
      var version := NewVersion(factId, newId, plan.value.number, window.value, supersedes, cmd, recordedAt);
      rows := rows + [version];
      if latest.Some? {
        contradictions := contradictions + DetectValueConflict(latest.value, version);
      }
      RecordKeepsChain(before, factId, cmd, clock, newId);
      result := Ok(version);
    }
  }

  lemma LatestIsLast(rows: seq<Version>, factId: Id, latest: Option<Version>)
    requires Chain(rows, factId)
    requires latest.None? <==> rows == []
    requires latest.Some? ==> latest.value in rows && forall v :: v in rows ==> v.number <= latest.value.number
    ensures latest == LastRow(rows)
  {
  }

  // ----- the chain invariant -----

  predicate RowOk(v: Version, factId: Id) {
    && v.factId == factId
    && WindowOk(v)
    && (v.validUntil.None? <==> v.endRecordedAt.None?)
    && (v.endRecordedAt.Some? ==> v.recordedAt <= v.endRecordedAt.value)
  }

  /**
   Row i supersedes the row before it; its end was learned with the row itself, or with the
   row that takes over at that end.
   */
  ghost predicate Linked(rows: seq<Version>, i: nat)
    requires i < |rows|
  {
    && rows[i].supersedes == (if i == 0 then None else Some(rows[i - 1].id))
    && (rows[i].endRecordedAt.Some? && rows[i].validUntil.Some? ==>
          || rows[i].endRecordedAt.value == rows[i].recordedAt
          || (&& i + 1 < |rows|
              && rows[i].endRecordedAt.value == rows[i + 1].recordedAt
              && rows[i].validUntil.value == rows[i + 1].validFrom))
  }

  ghost predicate Follows(a: Version, b: Version) {
    && a.id != b.id
    && a.recordedAt < b.recordedAt
    && a.validUntil.Some? && a.endRecordedAt.Some?
    && a.validUntil.value <= b.validFrom
    && a.endRecordedAt.value <= b.recordedAt
  }

  /**
   Versions are numbered 1..n, each supersedes the previous one, transaction time strictly
   increases, and no two overlap in valid time.
   */
  ghost predicate Chain(rows: seq<Version>, factId: Id) {
    && (forall i :: 0 <= i < |rows| ==> RowOk(rows[i], factId) && rows[i].number == i + 1)
    && (forall i :: 0 <= i < |rows| ==> Linked(rows, i))
    && (forall i, j :: 0 <= i < j < |rows| ==> Follows(rows[i], rows[j]))
  }

  /** What one accepted write does to a chain: end its open last row, and add a row after it. */
  ghost predicate Extends(before: seq<Version>, rows: seq<Version>, factId: Id) {
    var n := |before|;
    && |rows| == n + 1
    && (forall i :: 0 <= i < n - 1 ==> rows[i] == before[i])
    && RowOk(rows[n], factId) && rows[n].number == n + 1
    && Linked(rows, n)
    && (forall i :: 0 <= i < n ==> before[i].id != rows[n].id)
    && (n > 0 ==>
          var last := before[n - 1];
          && last.recordedAt < rows[n].recordedAt
          && last.validFrom < rows[n].validFrom
          && (if last.validUntil.None?
              then rows[n - 1] == last.(validUntil := Some(rows[n].validFrom),
                endRecordedAt := Some(rows[n].recordedAt))
              else rows[n - 1] == last && last.validUntil.value <= rows[n].validFrom))
  }

  lemma RecordExtends(h: FactHistory, factId: Id, cmd: Command, clock: Instant, newId: Id)
    requires Chain(h.rows, factId)
    requires Record(h, factId, cmd, clock, newId).Ok?
    ensures Extends(h.rows, Record(h, factId, cmd, clock, newId).value.rows, factId)
  {
  }

  lemma ExtendsKeepsChain(before: seq<Version>, rows: seq<Version>, factId: Id)
    requires Chain(before, factId) && Extends(before, rows, factId)
    ensures Chain(rows, factId)
  {
    var n := |before|;
    forall i | 0 <= i < n ensures RowOk(rows[i], factId) && rows[i].number == i + 1 {
      assert RowOk(before[i], factId);
    }
    forall i, j | 0 <= i < j < |rows| ensures Follows(rows[i], rows[j]) {
      assert RowOk(before[i], factId) && Linked(before, n - 1);
      assert i < n - 1 ==> Follows(before[i], before[n - 1]);
      assert j < n ==> Follows(before[i], before[j]);
    }
    forall i | 0 <= i < |rows| ensures Linked(rows, i) {
      if i < n {
        assert Linked(before, i);
        if 0 < i {
          assert Follows(before[i - 1], before[i]);
        }
      }
    }
  }

  lemma RecordKeepsChain(h: FactHistory, factId: Id, cmd: Command, clock: Instant, newId: Id)
    requires Chain(h.rows, factId)
    requires Record(h, factId, cmd, clock, newId).Ok?
    ensures Chain(Record(h, factId, cmd, clock, newId).value.rows, factId)
  {
    RecordExtends(h, factId, cmd, clock, newId);
    ExtendsKeepsChain(h.rows, Record(h, factId, cmd, clock, newId).value.rows, factId);
  }

  // ----- every view of a chain is a timeline -----

  lemma {:induction false} KnownViewAppend(a: seq<Version>, b: seq<Version>, known: Option<Instant>)
    ensures KnownView(a + b, known) == KnownView(a, known) + KnownView(b, known)
  {
    if a == [] {
      assert a + b == b;
    } else {
      assert (a + b)[1..] == a[1..] + b;
      KnownViewAppend(a[1..], b, known);
    }
  }

  /** How many rows of a chain are known: the known ones form a prefix. */
  function KnownCount(rows: seq<Version>, known: Option<Instant>): (n: nat)
    ensures n <= |rows|
    ensures n > 0 ==> IsKnown(rows[n - 1], known)
    ensures forall i :: n <= i < |rows| ==> !IsKnown(rows[i], known)
  {
    if rows == [] then 0
    else if IsKnown(rows[|rows| - 1], known) then |rows|
    else KnownCount(rows[..|rows| - 1], known)
  }

  lemma {:induction false} AllKnownView(rows: seq<Version>, known: Option<Instant>)
    requires forall i :: 0 <= i < |rows| ==> IsKnown(rows[i], known)
    ensures KnownView(rows, known) == seq(|rows|, i requires 0 <= i < |rows| => AsKnown(rows[i], known))
  {
    if rows != [] {
      AllKnownView(rows[1..], known);
    }
  }

  lemma {:induction false} NoneKnownView(rows: seq<Version>, known: Option<Instant>)
    requires forall i :: 0 <= i < |rows| ==> !IsKnown(rows[i], known)
    ensures KnownView(rows, known) == []
  {
    if rows != [] {
      NoneKnownView(rows[1..], known);
    }
  }

  lemma ChainIsSorted(rows: seq<Version>, factId: Id)
    requires Chain(rows, factId)
    ensures SortBy(rows, NumberLe) == rows
  {
    SortOfSorted(rows, NumberLe);
  }

  lemma KnownPrefix(rows: seq<Version>, known: Option<Instant>)
    requires forall i, j :: 0 <= i < j < |rows| ==> Follows(rows[i], rows[j])
    ensures forall i :: 0 <= i < |rows| ==> (IsKnown(rows[i], known) <==> i < KnownCount(rows, known))
  {
  }

  lemma KnownPrefixView(rows: seq<Version>, known: Option<Instant>, n: nat)
    requires n <= |rows| && forall i :: 0 <= i < |rows| ==> (IsKnown(rows[i], known) <==> i < n)
    ensures |KnownView(rows, known)| == n
    ensures forall i :: 0 <= i < n ==> KnownView(rows, known)[i] == AsKnown(rows[i], known)
  {
    assert rows == rows[..n] + rows[n..];
    KnownViewAppend(rows[..n], rows[n..], known);
    AllKnownView(rows[..n], known);
    NoneKnownView(rows[n..], known);
  }

  /** At every K the history is the chain's known prefix, each row as it looked at K. */
  lemma HistoryIsPrefix(rows: seq<Version>, factId: Id, known: Option<Instant>)
    requires Chain(rows, factId)
    ensures var n := KnownCount(rows, known);
            && |History(rows, known)| == n
            && (forall i :: 0 <= i < |rows| ==> (IsKnown(rows[i], known) <==> i < n))
            && (forall i :: 0 <= i < n ==> History(rows, known)[i] == AsKnown(rows[i], known))
  {
    ChainIsSorted(rows, factId);
    KnownPrefix(rows, known);
    KnownPrefixView(rows, known, KnownCount(rows, known));
  }

  /** For every K the as-known view has no overlap, so `resolve` never raises. */
  lemma ChainIsTimeline(rows: seq<Version>, factId: Id, known: Option<Instant>)
    requires Chain(rows, factId)
    ensures Timeline(History(rows, known))
    ensures forall t :: Resolve(rows, t, known).Ok?
  {
    var h := History(rows, known);
    HistoryIsPrefix(rows, factId, known);
    forall i | 0 <= i < |h| ensures WindowOk(h[i]) {
      assert RowOk(rows[i], factId);
    }
    forall i, j | 0 <= i < j < |h|
      ensures h[i].id != h[j].id && h[i].validUntil.Some? && h[i].validUntil.value <= h[j].validFrom
    {
      assert Follows(rows[i], rows[j]);
      assert IsKnown(rows[j], known);
    }
    forall t ensures Resolve(rows, t, known).Ok? {
      ResolveOnTimeline(rows, t, known);
    }
  }

  // ----- runs -----

  datatype Write = Write(cmd: Command, clock: Instant, newId: Id)

  /** Writes to one fact, in lock order; a rejected one changes nothing. */
  function Run(h: FactHistory, factId: Id, writes: seq<Write>): FactHistory
    decreases |writes|
  {
    if writes == [] then h
    else
      var next := Record(h, factId, writes[0].cmd, writes[0].clock, writes[0].newId);
      Run(if next.Ok? then next.value else h, factId, writes[1..])
  }

  /** Contradictions recomputed from history, each version as it was claimed when recorded. */
  function Claimed(v: Version): Version {
    AsKnown(v, Some(v.recordedAt))
  }

  /** The verdict on rows i-1 and i. */
  function ConflictAt(rows: seq<Version>, i: nat): seq<Contradiction>
    requires 0 < i < |rows|
  {
    DetectValueConflict(Claimed(rows[i - 1]), Claimed(rows[i]))
  }

  function Replay(rows: seq<Version>): seq<Contradiction> {
    if |rows| <= 1 then [] else Replay(rows[..|rows| - 1]) + ConflictAt(rows, |rows| - 1)
  }

  lemma {:induction false} ReplayIgnoresLaterEnds(a: seq<Version>, b: seq<Version>)
    requires |a| == |b| && forall i :: 0 <= i < |a| ==> Claimed(a[i]) == Claimed(b[i])
    ensures Replay(a) == Replay(b)
  {
    if |a| > 1 {
      ReplayIgnoresLaterEnds(a[..|a| - 1], b[..|b| - 1]);
    }
  }

  lemma ExtendsReplays(before: seq<Version>, rows: seq<Version>, factId: Id)
    requires Chain(before, factId) && Extends(before, rows, factId)
    ensures Replay(rows) ==
            Replay(before) + (if before == [] then [] else DetectValueConflict(before[|before| - 1], rows[|before|]))
  {
    var n := |before|;
    var kept := rows[..n];
    forall i | 0 <= i < n ensures Claimed(kept[i]) == Claimed(before[i]) {
      assert RowOk(before[i], factId);
    }
    ReplayIgnoresLaterEnds(kept, before);
    if n > 0 {
      assert Linked(before, n - 1);
      assert Claimed(before[n - 1]) == before[n - 1] && Claimed(rows[n]) == rows[n];
    }
  }

  lemma RecordDetects(h: FactHistory, factId: Id, cmd: Command, clock: Instant, newId: Id)
    requires Record(h, factId, cmd, clock, newId).Ok?
    ensures var after := Record(h, factId, cmd, clock, newId).value;
            var n := |h.rows|;
            && |after.rows| == n + 1
            && after.contradictions ==
               h.contradictions + (if n == 0 then [] else DetectValueConflict(h.rows[n - 1], after.rows[n]))
  {
  }

  lemma RecordReplays(h: FactHistory, factId: Id, cmd: Command, clock: Instant, newId: Id)
    requires Chain(h.rows, factId) && h.contradictions == Replay(h.rows) && Record(h, factId, cmd, clock, newId).Ok?
    ensures var after := Record(h, factId, cmd, clock, newId).value;
            Chain(after.rows, factId) && after.contradictions == Replay(after.rows)
  {
    var after := Record(h, factId, cmd, clock, newId).value;
    RecordKeepsChain(h, factId, cmd, clock, newId);
    RecordDetects(h, factId, cmd, clock, newId);
    assert after.contradictions == Replay(after.rows) by {
      RecordExtends(h, factId, cmd, clock, newId);
      ExtendsReplays(h.rows, after.rows, factId);
    }
  }

  /**
   After any writes at all (any windows, any clock), the rows are a chain and the stored
   contradictions are exactly those recomputed from history.
   */
  lemma {:induction false} EveryRunIsConsistent(h: FactHistory, factId: Id, writes: seq<Write>)
    requires Chain(h.rows, factId) && h.contradictions == Replay(h.rows)
    ensures var after := Run(h, factId, writes);
            Chain(after.rows, factId) && after.contradictions == Replay(after.rows)
    decreases |writes|
  {
    if writes != [] {
      var w := writes[0];
      var next := Record(h, factId, w.cmd, w.clock, w.newId);
      if next.Ok? {
        RecordReplays(h, factId, w.cmd, w.clock, w.newId);
        EveryRunIsConsistent(next.value, factId, writes[1..]);
      } else {
        EveryRunIsConsistent(h, factId, writes[1..]);
      }
    }
  }

  lemma {:induction false} ReplayMembers(rows: seq<Version>, c: Contradiction)
    ensures c in Replay(rows) <==> exists i :: 0 < i < |rows| && c in ConflictAt(rows, i)
  {
    if |rows| > 1 {
      var init := rows[..|rows| - 1];
      ReplayMembers(init, c);
      assert forall i :: 0 < i < |init| ==> ConflictAt(init, i) == ConflictAt(rows, i);
      if c in Replay(init) {
        var i :| 0 < i < |init| && c in ConflictAt(init, i);
        assert c in ConflictAt(rows, i);
      }
    }
  }

  /**
   Two versions contradict each other: different sources say different values, and the earlier one was
   observed while it was still valid and at a time the later one claims for itself.
   */
  predicate Contradicts(previous: Version, next: Version) {
    && previous.sourceId != next.sourceId && previous.value != next.value
    && (previous.validUntil.None? || previous.observedAt < previous.validUntil.value)
    && next.validFrom <= previous.observedAt
  }

  lemma ConflictIff(previous: Version, next: Version)
    ensures DetectValueConflict(previous, next) != [] <==> Contradicts(previous, next)
    ensures |DetectValueConflict(previous, next)| <= 1
  {
  }

  lemma ContradictionsOfChain(rows: seq<Version>, factId: Id, i: nat)
    requires Chain(rows, factId) && 0 < i < |rows|
    ensures (exists c :: c in Replay(rows) && c.left == rows[i - 1].id && c.right == rows[i].id)
            <==> Contradicts(Claimed(rows[i - 1]), Claimed(rows[i]))
  {
    ConflictIff(Claimed(rows[i - 1]), Claimed(rows[i]));
    var found := ConflictAt(rows, i);
    if found != [] {
      ReplayMembers(rows, found[0]);
    }
    if c :| c in Replay(rows) && c.left == rows[i - 1].id && c.right == rows[i].id {
      ReplayMembers(rows, c);
      var j :| 0 < j < |rows| && c in ConflictAt(rows, j);
      assert j < i ==> Follows(rows[j], rows[i]);
      assert i < j ==> Follows(rows[i], rows[j]);
    }
  }

  /**
   A value-conflict row joins versions i-1 and i exactly when they contradict each other as each
   was claimed, although version i-1 was closed by that very write.
   */
  lemma ContradictionsMatchHistory(factId: Id, writes: seq<Write>, i: nat)
    requires 0 < i < |Run(FactHistory([], []), factId, writes).rows|
    ensures var after := Run(FactHistory([], []), factId, writes);
            (exists c :: c in after.contradictions && c.left == after.rows[i - 1].id && c.right == after.rows[i].id)
            <==> Contradicts(Claimed(after.rows[i - 1]), Claimed(after.rows[i]))
  {
    var empty := FactHistory([], []);
    EveryRunIsConsistent(empty, factId, writes);
    ContradictionsOfChain(Run(empty, factId, writes).rows, factId, i);
  }

  /** Detection run after closing would be blind: the new start cuts off every later observation. */
  lemma DetectionAfterClosingFindsNothing(previous: Version, next: Version, recordedAt: Instant)
    requires previous.validUntil.None?
    ensures DetectValueConflict(CloseRow(previous, previous.id, next.validFrom, recordedAt), next) == []
  {
  }

  /** The window starts after every stored one has started and, if it has an end, ended. */
  ghost predicate FitsAfter(rows: seq<Version>, window: Window) {
    forall i :: 0 <= i < |rows| ==>
      rows[i].validFrom < window.from && (rows[i].validUntil.Some? ==> rows[i].validUntil.value <= window.from)
  }

  /**
   A write is accepted exactly when its window is not empty and comes after every stored window, and
   its id is new.
   */
  lemma RecordAcceptsExactly(h: FactHistory, factId: Id, cmd: Command, clock: Instant, newId: Id)
    requires Chain(h.rows, factId)
    ensures Record(h, factId, cmd, clock, newId).Ok? <==>
            && (cmd.validUntil.Some? ==> cmd.validFrom < cmd.validUntil.value)
            && FitsAfter(h.rows, Window(cmd.validFrom, cmd.validUntil))
            && (forall i :: 0 <= i < |h.rows| ==> h.rows[i].id != newId)
  {
  }

  /**
   Why a write is refused: an empty window, a window that does not come last, or an id that is taken,
   in this order.
   */
  lemma RecordRefusals(h: FactHistory, factId: Id, cmd: Command, clock: Instant, newId: Id)
    requires Chain(h.rows, factId)
    ensures var r := Record(h, factId, cmd, clock, newId);
            var empty := cmd.validUntil.Some? && cmd.validUntil.value <= cmd.validFrom;
            var last := FitsAfter(h.rows, Window(cmd.validFrom, cmd.validUntil));
            && (r == Err(ValidationFailed) <==> empty)
            && (r == Err(Conflict) <==> !empty && !last)
            && (r == Err(IntegrityError) <==> !empty && last && exists i :: 0 <= i < |h.rows| && h.rows[i].id == newId)
  {
    RecordAcceptsExactly(h, factId, cmd, clock, newId);
    var n := |h.rows|;
    assert forall i :: 0 <= i < n - 1 ==> RowOk(h.rows[i], factId) && Follows(h.rows[i], h.rows[n - 1]);
  }

  /** The version says what the write said. */
  predicate Says(v: Version, w: Write) {
    && v.id == w.newId && v.value == w.cmd.value && v.sourceId == w.cmd.sourceId
    && v.validFrom == w.cmd.validFrom && v.validUntil == w.cmd.validUntil
    && v.observedAt == (if w.cmd.observedAt.Some? then w.cmd.observedAt.value else w.cmd.validFrom)
    && v.authority == w.cmd.authority && v.confidence == w.cmd.confidence && v.scope == w.cmd.scope
  }

  ghost predicate SaidBy(v: Version, writes: seq<Write>) {
    exists j :: 0 <= j < |writes| && Says(v, writes[j])
  }

  ghost predicate Said(rows: seq<Version>, writes: seq<Write>) {
    forall i :: 0 <= i < |rows| ==> SaidBy(Claimed(rows[i]), writes)
  }

  lemma SaidByMore(v: Version, writes: seq<Write>, w: Write)
    requires SaidBy(v, writes) || Says(v, w)
    ensures SaidBy(v, writes + [w])
  {
    if Says(v, w) {
      assert (writes + [w])[|writes|] == w;
    } else {
      var j :| 0 <= j < |writes| && Says(v, writes[j]);
      assert (writes + [w])[j] == writes[j];
    }
  }

  lemma RecordSays(h: FactHistory, factId: Id, w: Write, writes: seq<Write>)
    requires Chain(h.rows, factId) && Said(h.rows, writes) && Record(h, factId, w.cmd, w.clock, w.newId).Ok?
    ensures Said(Record(h, factId, w.cmd, w.clock, w.newId).value.rows, writes + [w])
  {
    var rows, n := Record(h, factId, w.cmd, w.clock, w.newId).value.rows, |h.rows|;
    RecordExtends(h, factId, w.cmd, w.clock, w.newId);
    forall i | 0 <= i <= n ensures SaidBy(Claimed(rows[i]), writes + [w]) {
      if i < n {
        assert RowOk(h.rows[i], factId) && Claimed(rows[i]) == Claimed(h.rows[i]);
      }
      SaidByMore(Claimed(rows[i]), writes, w);
    }
  }

  /**
   Over every run, each version as it was claimed when recorded is what some write said: later writes
   never alter a claim.
   */
  lemma {:induction false} ClaimsAreNeverAltered(h: FactHistory, factId: Id, earlier: seq<Write>, writes: seq<Write>)
    requires Chain(h.rows, factId) && Said(h.rows, earlier)
    ensures Said(Run(h, factId, writes).rows, earlier + writes)
    decreases |writes|
  {
    if writes == [] {
      assert earlier + writes == earlier;
    } else {
      var w := writes[0];
      var next := Record(h, factId, w.cmd, w.clock, w.newId);
      assert earlier + writes == (earlier + [w]) + writes[1..];
      if next.Ok? {
        RecordSays(h, factId, w, earlier);
        RecordKeepsChain(h, factId, w.cmd, w.clock, w.newId);
        ClaimsAreNeverAltered(next.value, factId, earlier + [w], writes[1..]);
      } else {
        SaidMore(h.rows, earlier, w);
        ClaimsAreNeverAltered(h, factId, earlier + [w], writes[1..]);
      }
    }
  }

  lemma SaidMore(rows: seq<Version>, writes: seq<Write>, w: Write)
    requires Said(rows, writes)
    ensures Said(rows, writes + [w])
  {
    forall i | 0 <= i < |rows| ensures SaidBy(Claimed(rows[i]), writes + [w]) {
      SaidByMore(Claimed(rows[i]), writes, w);
    }
  }

  /** Rank by authority, then confidence, then observation. */
  predicate AtLeast(a: Version, b: Version) {
    || a.authority > b.authority
    || (a.authority == b.authority && a.confidence > b.confidence)
    || (a.authority == b.authority && a.confidence == b.confidence && a.observedAt >= b.observedAt)
  }

  /**
   A contradiction row names both versions, prefers one that ranks at least as high as the other
   (the earlier version on a tie), and is exactly as sensitive as the more sensitive of the two.
   */
  lemma ContradictionContent(previous: Version, next: Version, c: Contradiction)
    requires c in DetectValueConflict(previous, next)
    ensures c.left == previous.id && c.right == next.id
    ensures c.preferred == (if AtLeast(previous, next) then previous.id else next.id)
    ensures AtLeast(previous, next) || AtLeast(next, previous)
    ensures c.scope == previous.scope || c.scope == next.scope
    ensures Sensitivity(c.scope) >= Sensitivity(previous.scope) && Sensitivity(c.scope) >= Sensitivity(next.scope)
  {
  }

  /** The recorded instant is the least one not before the clock and after the latest version's. */
  lemma TransactionTimeIsLeast(latest: Option<Version>, clock: Instant, t: Instant)
    ensures var at := NextTransactionTime(latest, clock);
            && clock <= at && (latest.Some? ==> latest.value.recordedAt < at)
            && (clock <= t && (latest.Some? ==> latest.value.recordedAt < t) ==> at <= t)
  {
  }

  // ----- time-travel stability -----

  lemma ExtendsSameCount(before: seq<Version>, rows: seq<Version>, factId: Id, k: Instant)
    requires Chain(before, factId) && Chain(rows, factId) && Extends(before, rows, factId)
             && k < rows[|before|].recordedAt
    ensures KnownCount(rows, Some(k)) == KnownCount(before, Some(k)) <= |before|
  {
  }

  lemma ExtendsIsNews(before: seq<Version>, rows: seq<Version>, factId: Id, k: Instant)
    requires Chain(before, factId) && Chain(rows, factId) && Extends(before, rows, factId)
    ensures k < rows[|before|].recordedAt ==> History(rows, Some(k)) == History(before, Some(k))
    ensures k >= rows[|before|].recordedAt ==> |History(rows, Some(k))| == |rows|
  {
    var n := |before|;
    HistoryIsPrefix(before, factId, Some(k));
    HistoryIsPrefix(rows, factId, Some(k));
    if k < rows[n].recordedAt {
      ExtendsSameCount(before, rows, factId, k);
      forall i | 0 <= i < KnownCount(rows, Some(k)) ensures AsKnown(rows[i], Some(k)) == AsKnown(before[i], Some(k)) {
        assert RowOk(before[i], factId);
      }
    } else {
      assert IsKnown(rows[n], Some(k));
    }
  }

  lemma {:induction false} RunKeepsTimes(h: FactHistory, factId: Id, writes: seq<Write>)
    requires Chain(h.rows, factId)
    ensures var after := Run(h, factId, writes).rows;
            && Chain(after, factId)
            && |h.rows| <= |after|
            && (forall i :: 0 <= i < |h.rows| ==> after[i].recordedAt == h.rows[i].recordedAt)
    decreases |writes|
  {
    if writes != [] {
      var w := writes[0];
      var next := Record(h, factId, w.cmd, w.clock, w.newId);
      if next.Ok? {
        RecordExtends(h, factId, w.cmd, w.clock, w.newId);
        ExtendsKeepsChain(h.rows, next.value.rows, factId);
        RunKeepsTimes(next.value, factId, writes[1..]);
      } else {
        RunKeepsTimes(h, factId, writes[1..]);
      }
    }
  }

  lemma {:induction false} HistoryStable(h: FactHistory, factId: Id, writes: seq<Write>, k: Instant)
    requires Chain(h.rows, factId)
    requires var after := Run(h, factId, writes).rows;
             forall i :: |h.rows| <= i < |after| ==> k < after[i].recordedAt
    ensures History(Run(h, factId, writes).rows, Some(k)) == History(h.rows, Some(k))
    decreases |writes|
  {
    if writes != [] {
      var w := writes[0];
      var next := Record(h, factId, w.cmd, w.clock, w.newId);
      assert Run(h, factId, writes) == Run(if next.Ok? then next.value else h, factId, writes[1..]);
      if next.Ok? {
        RecordExtends(h, factId, w.cmd, w.clock, w.newId);
        ExtendsKeepsChain(h.rows, next.value.rows, factId);
        RunKeepsTimes(next.value, factId, writes[1..]);
        ExtendsIsNews(h.rows, next.value.rows, factId, k);
        HistoryStable(next.value, factId, writes[1..], k);
      } else {
        HistoryStable(h, factId, writes[1..], k);
      }
    }
  }

  /**
   What was known at k never changes as long as every later version is recorded after k, and
   does change as soon as one is not.
   */
  lemma HistoryStableIffRecordedLater(h: FactHistory, factId: Id, writes: seq<Write>, k: Instant)
    requires Chain(h.rows, factId)
    ensures var after := Run(h, factId, writes).rows;
            && |h.rows| <= |after|
            && (History(after, Some(k)) == History(h.rows, Some(k)) <==>
                forall i :: |h.rows| <= i < |after| ==> k < after[i].recordedAt)
  {
    RunKeepsTimes(h, factId, writes);
    var after := Run(h, factId, writes).rows;
    if forall i :: |h.rows| <= i < |after| ==> k < after[i].recordedAt {
      HistoryStable(h, factId, writes, k);
    } else {
      var i :| |h.rows| <= i < |after| && k >= after[i].recordedAt;
      HistoryIsPrefix(after, factId, Some(k));
      HistoryIsPrefix(h.rows, factId, Some(k));
      assert IsKnown(after[i], Some(k));
    }
  }

  // ----- the SQL form (`app/repositories/temporal.py`) -----

  predicate NotRevoked(v: Version, revokedAt: map<Id, Instant>, known: Option<Instant>) {
    !(v.id in revokedAt && (known.None? || revokedAt[v.id] <= known.value))
  }

  predicate SqlValidAt(v: Version, revokedAt: map<Id, Instant>, t: Instant, known: Option<Instant>) {
    if known.None? then
      && v.validFrom <= t
      && (v.validUntil.None? || v.validUntil.value > t)
      && NotRevoked(v, revokedAt, None)
    else
      && NotRevoked(v, revokedAt, known)
      && v.recordedAt <= known.value
      && v.validFrom <= t
      && (|| v.validUntil.None?
          || (v.endRecordedAt.Some? && v.endRecordedAt.value > known.value)
          || v.validUntil.value > t)
  }

  function SqlRows(rows: seq<Version>, revokedAt: map<Id, Instant>, t: Instant, known: Option<Instant>): seq<Version> {
    if rows == [] then []
    else (if SqlValidAt(rows[0], revokedAt, t, known) then [rows[0]] else []) + SqlRows(rows[1..], revokedAt, t, known)
  }

  /** The two readers agree on every single row, whatever it holds. */
  lemma SqlRowMatchesReference(v: Version, revokedAt: map<Id, Instant>, t: Instant, known: Option<Instant>)
    ensures SqlValidAt(v, revokedAt, t, known) <==>
            NotRevoked(v, revokedAt, known) && IsKnown(v, known) && IsValidAt(AsKnown(v, known), t)
  {
  }

  /**
   Revocation decides the rest: a row that is known and valid passes exactly if it is not revoked at all,
   when the latest knowledge is asked for, and not revoked by K, when K is.
   */
  lemma RevocationHides(v: Version, revokedAt: map<Id, Instant>, t: Instant, known: Option<Instant>)
    ensures SqlValidAt(v, revokedAt, t, known) <==>
            && IsKnown(v, known) && IsValidAt(AsKnown(v, known), t)
            && match known
               case None => v.id !in revokedAt
               case Some(k) => v.id in revokedAt ==> k < revokedAt[v.id]
  {
  }

  lemma {:induction false} SqlRowsElements(
    rows: seq<Version>, revokedAt: map<Id, Instant>, t: Instant, known: Option<Instant>)
    ensures forall v :: v in SqlRows(rows, revokedAt, t, known) <==> v in rows && SqlValidAt(v, revokedAt, t, known)
  {
    if rows != [] {
      SqlRowsElements(rows[1..], revokedAt, t, known);
      assert rows == [rows[0]] + rows[1..];
    }
  }

  lemma {:induction false} SqlRowsCount(
    rows: seq<Version>, revokedAt: map<Id, Instant>, t: Instant, known: Option<Instant>)
    ensures |SqlRows(rows, revokedAt, t, known)| <= |SqlRows(rows, map[], t, known)| ==
            |Matches(KnownView(rows, known), t)|
  {
    if rows != [] {
      SqlRowsCount(rows[1..], revokedAt, t, known);
      SqlRowMatchesReference(rows[0], map[], t, known);
      var rest := KnownView(rows[1..], known);
      assert ([AsKnown(rows[0], known)] + rest)[1..] == rest && [] + rest == rest;
    }
  }

  lemma SqlRowIsResolved(
    rows: seq<Version>, factId: Id, revokedAt: map<Id, Instant>, t: Instant, known: Option<Instant>, v: Version)
    requires Chain(rows, factId)
    requires v in rows && SqlValidAt(v, revokedAt, t, known)
    ensures Resolve(rows, t, known) == Ok(Some(AsKnown(v, known))) && NotRevoked(v, revokedAt, known)
  {
    ChainIsTimeline(rows, factId, known);
    ResolveOnTimeline(rows, t, known);
    HistoryIsPrefix(rows, factId, known);
    SqlRowMatchesReference(v, revokedAt, t, known);
    var i :| 0 <= i < |rows| && rows[i] == v;
    assert History(rows, known)[i] == AsKnown(v, known);
    assert AsKnown(v, known) in History(rows, known);
  }

  lemma ResolvedRowIsStored(rows: seq<Version>, factId: Id, t: Instant, known: Option<Instant>, r: Version)
    requires Chain(rows, factId) && Resolve(rows, t, known) == Ok(Some(r))
    ensures exists i :: 0 <= i < |rows| && AsKnown(rows[i], known) == r && IsKnown(rows[i], known) && IsValidAt(r, t)
  {
    ChainIsTimeline(rows, factId, known);
    ResolveOnTimeline(rows, t, known);
    HistoryIsPrefix(rows, factId, known);
    var i :| 0 <= i < |History(rows, known)| && History(rows, known)[i] == r;
    assert AsKnown(rows[i], known) == r && IsKnown(rows[i], known);
  }

  lemma AtMostOneSqlRow(rows: seq<Version>, factId: Id, revokedAt: map<Id, Instant>, t: Instant, known: Option<Instant>)
    requires Chain(rows, factId)
    ensures |SqlRows(rows, revokedAt, t, known)| <= 1
  {
    ChainIsTimeline(rows, factId, known);
    ChainIsSorted(rows, factId);
    TimelineSingleMatch(History(rows, known), t);
    SqlRowsCount(rows, revokedAt, t, known);
  }

  /**
   The rows of a fact that pass the SQL condition are exactly the resolved version when that
   version is not revoked as known at K, and none otherwise.
   */
  lemma SqlRefinesReference(
    rows: seq<Version>, factId: Id, revokedAt: map<Id, Instant>, t: Instant, known: Option<Instant>)
    requires Chain(rows, factId)
    ensures var sql := SqlRows(rows, revokedAt, t, known);
            && Resolve(rows, t, known).Ok?
            && |sql| <= 1
            && (forall v :: sql == [v] ==>
                  Resolve(rows, t, known) == Ok(Some(AsKnown(v, known))) && NotRevoked(v, revokedAt, known))
            && (sql == [] <==>
                  match Resolve(rows, t, known).value
                  case None => true
                  case Some(v) => !NotRevoked(v, revokedAt, known))
  {
    var sql := SqlRows(rows, revokedAt, t, known);
    ChainIsTimeline(rows, factId, known);
    AtMostOneSqlRow(rows, factId, revokedAt, t, known);
    SqlRowsElements(rows, revokedAt, t, known);
    if sql != [] {
      assert sql[0] in sql;
      SqlRowIsResolved(rows, factId, revokedAt, t, known, sql[0]);
    } else if Resolve(rows, t, known).value.Some? {
      var r := Resolve(rows, t, known).value.value;
      ResolvedRowIsStored(rows, factId, t, known, r);
      var i :| 0 <= i < |rows| && AsKnown(rows[i], known) == r && IsKnown(rows[i], known);
      SqlRowMatchesReference(rows[i], revokedAt, t, known);
      assert rows[i] in rows && rows[i] !in sql;
    }
  }
}
