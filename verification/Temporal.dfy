/**
 The reference semantics of the bitemporal ledger (`app/temporal/reference.py`): which
 versions were known at K, how they looked then, and which one was valid at T.
 */
module Temporal {
  import opened Common
  import opened Sorting

  /** One fact version (`VersionSnapshot`), on both timelines. */
  datatype Version = Version(
    id: Id,
    factId: Id,
    number: int,
    value: string,
    sourceId: Id,
    validFrom: Instant,
    validUntil: Option<Instant>,
    observedAt: Instant,
    recordedAt: Instant,
    endRecordedAt: Option<Instant>,
    supersedes: Option<Id>,
    authority: int,
    confidence: real,
    scope: PrivacyScope)

  predicate IsKnown(v: Version, known: Option<Instant>) {
    known.None? || v.recordedAt <= known.value
  }

  /** The version as it looked at `known`: an end not learned by then is hidden. */
  function AsKnown(v: Version, known: Option<Instant>): Version {
    if known.None? || v.endRecordedAt.None? || v.endRecordedAt.value <= known.value
    then v
    else v.(validUntil := None, endRecordedAt := None)
  }

  predicate IsValidAt(v: Version, t: Instant) {
    v.validFrom <= t && (v.validUntil.None? || t < v.validUntil.value)
  }

  predicate NumberLe(a: Version, b: Version) {
    a.number <= b.number
  }

  /** The comprehension of `history_as_known`, over versions already in order. */
  function KnownView(vs: seq<Version>, known: Option<Instant>): seq<Version> {
    if vs == [] then []
    else (if IsKnown(vs[0], known) then [AsKnown(vs[0], known)] else []) + KnownView(vs[1..], known)
  }

  function History(vs: seq<Version>, known: Option<Instant>): seq<Version> {
    KnownView(SortBy(vs, NumberLe), known)
  }

  function Matches(vs: seq<Version>, t: Instant): seq<Version> {
    if vs == [] then []
    else (if IsValidAt(vs[0], t) then [vs[0]] else []) + Matches(vs[1..], t)
  }

  function Resolve(vs: seq<Version>, t: Instant, known: Option<Instant>): Result<Option<Version>> {
    var matches := Matches(History(vs, known), t);
    if |matches| > 1 then Err(InvariantViolation)
    else Ok(if |matches| == 1 then Some(matches[0]) else None)
  }

  datatype Change = Change(
    before: Option<Version>,
    after: Option<Version>,
    transitions: seq<Version>)

  function Transitions(vs: seq<Version>, start: Instant, end: Instant): seq<Version> {
    if vs == [] then []
    else (if start < vs[0].validFrom <= end then [vs[0]] else []) + Transitions(vs[1..], start, end)
  }

  function IdOf(v: Option<Version>): Option<Id> {
    if v.Some? then Some(v.value.id) else None
  }

  function ChangeBetween(vs: seq<Version>, start: Instant, end: Instant, known: Option<Instant>)
    : Result<Option<Change>>
  {
    if end <= start then Err(ValidationFailed)
    else
      var h := History(vs, known);
      var before := Resolve(h, start, None);
      var after := Resolve(h, end, None);
      if before.Err? then Err(before.error)
      else if after.Err? then Err(after.error)
      else
        var transitions := Transitions(h, start, end);
        if IdOf(before.value) == IdOf(after.value) && transitions == [] then Ok(None)
        else Ok(Some(Change(before.value, after.value, transitions)))
  }

  // ----- views compose -----

  function Earlier(a: Option<Instant>, b: Option<Instant>): Option<Instant> {
    if a.None? then b
    else if b.None? then a
    else if a.value <= b.value then a else b
  }

  lemma AsKnownComposes(v: Version, k1: Option<Instant>, k2: Option<Instant>)
    ensures IsKnown(v, Earlier(k1, k2)) <==> IsKnown(v, k1) && IsKnown(AsKnown(v, k1), k2)
    ensures AsKnown(AsKnown(v, k1), k2) == AsKnown(v, Earlier(k1, k2))
  {
  }

  lemma {:induction false} KnownViewComposes(vs: seq<Version>, k1: Option<Instant>, k2: Option<Instant>)
    ensures KnownView(KnownView(vs, k1), k2) == KnownView(vs, Earlier(k1, k2))
  {
    if vs != [] {
      KnownViewComposes(vs[1..], k1, k2);
      AsKnownComposes(vs[0], k1, k2);
      var rest := KnownView(vs[1..], k1);
      assert ([AsKnown(vs[0], k1)] + rest)[1..] == rest;
      assert [] + rest == rest;
    }
  }

  lemma {:induction false} KnownViewNumbers(vs: seq<Version>, known: Option<Instant>, lo: int)
    requires SortedBy(vs, NumberLe) && forall v :: v in vs ==> lo <= v.number
    ensures SortedBy(KnownView(vs, known), NumberLe)
    ensures forall v :: v in KnownView(vs, known) ==> lo <= v.number
  {
    if vs != [] {
      forall v | v in vs[1..] ensures vs[0].number <= v.number {
        var i :| 1 <= i < |vs| && vs[i] == v;
        assert NumberLe(vs[0], vs[i]);
      }
      KnownViewNumbers(vs[1..], known, vs[0].number);
      assert lo <= vs[0].number;
    }
  }

  /** Looking at K1's view from K2 is looking from the earlier of the two, for any versions. */
  lemma HistoryComposes(vs: seq<Version>, k1: Option<Instant>, k2: Option<Instant>)
    ensures History(History(vs, k1), k2) == History(vs, Earlier(k1, k2))
  {
    var sorted := SortBy(vs, NumberLe);
    HistorySorted(vs, k1);
    SortOfSorted(KnownView(sorted, k1), NumberLe);
    KnownViewComposes(sorted, k1, k2);
  }

  lemma HistorySorted(vs: seq<Version>, known: Option<Instant>)
    ensures SortedBy(History(vs, known), NumberLe)
  {
    var sorted := SortBy(vs, NumberLe);
    SortSorts(vs, NumberLe);
    var lo := if sorted == [] then 0 else sorted[0].number;
    forall v | v in sorted ensures lo <= v.number {
      var i :| 0 <= i < |sorted| && sorted[i] == v;
      assert i > 0 ==> NumberLe(sorted[0], sorted[i]);
    }
    KnownViewNumbers(sorted, known, lo);
  }

  // ----- timelines: at most one answer at every instant -----

  predicate WindowOk(v: Version) {
    v.validUntil.Some? ==> v.validFrom < v.validUntil.value
  }

  /** Non-empty windows that follow one another without overlap, under distinct ids. */
  ghost predicate Timeline(h: seq<Version>) {
    && (forall i :: 0 <= i < |h| ==> WindowOk(h[i]))
    && (forall i, j :: 0 <= i < j < |h| ==>
          && h[i].id != h[j].id
          && h[i].validUntil.Some?
          && h[i].validUntil.value <= h[j].validFrom)
  }

  lemma {:induction false} MatchesElements(h: seq<Version>, t: Instant)
    ensures forall v :: v in Matches(h, t) <==> v in h && IsValidAt(v, t)
  {
    if h != [] {
      MatchesElements(h[1..], t);
      assert h == [h[0]] + h[1..];
    }
  }

  lemma {:induction false} TransitionsElements(h: seq<Version>, start: Instant, end: Instant)
    ensures forall v :: v in Transitions(h, start, end) <==> v in h && start < v.validFrom <= end
  {
    if h != [] {
      TransitionsElements(h[1..], start, end);
      assert h == [h[0]] + h[1..];
    }
  }

  /** In version order, each once. */
  ghost predicate InOrder(vs: seq<Version>) {
    forall i, j :: 0 <= i < j < |vs| ==> vs[i].number <= vs[j].number && vs[i].id != vs[j].id
  }

  lemma {:induction false} TransitionsInOrder(h: seq<Version>, start: Instant, end: Instant)
    requires InOrder(h)
    ensures InOrder(Transitions(h, start, end))
  {
    if h != [] {
      TransitionsInOrder(h[1..], start, end);
      TransitionsElements(h[1..], start, end);
      forall v | v in h[1..] ensures h[0].number <= v.number && h[0].id != v.id {
        var i :| 1 <= i < |h| && h[i] == v;
      }
    }
  }

  lemma {:induction false} TimelineSingleMatch(h: seq<Version>, t: Instant)
    requires Timeline(h)
    ensures |Matches(h, t)| <= 1
  {
    if h != [] {
      var rest := h[1..];
      assert forall i :: 0 <= i < |rest| ==> rest[i] == h[i + 1];
      TimelineSingleMatch(rest, t);
      if IsValidAt(h[0], t) {
        NoneLater(h, t);
      }
    }
  }

  /** When the first window contains t, no later one does. */
  lemma NoneLater(h: seq<Version>, t: Instant)
    requires Timeline(h) && h != [] && IsValidAt(h[0], t)
    ensures Matches(h[1..], t) == []
  {
    NoMatches(h[1..], t);
  }

  lemma {:induction false} NoMatches(h: seq<Version>, t: Instant)
    requires forall i :: 0 <= i < |h| ==> !IsValidAt(h[i], t)
    ensures Matches(h, t) == []
  {
    if h != [] {
      NoMatches(h[1..], t);
    }
  }

  /** On a timeline `Resolve` answers with the one version valid at t. */
  lemma ResolveOnTimeline(vs: seq<Version>, t: Instant, known: Option<Instant>)
    requires Timeline(History(vs, known))
    ensures Resolve(vs, t, known).Ok?
    ensures forall v :: Resolve(vs, t, known) == Ok(Some(v)) <==> v in History(vs, known) && IsValidAt(v, t)
  {
    var h := History(vs, known);
    TimelineSingleMatch(h, t);
    MatchesElements(h, t);
    forall v ensures Resolve(vs, t, known) == Ok(Some(v)) <==> v in h && IsValidAt(v, t) {
      assert v in Matches(h, t) <==> v in h && IsValidAt(v, t);
    }
  }

  lemma TimelineIds(h: seq<Version>, a: Version, b: Version)
    requires Timeline(h) && a in h && b in h && a.id == b.id
    ensures a == b
  {
  }

  /** `v` takes effect at `t`: it is the answer at t and was not a microsecond before. */
  ghost predicate TakesEffect(vs: seq<Version>, known: Option<Instant>, v: Version, t: Instant) {
    Resolve(vs, t, known) == Ok(Some(v)) && Resolve(vs, t - 1, known) != Ok(Some(v))
  }

  lemma TakesEffectAtStart(vs: seq<Version>, known: Option<Instant>, v: Version, t: Instant)
    requires Timeline(History(vs, known)) && v in History(vs, known)
    ensures TakesEffect(vs, known, v, t) <==> t == v.validFrom
  {
    ResolveOnTimeline(vs, t, known);
    ResolveOnTimeline(vs, t - 1, known);
    var h := History(vs, known);
    var i :| 0 <= i < |h| && h[i] == v;
    assert WindowOk(h[i]);
  }

  /** Without a start in (start, end] and with equal answers at both ends, every answer is the same. */
  lemma NoTransitionNoChange(vs: seq<Version>, start: Instant, end: Instant, known: Option<Instant>, t: Instant)
    requires start <= t <= end
    requires Timeline(History(vs, known))
    requires Transitions(History(vs, known), start, end) == []
    requires Resolve(vs, start, known) == Resolve(vs, end, known)
    ensures Resolve(vs, t, known) == Resolve(vs, start, known)
  {
    var h := History(vs, known);
    ResolveOnTimeline(vs, start, known);
    ResolveOnTimeline(vs, t, known);
    TransitionsElements(h, start, end);
    var now := Resolve(vs, t, known).value;
    if now.Some? {
      assert now.value in h && now.value !in Transitions(h, start, end);
    } else if Resolve(vs, start, known).value.Some? {
      ResolveOnTimeline(vs, end, known);
      var v := Resolve(vs, start, known).value.value;
      assert Resolve(vs, start, known) == Ok(Some(v)) && Resolve(vs, end, known) == Ok(Some(v));
      assert IsValidAt(v, t);
    }
  }

  lemma TransitionChanges(vs: seq<Version>, start: Instant, end: Instant, known: Option<Instant>, v: Version)
    requires Timeline(History(vs, known)) && v in Transitions(History(vs, known), start, end)
    ensures start < v.validFrom <= end && TakesEffect(vs, known, v, v.validFrom)
    ensures Resolve(vs, v.validFrom, known) != Resolve(vs, start, known)
  {
    TransitionsElements(History(vs, known), start, end);
    TakesEffectAtStart(vs, known, v, v.validFrom);
    ResolveOnTimeline(vs, start, known);
  }

  lemma TransitionsAreTakingEffect(vs: seq<Version>, start: Instant, end: Instant, known: Option<Instant>, v: Version)
    requires Timeline(History(vs, known))
    ensures v in Transitions(History(vs, known), start, end) <==>
            exists t :: start < t <= end && TakesEffect(vs, known, v, t)
  {
    if v in Transitions(History(vs, known), start, end) {
      TransitionChanges(vs, start, end, known, v);
    }
    if t :| start < t <= end && TakesEffect(vs, known, v, t) {
      ResolveOnTimeline(vs, t, known);
      TakesEffectAtStart(vs, known, v, t);
      TransitionsElements(History(vs, known), start, end);
    }
  }

  /** On a timeline equal ids are equal answers. */
  lemma SameIdSameAnswer(vs: seq<Version>, s: Instant, t: Instant, known: Option<Instant>)
    requires Timeline(History(vs, known))
    ensures Resolve(vs, s, known).Ok? && Resolve(vs, t, known).Ok?
    ensures IdOf(Resolve(vs, s, known).value) == IdOf(Resolve(vs, t, known).value) <==>
            Resolve(vs, s, known) == Resolve(vs, t, known)
  {
    ResolveOnTimeline(vs, s, known);
    ResolveOnTimeline(vs, t, known);
    var a, b := Resolve(vs, s, known).value, Resolve(vs, t, known).value;
    if a.Some? && b.Some? && a.value.id == b.value.id {
      assert Resolve(vs, s, known) == Ok(Some(a.value)) && Resolve(vs, t, known) == Ok(Some(b.value));
      TimelineIds(History(vs, known), a.value, b.value);
    }
  }

  lemma ResolveInHistory(vs: seq<Version>, t: Instant, known: Option<Instant>)
    ensures Resolve(History(vs, known), t, None) == Resolve(vs, t, known)
  {
    HistoryComposes(vs, known, None);
  }

  lemma TransitionsOrdered(vs: seq<Version>, start: Instant, end: Instant, known: Option<Instant>)
    requires Timeline(History(vs, known))
    ensures InOrder(Transitions(History(vs, known), start, end))
  {
    HistorySorted(vs, known);
    TransitionsInOrder(History(vs, known), start, end);
  }

  /** An empty interval is refused, and nothing else is, on a timeline. */
  lemma ChangeRefusedIff(vs: seq<Version>, start: Instant, end: Instant, known: Option<Instant>)
    requires Timeline(History(vs, known))
    ensures ChangeBetween(vs, start, end, known) == Err(ValidationFailed) <==> end <= start
  {
    if start < end {
      ChangeShape(vs, start, end, known);
    }
  }

  lemma ChangeShape(vs: seq<Version>, start: Instant, end: Instant, known: Option<Instant>)
    requires start < end && Timeline(History(vs, known))
    ensures var before, after := Resolve(vs, start, known), Resolve(vs, end, known);
            var transitions := Transitions(History(vs, known), start, end);
            && before.Ok? && after.Ok?
            && ChangeBetween(vs, start, end, known) ==
               Ok(if before == after && transitions == [] then None
                  else Some(Change(before.value, after.value, transitions)))
  {
    ResolveInHistory(vs, start, known);
    ResolveInHistory(vs, end, known);
    SameIdSameAnswer(vs, start, end, known);
  }

  lemma SameThroughoutIff(vs: seq<Version>, start: Instant, end: Instant, known: Option<Instant>)
    requires start < end && Timeline(History(vs, known))
    ensures (Resolve(vs, start, known) == Resolve(vs, end, known)
             && Transitions(History(vs, known), start, end) == []) <==>
            forall t :: start <= t <= end ==> Resolve(vs, t, known) == Resolve(vs, start, known)
  {
    var transitions := Transitions(History(vs, known), start, end);
    if Resolve(vs, start, known) == Resolve(vs, end, known) && transitions == [] {
      forall t | start <= t <= end ensures Resolve(vs, t, known) == Resolve(vs, start, known) {
        NoTransitionNoChange(vs, start, end, known, t);
      }
    } else if transitions != [] {
      assert transitions[0] in transitions;
      TransitionChanges(vs, start, end, known, transitions[0]);
    }
  }

  /**
   `change_between` reports nothing exactly when the answer is the same at every instant of
   [start, end], and otherwise lists exactly the versions that take effect in (start, end],
   in version order and each once.
   */
  lemma ChangeBetweenExact(vs: seq<Version>, start: Instant, end: Instant, known: Option<Instant>)
    requires start < end
    requires Timeline(History(vs, known))
    ensures ChangeBetween(vs, start, end, known).Ok?
    ensures ChangeBetween(vs, start, end, known).value.None? <==>
            forall t :: start <= t <= end ==> Resolve(vs, t, known) == Resolve(vs, start, known)
    ensures ChangeBetween(vs, start, end, known).value.Some? ==>
              var c := ChangeBetween(vs, start, end, known).value.value;
              && Ok(c.before) == Resolve(vs, start, known)
              && Ok(c.after) == Resolve(vs, end, known)
              && (forall v :: v in c.transitions <==>
                    exists t :: start < t <= end && TakesEffect(vs, known, v, t))
              && InOrder(c.transitions)
  {
    ChangeShape(vs, start, end, known);
    SameThroughoutIff(vs, start, end, known);
    TransitionsOrdered(vs, start, end, known);
    forall v ensures v in Transitions(History(vs, known), start, end) <==>
                     exists t :: start < t <= end && TakesEffect(vs, known, v, t) {
      TransitionsAreTakingEffect(vs, start, end, known, v);
    }
  }
}
