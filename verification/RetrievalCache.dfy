/**
 The generation-keyed cache of search results (`app/cache/retrieval.py`) as `_search` uses it
 (`app/services/retrieval.py`), for one organization.
 */
module RetrievalCache {
  import opened Common

  // ----- who may see what -----

  datatype Role = Viewer | Engineer | Admin

  const PRIVACY_ORDER: seq<PrivacyScope> := [Public, Internal, Confidential, Restricted]

  function RoleMax(role: Role): PrivacyScope {
    match role
    case Viewer => Internal
    case Engineer => Confidential
    case Admin => Restricted
  }

  predicate WithinCeilings(scope: PrivacyScope, ceilings: seq<Option<PrivacyScope>>) {
    forall i :: 0 <= i < |ceilings| && ceilings[i].Some? ==> Sensitivity(scope) <= Sensitivity(ceilings[i].value)
  }

  /** The scopes up to the role's maximum and up to every ceiling given. */
  function Visible(role: Role, ceilings: seq<Option<PrivacyScope>>): set<PrivacyScope> {
    set s: PrivacyScope | Sensitivity(s) <= Sensitivity(RoleMax(role)) && WithinCeilings(s, ceilings)
  }

  lemma OneMoreCeiling(ceilings: seq<Option<PrivacyScope>>, i: nat)
    requires i < |ceilings|
    ensures forall s: PrivacyScope :: WithinCeilings(s, ceilings[..i + 1]) <==>
              WithinCeilings(s, ceilings[..i])
                && (ceilings[i].Some? ==> Sensitivity(s) <= Sensitivity(ceilings[i].value))
  {
  }

  /** Lower the ceiling step by step, then take that much of the order. */
  method VisiblePrivacyScopes(role: Role, ceilings: seq<Option<PrivacyScope>>) returns (scopes: set<PrivacyScope>)
    ensures scopes == Visible(role, ceilings)
  {
    var ceiling := Sensitivity(RoleMax(role));
    for i := 0 to |ceilings|
      invariant ceiling <= 3
      invariant forall s: PrivacyScope :: Sensitivity(s) <= ceiling <==>
                Sensitivity(s) <= Sensitivity(RoleMax(role)) && WithinCeilings(s, ceilings[..i])
    {
      OneMoreCeiling(ceilings, i);
      if ceilings[i].Some? && Sensitivity(ceilings[i].value) < ceiling {
        ceiling := Sensitivity(ceilings[i].value);
      }
    }
    assert ceilings[..|ceilings|] == ceilings;
    scopes := set i | 0 <= i <= ceiling :: PRIVACY_ORDER[i];
    forall s: PrivacyScope ensures s in scopes <==> s in Visible(role, ceilings) {
      assert PRIVACY_ORDER[Sensitivity(s)] == s;
    }
  }

  /** Without ceilings: viewers see internal facts, engineers confidential ones, admins all. */
  lemma VisibleByRole()
    ensures Visible(Viewer, []) == {Public, Internal}
    ensures Visible(Engineer, []) == {Public, Internal, Confidential}
    ensures Visible(Admin, []) == {Public, Internal, Confidential, Restricted}
  {
  }

  /** A ceiling only narrows, and a higher role only widens, what is visible. */
  lemma VisibleMonotone(role: Role, other: Role, ceilings: seq<Option<PrivacyScope>>, extra: Option<PrivacyScope>)
    ensures Visible(role, ceilings + [extra]) <= Visible(role, ceilings)
    ensures Sensitivity(RoleMax(role)) <= Sensitivity(RoleMax(other)) ==>
            Visible(role, ceilings) <= Visible(other, ceilings)
  {
    forall s | s in Visible(role, ceilings + [extra]) ensures s in Visible(role, ceilings) {
      forall i | 0 <= i < |ceilings| && ceilings[i].Some? ensures Sensitivity(s) <= Sensitivity(ceilings[i].value) {
        assert (ceilings + [extra])[i] == ceilings[i];
      }
    }
  }

  // ----- the protocol -----

  datatype Filters = Filters(
    entityType: Option<string>, externalIds: seq<string>, properties: seq<string>, sourceIds: seq<Id>,
    minAuthority: Option<int>, minConfidence: Option<string>)

  /** Everything but the scopes and the generation that `key` covers; None is "now" or "latest". */
  datatype Query = Query(
    model: string, text: string, limit: nat, trustWeight: real, filters: Filters,
    validAt: Option<Instant>, knownAt: Option<Instant>)

  /** Hashing the sorted material keeps different questions apart. */
  datatype CacheKey = CacheKey(generation: nat, scopes: set<PrivacyScope>, query: Query)

  /** A result, by what it was computed from: the question, the scopes read and the first `asOf` writes. */
  datatype Found = Found(query: Query, scopes: set<PrivacyScope>, asOf: nat)

  type Ceilings = seq<Option<PrivacyScope>>

  /** A search in progress. `settled` are the writes whose invalidation was over when it read the generation. */
  datatype Search =
    | Authorized(query: Query, ceilings: Ceilings, scopes: set<PrivacyScope>)
    | Keyed(ceilings: Ceilings, key: CacheKey, settled: set<nat>)
    | Missed(ceilings: Ceilings, key: CacheKey, settled: set<nat>)
    | Computed(key: CacheKey, settled: set<nat>, found: Found)
    | Answered(key: CacheKey, settled: set<nat>, found: Found, hit: bool)

  /** Writes are numbered in commit order; `bumped` gives the generation each one's invalidation produced. */
  datatype State = State(
    writes: nat, generation: nat, bumped: map<nat, nat>, cache: map<CacheKey, Found>, searches: map<nat, Search>)

  const START := State(0, 0, map[], map[], map[])

  datatype Step =
    | CommitWrite
    | Invalidate(write: nat)                        // may never happen, or happen again
    | Authorize(reader: nat, query: Query, ceilings: Ceilings, role: Role)
    | ReadGeneration(reader: nat)
    | Lookup(reader: nat)
    | ReadDatabase(reader: nat, role: Role)         // the role is read again, in the same transaction
    | Return(reader: nat, store: bool)              // degraded answers are not stored
    | Expire(key: CacheKey)

  predicate Allowed(s: State, step: Step) {
    match step
    case CommitWrite => true
    case Invalidate(i) => i < s.writes
    case Authorize(r, _, _, _) => r !in s.searches
    case ReadGeneration(r) => r in s.searches && s.searches[r].Authorized?
    case Lookup(r) => r in s.searches && s.searches[r].Keyed?
    case ReadDatabase(r, _) => r in s.searches && s.searches[r].Missed?
    case Return(r, _) => r in s.searches && s.searches[r].Computed?
    case Expire(_) => true
  }

  function NextSearch(s: State, step: Step): Search
    requires Allowed(s, step)
             && (step.Authorize? || step.ReadGeneration? || step.Lookup? || step.ReadDatabase? || step.Return?)
  {
    match step
    case Authorize(_, q, ceilings, role) => Authorized(q, ceilings, Visible(role, ceilings))
    case ReadGeneration(r) =>
      var x := s.searches[r];
      Keyed(x.ceilings, CacheKey(s.generation, x.scopes, x.query), s.bumped.Keys)
    case Lookup(r) =>
      var x := s.searches[r];
      if x.key in s.cache
      then Answered(x.key, x.settled, s.cache[x.key], true)
      else Missed(x.ceilings, x.key, x.settled)
    case ReadDatabase(r, role) =>
      var x := s.searches[r];
      Computed(x.key, x.settled, Found(x.key.query, Visible(role, x.ceilings), s.writes))
    case Return(r, _) => Answered(s.searches[r].key, s.searches[r].settled, s.searches[r].found, false)
  }

  function Next(s: State, step: Step): State {
    if !Allowed(s, step) then s else
    match step
    case CommitWrite => s.(writes := s.writes + 1)
    case Invalidate(i) =>
      s.(generation := s.generation + 1, bumped := if i in s.bumped then s.bumped else s.bumped[i := s.generation + 1])
    case Expire(k) => s.(cache := s.cache - {k})
    case Return(r, store) =>
      var x := s.searches[r];
      s.(cache := if store then s.cache[x.key := x.found] else s.cache,
         searches := s.searches[r := NextSearch(s, step)])
    case _ => s.(searches := s.searches[step.reader := NextSearch(s, step)])
  }

  ghost function Run(steps: seq<Step>): State {
    if steps == [] then START else Next(Run(steps[..|steps| - 1]), steps[|steps| - 1])
  }

  // ----- freshness -----

  /** A result holds every write whose invalidation produced at most this generation. */
  ghost predicate Includes(s: State, generation: nat, asOf: nat) {
    forall i :: i in s.bumped && s.bumped[i] <= generation ==> i < asOf
  }

  ghost predicate EntryOk(s: State, k: CacheKey)
    requires k in s.cache
  {
    k.generation <= s.generation && s.cache[k].query == k.query && Includes(s, k.generation, s.cache[k].asOf)
  }

  ghost predicate SettledOk(s: State, key: CacheKey, settled: set<nat>) {
    key.generation <= s.generation && forall i :: i in settled ==> i in s.bumped && s.bumped[i] <= key.generation
  }

  ghost predicate SearchOk(s: State, x: Search) {
    match x
    case Authorized(_, _, _) => true
    case Keyed(_, key, settled) => SettledOk(s, key, settled)
    case Missed(_, key, settled) => SettledOk(s, key, settled)
    case Computed(key, settled, found) =>
      SettledOk(s, key, settled) && found.query == key.query && Includes(s, key.generation, found.asOf)
    case Answered(key, settled, found, _) => found.query == key.query && forall i :: i in settled ==> i < found.asOf
  }

  ghost predicate Inv(s: State) {
    && (forall i :: i in s.bumped ==> i < s.writes && s.bumped[i] <= s.generation)
    && (forall k :: k in s.cache ==> EntryOk(s, k))
    && (forall r :: r in s.searches ==> SearchOk(s, s.searches[r]))
  }

  lemma StepKeepsEntry(s: State, step: Step, k: CacheKey)
    requires Inv(s) && k in Next(s, step).cache
    ensures EntryOk(Next(s, step), k)
  {
  }

  /** A search that does not move is not disturbed: later invalidations produce later generations. */
  lemma WaitingSearchKept(s: State, step: Step, x: Search)
    requires Inv(s) && SearchOk(s, x)
    ensures SearchOk(Next(s, step), x)
  {
  }

  lemma MovedSearchOk(s: State, step: Step)
    requires Inv(s) && Allowed(s, step)
    requires step.Authorize? || step.ReadGeneration? || step.Lookup? || step.ReadDatabase? || step.Return?
    ensures SearchOk(s, NextSearch(s, step))
  {
    if !step.Authorize? {
      assert SearchOk(s, s.searches[step.reader]);
      if step.Lookup? && s.searches[step.reader].key in s.cache {
        assert EntryOk(s, s.searches[step.reader].key);
      }
    }
  }

  lemma StepKeepsSearch(s: State, step: Step, r: nat)
    requires Inv(s) && r in Next(s, step).searches
    ensures SearchOk(Next(s, step), Next(s, step).searches[r])
  {
    if r in s.searches && Next(s, step).searches[r] == s.searches[r] {
      WaitingSearchKept(s, step, s.searches[r]);
    } else {
      MovedSearchOk(s, step);
      WaitingSearchKept(s, step, NextSearch(s, step));
    }
  }

  lemma StepKeepsInv(s: State, step: Step)
    requires Inv(s)
    ensures Inv(Next(s, step))
  {
    forall k | k in Next(s, step).cache ensures EntryOk(Next(s, step), k) {
      StepKeepsEntry(s, step, k);
    }
    forall r | r in Next(s, step).searches ensures SearchOk(Next(s, step), Next(s, step).searches[r]) {
      StepKeepsSearch(s, step, r);
    }
  }

  lemma {:induction false} RunKeepsInv(steps: seq<Step>)
    ensures Inv(Run(steps))
  {
    if steps != [] {
      RunKeepsInv(steps[..|steps| - 1]);
      StepKeepsInv(Run(steps[..|steps| - 1]), steps[|steps| - 1]);
    }
  }

  /**
   Every answer, cached or not, is to the question asked and includes every write whose invalidation
   had finished when the search read the generation.
   */
  lemma AnswersAreFresh(steps: seq<Step>, r: nat)
    requires r in Run(steps).searches && Run(steps).searches[r].Answered?
    ensures var x := Run(steps).searches[r];
            x.found.query == x.key.query && forall i :: i in x.settled ==> i < x.found.asOf
  {
    RunKeepsInv(steps);
    assert SearchOk(Run(steps), Run(steps).searches[r]);
  }

  // ----- scopes -----

  /** Every second role read of the run showed the scopes the key was made of. */
  ghost predicate Steady(steps: seq<Step>) {
    steps == [] ||
    var init, step := steps[..|steps| - 1], steps[|steps| - 1];
    && Steady(init)
    && (step.ReadDatabase? && Allowed(Run(init), step) ==>
          Visible(step.role, Run(init).searches[step.reader].ceilings) == Run(init).searches[step.reader].key.scopes)
  }

  ghost predicate OwnScopes(s: State) {
    && (forall k :: k in s.cache ==> s.cache[k].scopes == k.scopes)
    && (forall r :: r in s.searches && (s.searches[r].Computed? || s.searches[r].Answered?) ==>
          s.searches[r].found.scopes == s.searches[r].key.scopes)
  }

  lemma SteadyStep(s: State, step: Step)
    requires OwnScopes(s)
    requires step.ReadDatabase? && Allowed(s, step) ==>
               Visible(step.role, s.searches[step.reader].ceilings) == s.searches[step.reader].key.scopes
    ensures OwnScopes(Next(s, step))
  {
  }

  /**
   While no visible scopes change between a search's two role reads, every answer is for the caller's
   own scopes.
   */
  lemma {:induction false} SteadyRunsKeepScopes(steps: seq<Step>)
    requires Steady(steps)
    ensures OwnScopes(Run(steps))
  {
    if steps != [] {
      SteadyRunsKeepScopes(steps[..|steps| - 1]);
      SteadyStep(Run(steps[..|steps| - 1]), steps[|steps| - 1]);
    }
  }

  lemma {:induction false} UnsteadyRunsLoseScopes(steps: seq<Step>)
    requires forall n :: 0 <= n <= |steps| ==> OwnScopes(Run(steps[..n]))
    ensures Steady(steps)
  {
    if steps != [] {
      var init, step := steps[..|steps| - 1], steps[|steps| - 1];
      forall n | 0 <= n <= |init| ensures OwnScopes(Run(init[..n])) {
        assert init[..n] == steps[..n];
      }
      UnsteadyRunsLoseScopes(init);
      assert steps[..|steps|] == steps;
      if step.ReadDatabase? && Allowed(Run(init), step) {
        assert Run(steps).searches[step.reader].Computed?;
      }
    }
  }

  /** Every answer of a run is for the scopes of its key exactly while no search's two role reads disagree. */
  lemma ScopesKeptIffSteady(steps: seq<Step>)
    ensures Steady(steps) <==> forall n :: 0 <= n <= |steps| ==> OwnScopes(Run(steps[..n]))
  {
    if Steady(steps) {
      forall n | 0 <= n <= |steps| ensures OwnScopes(Run(steps[..n])) {
        SteadyPrefix(steps, n);
        SteadyRunsKeepScopes(steps[..n]);
      }
    } else if forall n :: 0 <= n <= |steps| ==> OwnScopes(Run(steps[..n])) {
      UnsteadyRunsLoseScopes(steps);
    }
  }

  lemma {:induction false} SteadyPrefix(steps: seq<Step>, n: nat)
    requires Steady(steps) && n <= |steps|
    ensures Steady(steps[..n])
  {
    if n == |steps| {
      assert steps[..n] == steps;
    } else {
      SteadyPrefix(steps[..|steps| - 1], n);
      assert steps[..|steps| - 1][..n] == steps[..n];
    }
  }

  /** Step n read the database for this key with these scopes visible. */
  ghost predicate ReadAt(steps: seq<Step>, n: nat, key: CacheKey, scopes: set<PrivacyScope>) {
    && n < |steps| && steps[n].ReadDatabase? && Allowed(Run(steps[..n]), steps[n])
    && var x := Run(steps[..n]).searches[steps[n].reader];
       x.key == key && Visible(steps[n].role, x.ceilings) == scopes
  }

  ghost predicate WasRead(steps: seq<Step>, key: CacheKey, scopes: set<PrivacyScope>) {
    exists n: nat :: ReadAt(steps, n, key, scopes)
  }

  ghost predicate AllRead(steps: seq<Step>, s: State) {
    && (forall k :: k in s.cache ==> WasRead(steps, k, s.cache[k].scopes))
    && (forall r :: r in s.searches && (s.searches[r].Computed? || s.searches[r].Answered?) ==>
          WasRead(steps, s.searches[r].key, s.searches[r].found.scopes))
  }

  lemma WasReadLater(steps: seq<Step>, key: CacheKey, scopes: set<PrivacyScope>)
    requires steps != [] && WasRead(steps[..|steps| - 1], key, scopes)
    ensures WasRead(steps, key, scopes)
  {
    var init := steps[..|steps| - 1];
    var n: nat :| ReadAt(init, n, key, scopes);
    assert init[..n] == steps[..n];
    assert ReadAt(steps, n, key, scopes);
  }

  /**
   Whatever happened in between, every answer, hit or miss, carries the scopes that some read of the
   run saw for its key: so it is for the caller's scopes exactly if that read agreed with the key.
   */
  lemma {:induction false} AnswersComeFromReads(steps: seq<Step>)
    ensures AllRead(steps, Run(steps))
  {
    if steps != [] {
      var init, step := steps[..|steps| - 1], steps[|steps| - 1];
      AnswersComeFromReads(init);
      forall key, scopes | WasRead(init, key, scopes) ensures WasRead(steps, key, scopes) {
        WasReadLater(steps, key, scopes);
      }
      if step.ReadDatabase? && Allowed(Run(init), step) {
        var x := Run(init).searches[step.reader];
        assert ReadAt(steps, |init|, x.key, Visible(step.role, x.ceilings));
      }
    }
  }

  const SOME_QUERY := Query("m", "q", 10, 0.3, Filters(None, [], [], [], None, None), None, None)

  /** A viewer is promoted between the two role reads; the next viewer is shown restricted facts. */
  const PROMOTION: seq<Step> :=
    [Authorize(1, SOME_QUERY, [], Viewer), ReadGeneration(1), Lookup(1), ReadDatabase(1, Admin), Return(1, true),
     Authorize(2, SOME_QUERY, [], Viewer), ReadGeneration(2), Lookup(2)]

  lemma PromotionWidensTheCache()
    ensures var x := Run(PROMOTION).searches;
            && 2 in x && x[2].Answered? && x[2].hit
            && Restricted in x[2].found.scopes && Restricted !in Visible(Viewer, [])
  {
    PromotedResultIsStored();
    RunPrefix(PROMOTION, 5);
    RunPrefix(PROMOTION, 6);
    RunPrefix(PROMOTION, 7);
    assert PROMOTION[..8] == PROMOTION;
  }

  lemma PromotedResultIsStored()
    ensures var s := Run(PROMOTION[..5]);
            var key := CacheKey(0, Visible(Viewer, []), SOME_QUERY);
            s.generation == 0 && 2 !in s.searches && key in s.cache && s.cache[key].scopes == Visible(Admin, [])
  {
    RunPrefix(PROMOTION, 0);
    RunPrefix(PROMOTION, 1);
    RunPrefix(PROMOTION, 2);
    RunPrefix(PROMOTION, 3);
    RunPrefix(PROMOTION, 4);
  }

  lemma RunPrefix(steps: seq<Step>, n: nat)
    requires n < |steps|
    ensures Run(steps[..n + 1]) == Next(Run(steps[..n]), steps[n])
  {
    assert steps[..n + 1][..n] == steps[..n];
  }

  // ----- `RetrievalService._search` -----

  class RetrievalService {
    var state: State
    ghost var trace: seq<Step>

    ghost predicate Reached()
      reads this
    {
      state == Run(trace)
    }

    constructor ()
      ensures Reached() && state == START
    {
      state, trace := START, [];
    }

    method Do(step: Step)
      requires Reached()
      modifies this
      ensures Reached() && state == Next(old(state), step) && trace == old(trace) + [step]
    {
      assert (trace + [step])[..|trace|] == trace;
      state, trace := Next(state, step), trace + [step];
    }

    /**
     One search with nothing in between: the cached result if there is one, else a current one, stored
     unless degraded.
     */
    method SearchOnce(reader: nat, query: Query, ceilings: Ceilings, role: Role, roleAgain: Role, degraded: bool)
      returns (found: Found, hit: bool)
      requires Reached() && reader !in state.searches
      modifies this
      ensures Reached()
      ensures var key := CacheKey(old(state).generation, Visible(role, ceilings), query);
              && hit == (key in old(state).cache)
              && found == (if hit then old(state).cache[key]
                 else Found(query, Visible(roleAgain, ceilings), old(state).writes))
              && state.cache == if hit || degraded then old(state).cache else old(state).cache[key := found]
      ensures forall i :: i in old(state).bumped ==> i < found.asOf
    {
      Do(Authorize(reader, query, ceilings, role));
      Do(ReadGeneration(reader));
      Do(Lookup(reader));
      hit := state.searches[reader].Answered?;
      if !hit {
        Do(ReadDatabase(reader, roleAgain));
        Do(Return(reader, !degraded));
      }
      found := state.searches[reader].found;
      AnswersAreFresh(trace, reader);
    }
  }
}
