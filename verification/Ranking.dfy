/** Fusing the two candidate lists of a search into one ranking (`app/domain/retrieval.py`). */
module Ranking {
  import opened Common
  import opened Sorting

  /** A candidate of one branch: a cosine distance, or a full-text score. */
  datatype Hit = Hit(id: Id, score: real)

  datatype Candidate = Candidate(
    id: Id, vectorRank: Option<nat>, vectorDistance: Option<real>, textRank: Option<nat>, textScore: Option<real>,
    rrf: real, trust: real, score: real)

  // ----- ranking one branch -----

  /** The vector branch ranks small distances first, the text branch high scores; ties by id. */
  predicate Nearer(a: Hit, b: Hit) {
    a.score < b.score || (a.score == b.score && a.id <= b.id)
  }

  predicate Stronger(a: Hit, b: Hit) {
    a.score > b.score || (a.score == b.score && a.id <= b.id)
  }

  ghost predicate LinearOrder(le: (Hit, Hit) -> bool) {
    TotalPreorder(le) && forall x, y :: le(x, y) && le(y, x) ==> x == y
  }

  predicate HasId(hits: seq<Hit>, id: Id) {
    exists i :: 0 <= i < |hits| && hits[i].id == id
  }

  /** Each version's first hit. */
  function Unique(hits: seq<Hit>): seq<Hit> {
    if hits == [] then []
    else
      var u, h := Unique(hits[..|hits| - 1]), hits[|hits| - 1];
      if HasId(u, h.id) then u else u + [h]
  }

  function Ranked(hits: seq<Hit>, le: (Hit, Hit) -> bool): seq<Hit> {
    Unique(SortBy(hits, le))
  }

  ghost predicate DistinctIds(hits: seq<Hit>) {
    forall i, j :: 0 <= i < j < |hits| ==> hits[i].id != hits[j].id
  }

  /** Each version once, by its best hit, best versions first. */
  ghost predicate IsRanking(hits: seq<Hit>, u: seq<Hit>, le: (Hit, Hit) -> bool) {
    && DistinctIds(u) && SortedBy(u, le)
    && (forall h :: h in hits ==> HasId(u, h.id))
    && (forall h :: h in u ==> h in hits)
    && (forall h, g :: h in u && g in hits && g.id == h.id ==> le(h, g))
  }

  lemma {:induction false} UniqueOfSorted(hits: seq<Hit>, le: (Hit, Hit) -> bool)
    requires TotalPreorder(le) && SortedBy(hits, le)
    ensures IsRanking(hits, Unique(hits), le)
  {
    if hits != [] {
      var init, h := hits[..|hits| - 1], hits[|hits| - 1];
      var u := Unique(init);
      UniqueOfSorted(init, le);
      assert hits == init + [h];
      forall g | g in init ensures le(g, h) {
        var i :| 0 <= i < |init| && init[i] == g;
        assert hits[i] == g;
      }
      assert forall g :: g in u ==> le(g, h);
      if !HasId(u, h.id) {
        UniqueGrows(init, u, h, le);
      }
    }
  }

  lemma UniqueGrows(init: seq<Hit>, u: seq<Hit>, h: Hit, le: (Hit, Hit) -> bool)
    requires TotalPreorder(le) && IsRanking(init, u, le) && !HasId(u, h.id)
    requires forall g :: g in u ==> le(g, h)
    ensures IsRanking(init + [h], u + [h], le)
  {
    var v := u + [h];
    assert v[|u|].id == h.id;
    forall g | g in init + [h] ensures HasId(v, g.id) {
      if g in init {
        assert HasId(u, g.id);
        var i :| 0 <= i < |u| && u[i].id == g.id;
        assert v[i].id == g.id;
      }
    }
    assert forall g :: g in init ==> HasId(u, g.id) && g.id != h.id;
  }

  lemma RankedIsRanking(hits: seq<Hit>, le: (Hit, Hit) -> bool)
    requires TotalPreorder(le)
    ensures IsRanking(hits, Ranked(hits, le), le)
  {
    SortSorts(hits, le);
    SortKeepsElements(hits, le);
    SameElements(SortBy(hits, le), hits);
    UniqueOfSorted(SortBy(hits, le), le);
  }

  lemma RankingMembers(hits: seq<Hit>, u: seq<Hit>, v: seq<Hit>, le: (Hit, Hit) -> bool)
    requires LinearOrder(le) && IsRanking(hits, u, le) && IsRanking(hits, v, le)
    ensures forall h :: h in u ==> h in v
  {
  }

  /** A branch has one ranking, and it depends only on which hits there are. */
  lemma RankingUnique(hits: seq<Hit>, other: seq<Hit>, u: seq<Hit>, v: seq<Hit>, le: (Hit, Hit) -> bool)
    requires LinearOrder(le) && IsRanking(hits, u, le) && IsRanking(other, v, le)
    requires forall h :: h in hits <==> h in other
    ensures u == v
  {
    assert IsRanking(hits, v, le);
    RankingMembers(hits, u, v, le);
    RankingMembers(hits, v, u, le);
    DistinctSame(u, v);
    SortedUnique(u, v, le);
  }

  method Dedupe(hits: seq<Hit>) returns (unique: seq<Hit>)
    ensures unique == Unique(hits)
  {
    unique := [];
    var seen: set<Id> := {};
    for n := 0 to |hits|
      invariant unique == Unique(hits[..n])
      invariant forall id: Id :: id in seen <==> HasId(unique, id)
    {
      assert hits[..n + 1][..n] == hits[..n];
      if hits[n].id !in seen {
        HasIdGrows(unique, hits[n]);
        seen := seen + {hits[n].id};
        unique := unique + [hits[n]];
      }
    }
    assert hits[..|hits|] == hits;
  }

  lemma HasIdGrows(hits: seq<Hit>, h: Hit)
    ensures forall id: Id :: HasId(hits + [h], id) <==> HasId(hits, id) || id == h.id
  {
    forall id: Id ensures HasId(hits + [h], id) <==> HasId(hits, id) || id == h.id {
      if HasId(hits, id) {
        var i :| 0 <= i < |hits| && hits[i].id == id;
        assert (hits + [h])[i].id == id;
      }
      assert (hits + [h])[|hits|] == h;
    }
  }

  // ----- fusing -----

  /** A version's rank, counted from 1, and its hit. */
  function Find(u: seq<Hit>, id: Id): Option<(nat, Hit)> {
    if u == [] then None
    else if u[|u| - 1].id == id then Some((|u|, u[|u| - 1]))
    else Find(u[..|u| - 1], id)
  }

  lemma {:induction false} FindMeansRank(u: seq<Hit>, id: Id)
    ensures Find(u, id).Some? <==> HasId(u, id)
    ensures Find(u, id).Some? ==>
              var (rank, hit) := Find(u, id).value;
              1 <= rank <= |u| && u[rank - 1] == hit && hit.id == id
  {
    if u != [] {
      FindMeansRank(u[..|u| - 1], id);
      HasIdGrows(u[..|u| - 1], u[|u| - 1]);
      assert u == u[..|u| - 1] + [u[|u| - 1]];
    }
  }

  function Reciprocal(k: nat, found: Option<(nat, Hit)>): real
    requires k >= 1
  {
    if found.None? then 0.0 else 1.0 / (k + found.value.0) as real
  }

  function TrustOf(trust: map<Id, real>, id: Id): real {
    if id in trust then trust[id] else 0.0
  }

  function Weighted(rrf: real, weight: real, trust: real): real {
    rrf * ((1.0 - weight) + weight * trust)
  }

  /** One version's line of the result, from the two branch rankings. */
  function CandidateOf(
    vectors: seq<Hit>, texts: seq<Hit>, trust: map<Id, real>, weight: real, k: nat, id: Id): Candidate
    requires k >= 1
  {
    var v, t := Find(vectors, id), Find(texts, id);
    var rrf := Reciprocal(k, v) + Reciprocal(k, t);
    Candidate(
      id,
      if v.Some? then Some(v.value.0) else None, if v.Some? then Some(v.value.1.score) else None,
      if t.Some? then Some(t.value.0) else None, if t.Some? then Some(t.value.1.score) else None,
      rrf, TrustOf(trust, id), Weighted(rrf, weight, TrustOf(trust, id)))
  }

  predicate Before(a: Candidate, b: Candidate) {
    a.score > b.score || (a.score == b.score && a.id <= b.id)
  }

  /** Best score first, ties by id, nothing twice. */
  ghost predicate StrictlyOrdered(r: seq<Candidate>) {
    forall i, j :: 0 <= i < j < |r| ==> Before(r[i], r[j]) && r[i].id != r[j].id
  }

  predicate Lists(r: seq<Candidate>, id: Id) {
    exists i :: 0 <= i < |r| && r[i].id == id
  }

  /** What the result must be: every version some branch found, with its line, in strict order. */
  ghost predicate IsFused(
    vectorHits: seq<Hit>, textHits: seq<Hit>, trust: map<Id, real>, weight: real, k: nat, r: seq<Candidate>)
    requires k >= 1
  {
    && StrictlyOrdered(r)
    && (forall id: Id :: Lists(r, id) <==> HasId(vectorHits, id) || HasId(textHits, id))
    && (forall i :: 0 <= i < |r| ==>
          r[i] == CandidateOf(Ranked(vectorHits, Nearer), Ranked(textHits, Stronger), trust, weight, k, r[i].id))
  }

  lemma FusedMembers(
    a: seq<Candidate>, b: seq<Candidate>, v: seq<Hit>, t: seq<Hit>, trust: map<Id, real>, weight: real, k: nat)
    requires k >= 1
    requires forall id: Id :: Lists(a, id) ==> Lists(b, id)
    requires forall i :: 0 <= i < |a| ==> a[i] == CandidateOf(v, t, trust, weight, k, a[i].id)
    requires forall i :: 0 <= i < |b| ==> b[i] == CandidateOf(v, t, trust, weight, k, b[i].id)
    ensures forall c :: c in a ==> c in b
  {
    forall c | c in a ensures c in b {
      var i :| 0 <= i < |a| && a[i] == c;
      assert Lists(a, c.id);
      var j :| 0 <= j < |b| && b[j].id == c.id;
      assert b[j] == CandidateOf(v, t, trust, weight, k, c.id);
    }
  }

  lemma SameBranch(hits: seq<Hit>, other: seq<Hit>, le: (Hit, Hit) -> bool)
    requires LinearOrder(le) && forall h :: h in hits <==> h in other
    ensures Ranked(hits, le) == Ranked(other, le)
    ensures forall id: Id :: HasId(hits, id) ==> HasId(other, id)
  {
    RankedIsRanking(hits, le);
    RankedIsRanking(other, le);
    RankingUnique(hits, other, Ranked(hits, le), Ranked(other, le), le);
    forall id: Id | HasId(hits, id) ensures HasId(other, id) {
      var i :| 0 <= i < |hits| && hits[i].id == id;
      assert hits[i] in other;
      var j :| 0 <= j < |other| && other[j] == hits[i];
    }
  }

  /**
   The result depends only on which hits each branch gave: not on their order or repeats, nor on how
   sets are iterated.
   */
  lemma FusedUnique(
    vectorHits: seq<Hit>, textHits: seq<Hit>, vectorHits': seq<Hit>, textHits': seq<Hit>,
    trust: map<Id, real>, weight: real, k: nat, r: seq<Candidate>, r': seq<Candidate>)
    requires k >= 1
    requires forall h :: h in vectorHits <==> h in vectorHits'
    requires forall h :: h in textHits <==> h in textHits'
    requires IsFused(vectorHits, textHits, trust, weight, k, r) && IsFused(vectorHits', textHits', trust, weight, k, r')
    ensures r == r'
  {
    SameBranch(vectorHits, vectorHits', Nearer);
    SameBranch(vectorHits', vectorHits, Nearer);
    SameBranch(textHits, textHits', Stronger);
    SameBranch(textHits', textHits, Stronger);
    var v, t := Ranked(vectorHits, Nearer), Ranked(textHits, Stronger);
    FusedMembers(r, r', v, t, trust, weight, k);
    FusedMembers(r', r, v, t, trust, weight, k);
    DistinctSame(r, r');
    SortedUnique(r, r', Before);
  }

  method RankMap(u: seq<Hit>) returns (ranks: map<Id, (nat, Hit)>)
    ensures forall id: Id :: (id in ranks <==> Find(u, id).Some?) && (id in ranks ==> ranks[id] == Find(u, id).value)
  {
    ranks := map[];
    for n := 0 to |u|
      invariant forall id: Id ::
                (id in ranks <==> Find(u[..n], id).Some?) && (id in ranks ==> ranks[id] == Find(u[..n], id).value)
    {
      assert u[..n + 1][..n] == u[..n];
      ranks := ranks[u[n].id := (n + 1, u[n])];
    }
    assert u[..|u|] == u;
  }

  ghost predicate DistinctCandidates(r: seq<Candidate>) {
    forall i, j :: 0 <= i < j < |r| ==> r[i].id != r[j].id
  }

  lemma SortedCandidates(ranked: seq<Candidate>)
    requires DistinctCandidates(ranked)
    ensures StrictlyOrdered(SortBy(ranked, Before))
    ensures forall c :: c in SortBy(ranked, Before) <==> c in ranked
  {
    var r := SortBy(ranked, Before);
    SortSorts(ranked, Before);
    SortKeepsElements(ranked, Before);
    SameElements(r, ranked);
    RearrangedDistinct(ranked, r);
    forall i, j | 0 <= i < j < |r| ensures r[i].id != r[j].id {
      assert r[i] in ranked && r[j] in ranked;
    }
  }

  function Ids(u: seq<Hit>): set<Id> {
    set i | 0 <= i < |u| :: u[i].id
  }

  lemma RankedIds(hits: seq<Hit>, le: (Hit, Hit) -> bool)
    requires TotalPreorder(le)
    ensures forall id: Id :: id in Ids(Ranked(hits, le)) <==> HasId(hits, id)
  {
    var u := Ranked(hits, le);
    RankedIsRanking(hits, le);
    forall id: Id ensures id in Ids(u) <==> HasId(hits, id) {
      if i :| 0 <= i < |hits| && hits[i].id == id {
        assert HasId(u, hits[i].id);
      }
      if i :| 0 <= i < |u| && u[i].id == id {
        assert u[i] in hits;
      }
    }
  }

  /** The candidates of a set of versions, in any order. */
  ghost predicate CandidatesOf(
    v: seq<Hit>, t: seq<Hit>, trust: map<Id, real>, weight: real, k: nat, ids: set<Id>, ranked: seq<Candidate>)
    requires k >= 1
  {
    && DistinctCandidates(ranked)
    && (forall id: Id :: Lists(ranked, id) <==> id in ids)
    && (forall i :: 0 <= i < |ranked| ==> ranked[i] == CandidateOf(v, t, trust, weight, k, ranked[i].id))
  }

  lemma OneMoreCandidate(
    v: seq<Hit>, t: seq<Hit>, trust: map<Id, real>, weight: real, k: nat, ids: set<Id>, ranked: seq<Candidate>, id: Id)
    requires k >= 1 && id !in ids && CandidatesOf(v, t, trust, weight, k, ids, ranked)
    ensures CandidatesOf(v, t, trust, weight, k, ids + {id}, ranked + [CandidateOf(v, t, trust, weight, k, id)])
  {
    var more := ranked + [CandidateOf(v, t, trust, weight, k, id)];
    assert !Lists(ranked, id);
    forall x: Id ensures Lists(more, x) <==> x in ids + {id} {
      if Lists(ranked, x) {
        var i :| 0 <= i < |ranked| && ranked[i].id == x;
        assert more[i].id == x;
      }
      assert more[|ranked|].id == id;
    }
  }

  /** Walk the versions in whatever order the set yields them, and sort. */
  method ScoreAll(v: seq<Hit>, t: seq<Hit>, trust: map<Id, real>, weight: real, k: nat, ids: set<Id>)
    returns (r: seq<Candidate>)
    requires k >= 1
    ensures StrictlyOrdered(r)
    ensures forall id: Id :: Lists(r, id) <==> id in ids
    ensures forall i :: 0 <= i < |r| ==> r[i] == CandidateOf(v, t, trust, weight, k, r[i].id)
  {
    var vectorRank := RankMap(v);
    var textRank := RankMap(t);
    var ranked: seq<Candidate> := [];
    var todo := ids;
    while todo != {}
      invariant todo <= ids && CandidatesOf(v, t, trust, weight, k, ids - todo, ranked)
      decreases todo
    {
      var id: Id :| id in todo;
      OneMoreCandidate(v, t, trust, weight, k, ids - todo, ranked, id);
      assert ids - todo + {id} == ids - (todo - {id});
      todo := todo - {id};
      var x := if id in vectorRank then Some(vectorRank[id]) else None;
      var y := if id in textRank then Some(textRank[id]) else None;
      var rrf := Reciprocal(k, x) + Reciprocal(k, y);
      ranked := ranked +
        [Candidate(
           id,
           if x.Some? then Some(x.value.0) else None, if x.Some? then Some(x.value.1.score) else None,
           if y.Some? then Some(y.value.0) else None, if y.Some? then Some(y.value.1.score) else None,
           rrf, TrustOf(trust, id), Weighted(rrf, weight, TrustOf(trust, id)))];
    }
    assert ids - todo == ids;
    SortedCandidates(ranked);
    r := SortBy(ranked, Before);
    SameLists(r, ranked);
    forall i | 0 <= i < |r| ensures r[i] == CandidateOf(v, t, trust, weight, k, r[i].id) {
      assert r[i] in ranked;
    }
  }

  lemma SameLists(a: seq<Candidate>, b: seq<Candidate>)
    requires forall c :: c in a <==> c in b
    ensures forall id: Id :: Lists(a, id) <==> Lists(b, id)
  {
    forall id: Id ensures Lists(a, id) <==> Lists(b, id) {
      if i :| 0 <= i < |a| && a[i].id == id {
        assert a[i] in b;
      }
      if i :| 0 <= i < |b| && b[i].id == id {
        assert b[i] in a;
      }
    }
  }

  method Fuse(vectorHits: seq<Hit>, textHits: seq<Hit>, trust: map<Id, real>, weight: real, k: int)
    returns (r: Result<seq<Candidate>>)
    ensures r.Ok? <==> 0.0 <= weight <= 1.0 && k >= 1
    ensures r.Err? ==> r.error == ValidationFailed
    ensures r.Ok? ==> IsFused(vectorHits, textHits, trust, weight, k, r.value)
  {
    if !(0.0 <= weight <= 1.0) || k < 1 {
      return Err(ValidationFailed);
    }
    var vectors := Dedupe(SortBy(vectorHits, Nearer));
    var texts := Dedupe(SortBy(textHits, Stronger));
    RankedIds(vectorHits, Nearer);
    RankedIds(textHits, Stronger);
    var ranked := ScoreAll(vectors, texts, trust, weight, k, Ids(vectors) + Ids(texts));
    r := Ok(ranked);
  }

  // ----- scores -----

  lemma ReciprocalBound(k: nat, found: Option<(nat, Hit)>)
    requires k >= 1 && (found.Some? ==> found.value.0 >= 1)
    ensures 0.0 <= Reciprocal(k, found) <= 1.0 / (k + 1) as real
    ensures found.Some? ==> Reciprocal(k, found) > 0.0
  {
  }

  lemma Fraction(a: real, c: real)
    requires 0.0 <= a <= 1.0 && c >= 0.0
    ensures 0.0 <= a * c <= c && 0.0 <= c * a <= c
  {
  }

  lemma WeightedBounds(rrf: real, weight: real, trust: real)
    requires 0.0 <= rrf && 0.0 <= weight <= 1.0 && 0.0 <= trust <= 1.0
    ensures 0.0 <= Weighted(rrf, weight, trust) <= rrf
  {
    Fraction(trust, weight);
    Fraction((1.0 - weight) + weight * trust, rrf);
  }

  lemma WeightedMonotone(rrf: real, weight: real, trust: real, more: real)
    requires 0.0 <= rrf && 0.0 <= weight && trust <= more
    ensures Weighted(rrf, weight, trust) <= Weighted(rrf, weight, more)
  {
  }

  lemma RrfBounds(v: seq<Hit>, t: seq<Hit>, trust: map<Id, real>, weight: real, k: nat, id: Id)
    requires k >= 1
    ensures 0.0 <= CandidateOf(v, t, trust, weight, k, id).rrf <= 2.0 / (k + 1) as real
  {
    FindMeansRank(v, id);
    FindMeansRank(t, id);
    ReciprocalBound(k, Find(v, id));
    ReciprocalBound(k, Find(t, id));
    TwoHalves((k + 1) as real);
  }

  lemma TwoHalves(x: real)
    requires x > 0.0
    ensures 1.0 / x + 1.0 / x == 2.0 / x
  {
  }

  /** With weight and trust in [0, 1], trust only ever lowers a score, and no score is negative. */
  lemma ScoreBounds(v: seq<Hit>, t: seq<Hit>, trust: map<Id, real>, weight: real, k: nat, id: Id)
    requires k >= 1 && 0.0 <= weight <= 1.0 && 0.0 <= TrustOf(trust, id) <= 1.0
    ensures var c := CandidateOf(v, t, trust, weight, k, id);
            0.0 <= c.score <= c.rrf <= 2.0 / (k + 1) as real
  {
    RrfBounds(v, t, trust, weight, k, id);
    WeightedBounds(CandidateOf(v, t, trust, weight, k, id).rrf, weight, TrustOf(trust, id));
  }

  /** More trust never lowers the score. */
  lemma TrustRaisesScore(v: seq<Hit>, t: seq<Hit>, trust: map<Id, real>, id: Id, more: real, weight: real, k: nat)
    requires k >= 1 && 0.0 <= weight && TrustOf(trust, id) <= more
    ensures CandidateOf(v, t, trust, weight, k, id).score <= CandidateOf(v, t, trust[id := more], weight, k, id).score
    ensures forall x: Id :: x != id ==>
            CandidateOf(v, t, trust, weight, k, x) == CandidateOf(v, t, trust[id := more], weight, k, x)
  {
    RrfBounds(v, t, trust, weight, k, id);
    WeightedMonotone(CandidateOf(v, t, trust, weight, k, id).rrf, weight, TrustOf(trust, id), more);
  }

  ghost function IdsUpTo(r: seq<Candidate>, n: nat): set<Id>
    requires n <= |r|
  {
    set i | 0 <= i < n :: r[i].id
  }

  lemma {:induction false} IdsUpToSize(r: seq<Candidate>, n: nat)
    requires n <= |r| && StrictlyOrdered(r)
    ensures |IdsUpTo(r, n)| == n
  {
    if n > 0 {
      IdsUpToSize(r, n - 1);
      assert IdsUpTo(r, n) == IdsUpTo(r, n - 1) + {r[n - 1].id};
    }
  }

  /** A candidate ahead of `id` after the raise was ahead of it before. */
  lemma AheadBefore(
    vectorHits: seq<Hit>, textHits: seq<Hit>, trust: map<Id, real>, id: Id, more: real, weight: real, k: nat,
    r: seq<Candidate>, r': seq<Candidate>, i: nat, j: nat, n: nat)
    requires k >= 1 && 0.0 <= weight && TrustOf(trust, id) <= more
    requires IsFused(vectorHits, textHits, trust, weight, k, r)
    requires IsFused(vectorHits, textHits, trust[id := more], weight, k, r')
    requires i < |r| && j < |r'| && r[i].id == id == r'[j].id && n < j
    ensures r'[n].id in IdsUpTo(r, i)
  {
    var v, t := Ranked(vectorHits, Nearer), Ranked(textHits, Stronger);
    TrustRaisesScore(v, t, trust, id, more, weight, k);
    assert Lists(r', r'[n].id);
    assert Lists(r, r'[n].id);
    var m :| 0 <= m < |r| && r[m].id == r'[n].id;
    assert Before(r'[n], r'[j]) && r'[n].id != id;
    assert r[m] == r'[n];
    assert m != i;
    assert Before(r[m], r[i]) && r[m].id != r[i].id;
  }

  /** Raising one version's trust never moves it down. */
  lemma RaisingTrustNeverDemotes(
    vectorHits: seq<Hit>, textHits: seq<Hit>, trust: map<Id, real>, id: Id, more: real, weight: real, k: nat,
    r: seq<Candidate>, r': seq<Candidate>, i: nat, j: nat)
    requires k >= 1 && 0.0 <= weight && TrustOf(trust, id) <= more
    requires IsFused(vectorHits, textHits, trust, weight, k, r)
    requires IsFused(vectorHits, textHits, trust[id := more], weight, k, r')
    requires i < |r| && j < |r'| && r[i].id == id == r'[j].id
    ensures j <= i
  {
    forall x | x in IdsUpTo(r', j) ensures x in IdsUpTo(r, i) {
      var n: nat :| n < j && r'[n].id == x;
      AheadBefore(vectorHits, textHits, trust, id, more, weight, k, r, r', i, j, n);
    }
    IdsUpToSize(r', j);
    IdsUpToSize(r, i);
    SubsetSize(IdsUpTo(r', j), IdsUpTo(r, i));
  }

  // ----- what the numbers mean -----

  /** Vector hits rank by distance, smallest first; text hits by score, highest first; ties by id. */
  lemma BranchOrders(hits: seq<Hit>, i: nat, j: nat)
    ensures var u := Ranked(hits, Nearer);
            i < j < |u| ==> u[i].score < u[j].score || (u[i].score == u[j].score && u[i].id < u[j].id)
    ensures var u := Ranked(hits, Stronger);
            i < j < |u| ==> u[i].score > u[j].score || (u[i].score == u[j].score && u[i].id < u[j].id)
  {
    RankedIsRanking(hits, Nearer);
    RankedIsRanking(hits, Stronger);
    var u, w := Ranked(hits, Nearer), Ranked(hits, Stronger);
    assert i < j < |u| ==> Nearer(u[i], u[j]) && u[i].id != u[j].id;
    assert i < j < |w| ==> Stronger(w[i], w[j]) && w[i].id != w[j].id;
  }

  /** A branch contributes the reciprocal of k plus the rank, and nothing if it did not find the version. */
  lemma ReciprocalIs(k: nat, found: Option<(nat, Hit)>)
    requires k >= 1
    ensures found.None? ==> Reciprocal(k, found) == 0.0
    ensures found.Some? ==> Reciprocal(k, found) * (k + found.value.0) as real == 1.0
  {
  }

  lemma ReciprocalFalls(k: nat, better: (nat, Hit), worse: (nat, Hit))
    requires k >= 1 && better.0 < worse.0
    ensures Reciprocal(k, Some(better)) > Reciprocal(k, Some(worse))
  {
    LargerDivisor((k + better.0) as real, (k + worse.0) as real);
  }

  lemma LargerDivisor(x: real, y: real)
    requires 0.0 < x < y
    ensures 1.0 / x > 1.0 / y
  {
    assert 1.0 / x * x == 1.0 && 1.0 / y * y == 1.0;
  }

  /** A rank and a number, present exactly if the branch has a hit: its place in the ranking, and its own. */
  ghost predicate AtRank(u: seq<Hit>, id: Id, rank: Option<nat>, number: Option<real>) {
    && (rank.Some? <==> HasId(u, id)) && (number.Some? <==> HasId(u, id))
    && (rank.Some? && number.Some? ==> 1 <= rank.value <= |u| && u[rank.value - 1] == Hit(id, number.value))
  }

  lemma CandidateMeans(v: seq<Hit>, t: seq<Hit>, trust: map<Id, real>, weight: real, k: nat, id: Id)
    requires k >= 1
    ensures var c := CandidateOf(v, t, trust, weight, k, id);
            && c.id == id && c.trust == (if id in trust then trust[id] else 0.0)
            && AtRank(v, id, c.vectorRank, c.vectorDistance) && AtRank(t, id, c.textRank, c.textScore)
  {
    FindMeansRank(v, id);
    FindMeansRank(t, id);
  }

  /** Found by one branch only, a version's rrf is the reciprocal of k plus its rank there. */
  lemma RrfOfOneBranch(v: seq<Hit>, t: seq<Hit>, trust: map<Id, real>, weight: real, k: nat, id: Id)
    requires k >= 1
    ensures var c := CandidateOf(v, t, trust, weight, k, id);
            && (c.vectorRank.Some? && c.textRank.None? ==> c.rrf * (k + c.vectorRank.value) as real == 1.0)
            && (c.textRank.Some? && c.vectorRank.None? ==> c.rrf * (k + c.textRank.value) as real == 1.0)
  {
    ReciprocalIs(k, Find(v, id));
    ReciprocalIs(k, Find(t, id));
  }

  /** A line of the result, by its branches' rankings; lines come with the best score first, ties by id. */
  lemma LineMeans(
    vectorHits: seq<Hit>, textHits: seq<Hit>, trust: map<Id, real>, weight: real, k: nat, r: seq<Candidate>, i: nat)
    requires k >= 1 && IsFused(vectorHits, textHits, trust, weight, k, r) && i < |r|
    ensures r[i].trust == (if r[i].id in trust then trust[r[i].id] else 0.0)
    ensures AtRank(Ranked(vectorHits, Nearer), r[i].id, r[i].vectorRank, r[i].vectorDistance)
    ensures AtRank(Ranked(textHits, Stronger), r[i].id, r[i].textRank, r[i].textScore)
    ensures forall j :: i < j < |r| ==> r[i].score > r[j].score || (r[i].score == r[j].score && r[i].id < r[j].id)
  {
    CandidateMeans(Ranked(vectorHits, Nearer), Ranked(textHits, Stronger), trust, weight, k, r[i].id);
    assert forall j :: i < j < |r| ==> Before(r[i], r[j]) && r[i].id != r[j].id;
  }

  /** Where a version stands in a list decides: a better rank in one branch, all else equal, scores strictly higher. */
  lemma BetterRankScoresHigher(
    v: seq<Hit>, t: seq<Hit>, trust: map<Id, real>, weight: real, k: nat, a: Id, b: Id)
    requires k >= 1 && Find(v, a).Some? && Find(v, b).Some? && Find(v, a).value.0 < Find(v, b).value.0
    requires Reciprocal(k, Find(t, a)) == Reciprocal(k, Find(t, b))
    ensures CandidateOf(v, t, trust, weight, k, a).rrf > CandidateOf(v, t, trust, weight, k, b).rrf
    ensures CandidateOf(t, v, trust, weight, k, a).rrf > CandidateOf(t, v, trust, weight, k, b).rrf
  {
    ReciprocalFalls(k, Find(v, a).value, Find(v, b).value);
  }

  /** Weight 0 is pure relevance, weight 1 makes an untrusted fact score 0, and full trust costs nothing. */
  lemma WeightExtremes(v: seq<Hit>, t: seq<Hit>, trust: map<Id, real>, weight: real, k: nat, id: Id)
    requires k >= 1
    ensures var c := CandidateOf(v, t, trust, weight, k, id);
            && (weight == 0.0 ==> c.score == c.rrf)
            && (weight == 1.0 && c.trust == 0.0 ==> c.score == 0.0)
            && (c.trust == 1.0 ==> c.score == c.rrf)
  {
    var rrf := CandidateOf(v, t, trust, weight, k, id).rrf;
    WeightedExtremes(rrf, weight);
    WeightedNone(rrf, TrustOf(trust, id));
  }

  lemma WeightedExtremes(rrf: real, weight: real)
    ensures Weighted(rrf, weight, 1.0) == rrf && Weighted(rrf, 1.0, 0.0) == 0.0
  {
    assert (1.0 - weight) + weight * 1.0 == 1.0;
  }

  lemma WeightedNone(rrf: real, trust: real)
    ensures Weighted(rrf, 0.0, trust) == rrf
  {
    assert (1.0 - 0.0) + 0.0 * trust == 1.0;
  }

  function TrustScore(authority: int, confidence: real): real {
    authority as real / 100.0 * confidence
  }

  /** Trust is authority in hundredths of the confidence: in [0, 1] for authority 0..100 and confidence 0..1. */
  lemma TrustScoreBounds(authority: int, confidence: real)
    ensures 100.0 * TrustScore(authority, confidence) == authority as real * confidence
    ensures 0 <= authority <= 100 && 0.0 <= confidence <= 1.0 ==> 0.0 <= TrustScore(authority, confidence) <= 1.0
  {
    var share := authority as real / 100.0;
    assert 100.0 * share == authority as real;
    Rescale(share, confidence);
    if 0 <= authority <= 100 && 0.0 <= confidence <= 1.0 {
      Fraction(share, confidence);
    }
  }

  lemma Rescale(share: real, confidence: real)
    ensures 100.0 * (share * confidence) == (100.0 * share) * confidence
  {
  }
}
