/**
  NeuralSparseTwoPhaseUtil, the query-phase side of the two-phase rewrite: it walks a
  Lucene query, points every reachable NeuralSparseQuery at its high-token part, records
  its low-token query with the accumulated boost, and turns the records into a rescore
  query.
 */
module TwoPhaseUtil {
  import opened SparseQuery

  /** The window used when the cluster setting is outside [0, MaxWindowSize]. */
  const DefaultWindowSize: int := 50
  const MaxWindowSize: int := 3000
  /** A QueryRescoreContext's query weights before anything sets them. */
  const DefaultQueryWeight: real := 1.0

  /** One NeuralSparseQuery reached by the walk, with the weight accumulated on the way. */
  datatype Visit = Visit(node: NeuralSparseQuery, weight: real)

  /** `weight *= boostQuery.getBoost()`: the weight under a boost query. */
  function Boosted(weight: real, boost: real): real
  {
    weight * boost
  }

  /**
    The NeuralSparseQuery nodes populateQueryWeightsMap reaches from `q`, in order: boost
    queries multiply the weight, boolean queries descend into their scoring (MUST and
    SHOULD) clauses, and any other query is not entered.
   */
  function Visits(q: Query, weight: real): seq<Visit>
    decreases q, 1
  {
    match q
    case BoostQuery(inner, boost) => Visits(inner, Boosted(weight, boost))
    case BooleanQuery(clauses) => VisitsOfClauses(clauses, weight)
    case Sparse(node) => [Visit(node, weight)]
    case MatchNoDocs => []
    case Leaf(_) => []
  }

  function VisitsOfClauses(cs: seq<BooleanClause>, weight: real): seq<Visit>
    decreases cs, 0
  {
    if cs == [] then []
    else
      var last := cs[|cs| - 1];
      assert last in cs && last.query < last;
      VisitsOfClauses(cs[..|cs| - 1], weight) + (if IsScoring(last) then Visits(last.query, weight) else [])
  }

  /** The nodes the walk reaches, whatever the starting weight. */
  ghost function Reached(q: Query): set<NeuralSparseQuery>
    decreases q, 1
  {
    match q
    case BoostQuery(inner, _) => Reached(inner)
    case BooleanQuery(clauses) => ReachedOfClauses(clauses)
    case Sparse(node) => {node}
    case MatchNoDocs => {}
    case Leaf(_) => {}
  }

  ghost function ReachedOfClauses(cs: seq<BooleanClause>): set<NeuralSparseQuery>
    decreases cs, 0
  {
    if cs == [] then {}
    else
      var last := cs[|cs| - 1];
      assert last in cs && last.query < last;
      ReachedOfClauses(cs[..|cs| - 1]) + (if IsScoring(last) then Reached(last.query) else {})
  }

  /** query2Weight.put for every visit in turn: a later put of the same low-token query overwrites. */
  function PutAll(m: map<Query, real>, vs: seq<Visit>): map<Query, real>
  {
    if vs == [] then m
    else PutAll(m, vs[..|vs| - 1])[vs[|vs| - 1].node.lowScoreTokenQuery := vs[|vs| - 1].weight]
  }

  /** The map populateQueryWeightsMap builds from `q`, starting empty with weight 1. */
  function QueryWeights(q: Query): map<Query, real>
  {
    PutAll(map[], Visits(q, 1.0))
  }

  lemma ReachedOfPrefix(cs: seq<BooleanClause>, i: nat)
    requires i <= |cs|
    ensures ReachedOfClauses(cs[..i]) <= ReachedOfClauses(cs)
    decreases |cs| - i
  {
    if i < |cs| {
      ReachedOfPrefix(cs, i + 1);
      assert cs[..i + 1][..i] == cs[..i];
    } else {
      assert cs[..i] == cs;
    }
  }

  /** The nodes reached from an allocated query are allocated. */
  lemma ReachedAllocated(q: Query)
    ensures forall n :: n in Reached(q) ==> allocated(n)
    decreases q, 1
  {
    if q.BoostQuery? {
      ReachedAllocated(q.query);
    } else if q.BooleanQuery? {
      ReachedOfClausesAllocated(q.clauses);
    }
  }

  lemma ReachedOfClausesAllocated(cs: seq<BooleanClause>)
    ensures forall n :: n in ReachedOfClauses(cs) ==> allocated(n)
    decreases cs, 0
  {
    if cs != [] {
      var last := cs[|cs| - 1];
      assert last in cs && last.query < last;
      ReachedOfClausesAllocated(cs[..|cs| - 1]);
      ReachedAllocated(last.query);
    }
  }

  /**
    populateQueryWeightsMap. The map the source fills in place is threaded through as a
    value; every reached node has its low-token part extracted.
   */
  method PopulateQueryWeightsMap(query: Query, query2Weight: map<Query, real>, weight: real) returns (m: map<Query, real>)
    modifies Reached(query)
    ensures m == PutAll(query2Weight, Visits(query, weight))
    ensures forall n :: n in Reached(query) ==> n.currentQuery == n.highScoreTokenQuery
    decreases query
  {
    if query.BoostQuery? {
      m := PopulateQueryWeightsMap(query.query, query2Weight, Boosted(weight, query.boost));
    } else if query.BooleanQuery? {
      var clauses := query.clauses;
      ReachedOfClausesAllocated(clauses);
      m := query2Weight;
      for i := 0 to |clauses|
        invariant m == PutAll(query2Weight, VisitsOfClauses(clauses[..i], weight))
        invariant forall n :: n in ReachedOfClauses(clauses[..i]) ==> n.currentQuery == n.highScoreTokenQuery
      {
        assert clauses[..i + 1][..i] == clauses[..i];
        ReachedOfPrefix(clauses, i + 1);
        assert ReachedOfClauses(clauses[..i + 1]) == ReachedOfClauses(clauses[..i])
          + (if IsScoring(clauses[i]) then Reached(clauses[i].query) else {});
        assert VisitsOfClauses(clauses[..i + 1], weight) == VisitsOfClauses(clauses[..i], weight)
          + (if IsScoring(clauses[i]) then Visits(clauses[i].query, weight) else []);
        if IsScoring(clauses[i]) {
          ghost var before := VisitsOfClauses(clauses[..i], weight);
          ghost var sub := Visits(clauses[i].query, weight);
          ghost var m0 := m;
          m := PopulateQueryWeightsMap(clauses[i].query, m, weight);
          PutAllAppend(query2Weight, before, sub);
        } else {
          assert VisitsOfClauses(clauses[..i], weight) + [] == VisitsOfClauses(clauses[..i], weight);
        }
      }
      assert clauses[..|clauses|] == clauses;
      assert Visits(query, weight) == VisitsOfClauses(clauses, weight);
    } else if query.Sparse? {
      m := query2Weight[query.nsq.lowScoreTokenQuery := weight];
      query.nsq.ExtractLowScoreToken();
    } else {
      m := query2Weight;
    }
  }

  /** Putting two runs of visits is putting the first run, then the second. */
  lemma {:induction false} PutAllAppend(m: map<Query, real>, a: seq<Visit>, b: seq<Visit>)
    ensures PutAll(m, a + b) == PutAll(PutAll(m, a), b)
    decreases |b|
  {
    if b == [] {
      assert a + b == a;
    } else {
      var b' := b[..|b| - 1];
      assert (a + b)[..|a + b| - 1] == a + b';
      PutAllAppend(m, a, b');
    }
  }

  /** A key's value is the weight of the last visit whose low-token query is that key. */
  lemma {:induction false} PutAllLastWins(m: map<Query, real>, vs: seq<Visit>, i: nat)
    requires i < |vs|
    requires forall j :: i < j < |vs| ==> vs[j].node.lowScoreTokenQuery != vs[i].node.lowScoreTokenQuery
    ensures vs[i].node.lowScoreTokenQuery in PutAll(m, vs)
    ensures PutAll(m, vs)[vs[i].node.lowScoreTokenQuery] == vs[i].weight
    decreases |vs|
  {
    if i < |vs| - 1 {
      PutAllLastWins(m, vs[..|vs| - 1], i);
    }
  }

  /** The keys are those already in the map plus the low-token queries of the visits. */
  lemma {:induction false} PutAllKeys(m: map<Query, real>, vs: seq<Visit>)
    ensures PutAll(m, vs).Keys == m.Keys + (set v | v in vs :: v.node.lowScoreTokenQuery)
    decreases |vs|
  {
    if vs != [] {
      var init := vs[..|vs| - 1];
      PutAllKeys(m, init);
      assert vs == init + [vs[|vs| - 1]];
      assert (set v | v in vs :: v.node.lowScoreTokenQuery)
        == (set v | v in init :: v.node.lowScoreTokenQuery) + {vs[|vs| - 1].node.lowScoreTokenQuery};
    }
  }

  /** Keys that no visit touches keep their value. */
  lemma {:induction false} PutAllKeepsOthers(m: map<Query, real>, vs: seq<Visit>, k: Query)
    requires forall v :: v in vs ==> v.node.lowScoreTokenQuery != k
    ensures k in PutAll(m, vs) <==> k in m
    ensures k in m ==> PutAll(m, vs)[k] == m[k]
    decreases |vs|
  {
    if vs != [] {
      PutAllKeepsOthers(m, vs[..|vs| - 1], k);
    }
  }

  /** The nodes visited from any weight are exactly the reached nodes. */
  lemma {:induction false} VisitedNodesAreReached(q: Query, weight: real)
    ensures (set v | v in Visits(q, weight) :: v.node) == Reached(q)
    decreases q, 1
  {
    if q.BoostQuery? {
      VisitedNodesAreReached(q.query, Boosted(weight, q.boost));
    } else if q.BooleanQuery? {
      VisitedNodesOfClauses(q.clauses, weight);
      assert Visits(q, weight) == VisitsOfClauses(q.clauses, weight);
      assert Reached(q) == ReachedOfClauses(q.clauses);
    }
  }

  lemma {:induction false} VisitedNodesOfClauses(cs: seq<BooleanClause>, weight: real)
    ensures (set v | v in VisitsOfClauses(cs, weight) :: v.node) == ReachedOfClauses(cs)
    decreases cs, 0
  {
    if cs != [] {
      var init, last := cs[..|cs| - 1], cs[|cs| - 1];
      assert last in cs && last.query < last;
      VisitedNodesOfClauses(init, weight);
      var tail := if IsScoring(last) then Visits(last.query, weight) else [];
      if IsScoring(last) {
        VisitedNodesAreReached(last.query, weight);
      }
      var all := VisitsOfClauses(init, weight) + tail;
      assert (set v | v in all :: v.node)
        == (set v | v in VisitsOfClauses(init, weight) :: v.node) + (set v | v in tail :: v.node);
    }
  }

  /** The map has one key per distinct low-token query of the reached nodes, and no other. */
  lemma QueryWeightsKeys(q: Query)
    ensures QueryWeights(q).Keys == set n | n in Reached(q) :: n.lowScoreTokenQuery
  {
    var vs := Visits(q, 1.0);
    PutAllKeys(map[], vs);
    VisitedNodesAreReached(q, 1.0);
    forall k | k in QueryWeights(q).Keys
      ensures k in set n | n in Reached(q) :: n.lowScoreTokenQuery
    {
      var v :| v in vs && v.node.lowScoreTokenQuery == k;
      assert v.node in (set v | v in vs :: v.node);
    }
    forall n | n in Reached(q)
      ensures n.lowScoreTokenQuery in QueryWeights(q).Keys
    {
      assert n in (set v | v in vs :: v.node);
      var v :| v in vs && v.node == n;
    }
  }

  /** Appending a clause appends its visits when it is scoring. */
  lemma VisitsOfClausesSnoc(cs: seq<BooleanClause>, c: BooleanClause, weight: real)
    ensures VisitsOfClauses(cs + [c], weight)
      == VisitsOfClauses(cs, weight) + (if IsScoring(c) then Visits(c.query, weight) else [])
  {
    var all := cs + [c];
    assert all[..|all| - 1] == cs && all[|all| - 1] == c;
  }

  /** Two NeuralSparseQuery clauses with the same low-token query: the later weight wins. */
  lemma DuplicateLowQueryOverwrites(n1: NeuralSparseQuery, n2: NeuralSparseQuery, boost: real)
    requires n1.lowScoreTokenQuery == n2.lowScoreTokenQuery
    ensures QueryWeights(BooleanQuery([BooleanClause(Sparse(n1), Should),
                                       BooleanClause(BoostQuery(Sparse(n2), boost), Should)]))
      == map[n1.lowScoreTokenQuery := boost]
  {
    var low := n1.lowScoreTokenQuery;
    var c1, c2 := BooleanClause(Sparse(n1), Should), BooleanClause(BoostQuery(Sparse(n2), boost), Should);
    VisitsOfClausesSnoc([], c1, 1.0);
    VisitsOfClausesSnoc([c1], c2, 1.0);
    assert [] + [c1] == [c1] && [c1] + [c2] == [c1, c2];
    var v1, v2 := Visit(n1, 1.0), Visit(n2, Boosted(1.0, boost));
    assert Visits(c1.query, 1.0) == [v1];
    assert Visits(c2.query, 1.0) == [v2];
    var vs := [v1, v2];
    assert VisitsOfClauses([c1, c2], 1.0) == [] + [v1] + [v2] == vs;
    var m := PutAll(map[], vs);
    PutAllKeys(map[], vs);
    assert (set v | v in vs :: v.node.lowScoreTokenQuery) == {low} by {
      assert v1 in vs;
    }
    PutAllLastWins(map[], vs, 1);
    assert Boosted(1.0, boost) == boost;
    assert m.Keys == {low} && m[low] == boost;
    assert m == map[low := boost];
  }

  /** A FILTER or MUST_NOT clause adds no visits. */
  lemma NonScoringClauseIgnored(cs: seq<BooleanClause>, c: BooleanClause, weight: real)
    requires !IsScoring(c)
    ensures Visits(BooleanQuery(cs + [c]), weight) == Visits(BooleanQuery(cs), weight)
    ensures Reached(BooleanQuery(cs + [c])) == Reached(BooleanQuery(cs))
  {
    assert (cs + [c])[..|cs|] == cs;
  }

  // ---------------------------------------------------------------------------
  // Building the two-phase query

  /** `clauses` holds one SHOULD clause `BoostQuery(key, weight)` per entry of `m`. */
  ghost predicate IsNestedOf(clauses: seq<BooleanClause>, m: map<Query, real>)
  {
    && |clauses| == |m|
    && (forall i, j :: 0 <= i < j < |clauses| ==> clauses[i] != clauses[j])
    && (forall c :: c in clauses ==>
          c.occur == Should && c.query.BoostQuery? && c.query.query in m && c.query.boost == m[c.query.query])
    && (forall k :: k in m ==> BooleanClause(BoostQuery(k, m[k]), Should) in clauses)
  }

  /** getNestedTwoPhaseQuery: a boolean query of one SHOULD clause per map entry, in the map's order. */
  method GetNestedTwoPhaseQuery(query2Weight: map<Query, real>) returns (q: Query)
    ensures q.BooleanQuery? && IsNestedOf(q.clauses, query2Weight)
  {
    var clauses: seq<BooleanClause> := [];
    var todo := query2Weight.Keys;
    while todo != {}
      invariant todo <= query2Weight.Keys
      invariant |clauses| + |todo| == |query2Weight|
      invariant forall i :: 0 <= i < |clauses| ==> clauses[i].query.BoostQuery?
      invariant forall i, j :: 0 <= i < j < |clauses| ==> clauses[i].query.query != clauses[j].query.query
      invariant forall c :: c in clauses ==>
        c.occur == Should && c.query.BoostQuery? && c.query.query in query2Weight.Keys - todo
        && c.query.boost == query2Weight[c.query.query]
      invariant forall k :: k in query2Weight.Keys - todo ==> BooleanClause(BoostQuery(k, query2Weight[k]), Should) in clauses
      decreases |todo|
    {
      var k :| k in todo;
      clauses := clauses + [BooleanClause(BoostQuery(k, query2Weight[k]), Should)];
      todo := todo - {k};
    }
    q := BooleanQuery(clauses);
  }

  /**
    The rescore query for the map `m`: nothing when empty, the single entry as a boost
    query, otherwise the nested boolean query.
   */
  ghost predicate IsTwoPhaseQueryOf(r: Query, m: map<Query, real>)
  {
    && (|m| == 1 ==> r.BoostQuery? && m == map[r.query := r.boost])
    && (|m| > 1 ==> r.BooleanQuery? && IsNestedOf(r.clauses, m))
  }

  /** The shared tail of addTwoPhaseNeuralSparseQuery and getTwoPhaseQuery, for a non-empty map. */
  method TwoPhaseQueryOf(query2Weight: map<Query, real>) returns (twoPhaseQuery: Query)
    requires |query2Weight| >= 1
    ensures IsTwoPhaseQueryOf(twoPhaseQuery, query2Weight)
  {
    if |query2Weight| == 1 {
      var k :| k in query2Weight;
      assert query2Weight.Keys == {k} by {
        assert |query2Weight.Keys - {k}| == 0;
      }
      twoPhaseQuery := BoostQuery(k, query2Weight[k]);
    } else {
      twoPhaseQuery := GetNestedTwoPhaseQuery(query2Weight);
    }
  }

  /** getTwoPhaseQuery: MatchNoDocsQuery when no NeuralSparseQuery is reached, otherwise the two-phase query. */
  method GetTwoPhaseQuery(query: Query) returns (r: Query)
    modifies Reached(query)
    ensures QueryWeights(query) == map[] ==> r == MatchNoDocs
    ensures IsTwoPhaseQueryOf(r, QueryWeights(query))
    ensures forall n :: n in Reached(query) ==> n.currentQuery == n.highScoreTokenQuery
  {
    ReachedAllocated(query);
    var query2Weight := PopulateQueryWeightsMap(query, map[], 1.0);
    if |query2Weight| == 0 {
      return MatchNoDocs;
    }
    r := TwoPhaseQueryOf(query2Weight);
  }

  /** The window-size setting, with values outside [0, 3000] replaced by 50. */
  function ClampWindowSize(setting: int): (w: int)
    ensures 0 <= w <= MaxWindowSize
    ensures w == setting <==> 0 <= setting <= MaxWindowSize
    ensures w != setting ==> w == DefaultWindowSize
  {
    if setting < 0 || setting > MaxWindowSize then DefaultWindowSize else setting
  }

  /** Clamping an already clamped setting changes nothing. */
  lemma ClampIdempotent(setting: int)
    ensures ClampWindowSize(ClampWindowSize(setting)) == ClampWindowSize(setting)
  {
  }

  /** A rescore context on the search context: the query rescorer's, or some other kind. */
  datatype RescoreContext =
    | QueryRescoreContext(windowSize: int, query: Query, queryWeight: real, rescoreQueryWeight: real)
    | OtherRescoreContext(id: nat)

  /** getOriginQueryWeightAfterRescore: the product of the query rescorers' query weights. */
  function OriginQueryWeight(contexts: seq<RescoreContext>): (p: real)
    ensures contexts == [] ==> p == 1.0
    ensures |contexts| == 1 ==> p == (if contexts[0].QueryRescoreContext? then contexts[0].queryWeight else 1.0)
  {
    if contexts == [] then 1.0
    else
      var last := contexts[|contexts| - 1];
      OriginQueryWeight(contexts[..|contexts| - 1]) * (if last.QueryRescoreContext? then last.queryWeight else 1.0)
  }

  /** Query rescore contexts that all have query weight 1 leave the product at 1. */
  lemma {:induction false} OriginQueryWeightOfOnes(contexts: seq<RescoreContext>)
    requires forall i :: 0 <= i < |contexts| && contexts[i].QueryRescoreContext? ==> contexts[i].queryWeight == 1.0
    ensures OriginQueryWeight(contexts) == 1.0
    decreases |contexts|
  {
    if contexts != [] {
      OriginQueryWeightOfOnes(contexts[..|contexts| - 1]);
    }
  }

  /** One query rescore context with query weight 0 makes the product 0. */
  lemma {:induction false} OriginQueryWeightZero(contexts: seq<RescoreContext>, i: nat)
    requires i < |contexts| && contexts[i].QueryRescoreContext? && contexts[i].queryWeight == 0.0
    ensures OriginQueryWeight(contexts) == 0.0
    decreases |contexts|
  {
    if i < |contexts| - 1 {
      OriginQueryWeightZero(contexts[..|contexts| - 1], i);
    }
  }

  /** The product over a concatenation is the product of the two products. */
  lemma {:induction false} OriginQueryWeightAppend(a: seq<RescoreContext>, b: seq<RescoreContext>)
    ensures OriginQueryWeight(a + b) == OriginQueryWeight(a) * OriginQueryWeight(b)
    decreases |b|
  {
    if b == [] {
      assert a + b == a;
    } else {
      var b' := b[..|b| - 1];
      assert (a + b)[..|a + b| - 1] == a + b';
      OriginQueryWeightAppend(a, b');
    }
  }

  /** Contexts of other kinds do not enter the product. */
  lemma OtherContextsIgnored(contexts: seq<RescoreContext>, id: nat)
    ensures OriginQueryWeight(contexts + [OtherRescoreContext(id)]) == OriginQueryWeight(contexts)
  {
    assert (contexts + [OtherRescoreContext(id)])[..|contexts|] == contexts;
  }

  /** The search context's rescore list. */
  class SearchContext {
    var rescore: seq<RescoreContext>

    constructor (rescore: seq<RescoreContext>)
      ensures this.rescore == rescore
    {
      this.rescore := rescore;
    }

    method AddRescore(ctx: RescoreContext)
      modifies this`rescore
      ensures rescore == old(rescore) + [ctx]
    {
      rescore := rescore + [ctx];
    }
  }

  /**
    addTwoPhaseNeuralSparseQuery, given the window-size cluster setting: when some
    NeuralSparseQuery is reached, appends a query rescore context whose rescore query
    weight is the product of the existing query weights.
   */
  method AddTwoPhaseNeuralSparseQuery(query: Query, searchContext: SearchContext, windowSizeSetting: int)
    modifies Reached(query), searchContext`rescore
    ensures QueryWeights(query) == map[] ==> searchContext.rescore == old(searchContext.rescore)
    ensures QueryWeights(query) != map[] ==>
      && |searchContext.rescore| == |old(searchContext.rescore)| + 1
      && searchContext.rescore[..|old(searchContext.rescore)|] == old(searchContext.rescore)
      && var added := searchContext.rescore[|old(searchContext.rescore)|];
         && added.QueryRescoreContext?
         && added.windowSize == ClampWindowSize(windowSizeSetting)
         && IsTwoPhaseQueryOf(added.query, QueryWeights(query))
         && added.queryWeight == DefaultQueryWeight
         && added.rescoreQueryWeight == OriginQueryWeight(old(searchContext.rescore))
    ensures forall n :: n in Reached(query) ==> n.currentQuery == n.highScoreTokenQuery
  {
    ReachedAllocated(query);
    var query2Weight := PopulateQueryWeightsMap(query, map[], 1.0);
    if |query2Weight| == 0 {
      return;
    }
    var twoPhaseQuery := TwoPhaseQueryOf(query2Weight);
    var windowSize := ClampWindowSize(windowSizeSetting);
    var rescoreContext := QueryRescoreContext(windowSize, twoPhaseQuery, DefaultQueryWeight,
                                              OriginQueryWeight(searchContext.rescore));
    searchContext.AddRescore(rescoreContext);
  }

  /** A rescored hit. */
  datatype ScoreDoc = ScoreDoc(doc: nat, score: real)

  /** The largest score among the hits, 0 when there are none. */
  function MaxScore(docs: seq<ScoreDoc>): (m: real)
    ensures docs == [] ==> m == 0.0
    ensures docs != [] ==> (exists d :: d in docs && d.score == m)
    ensures forall d :: d in docs ==> d.score <= m
  {
    if docs == [] then 0.0
    else if |docs| == 1 then docs[0].score
    else
      var rest := MaxScore(docs[1..]);
      assert docs == [docs[0]] + docs[1..];
      if docs[0].score >= rest then docs[0].score else rest
  }

  /** TopDocsAndMaxScore. */
  datatype TopDocsAndMaxScore = TopDocsAndMaxScore(topDocs: seq<ScoreDoc>, maxScore: real)

  /**
    getRescoredTopDocsAndMaxScore. Lucene's QueryRescorer.rescore is passed in as
    `rescore`, applied to the hits, the second-phase query, weight 1 and the raw
    window-size setting.
   */
  function GetRescoredTopDocsAndMaxScore(
    topDocsAndMaxScore: TopDocsAndMaxScore, secondPhaseQuery: Query, windowSizeSetting: int,
    rescore: (seq<ScoreDoc>, Query, real, int) -> seq<ScoreDoc>): (r: TopDocsAndMaxScore)
    ensures r.topDocs == rescore(topDocsAndMaxScore.topDocs, secondPhaseQuery, 1.0, windowSizeSetting)
    ensures r.topDocs == [] ==> r.maxScore == 0.0
    ensures r.topDocs != [] ==> exists d :: d in r.topDocs && d.score == r.maxScore
    ensures forall d :: d in r.topDocs ==> d.score <= r.maxScore
  {
    var rescoredTopDocs := rescore(topDocsAndMaxScore.topDocs, secondPhaseQuery, 1.0, windowSizeSetting);
    TopDocsAndMaxScore(rescoredTopDocs, MaxScore(rescoredTopDocs))
  }
}
