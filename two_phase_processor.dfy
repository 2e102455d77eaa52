/**
  NeuralSparseTwoPhaseProcessor, the search-request processor: it validates its
  configuration, collects the neural-sparse queries under the request's `should` clauses,
  merges them into one bool query of two-phase copies and appends that as a rescorer
  whose window is the request size times the expansion rate.
 */
module TwoPhaseProcessor {
  import opened Wrappers
  import opened TokenSplit

  const DefaultEnabled: bool := true
  const DefaultRatio: real := 0.4
  const DefaultExpansion: real := 5.0
  const DefaultMaxWindowSize: int := 10000
  /** The smallest max_window_size the constructor accepts. */
  const MinMaxWindowSize: int := 50
  /** The request size used when the request leaves it unset (-1). */
  const DefaultRequestSize: int := 10
  /** A rescorer builder's query weight when nothing sets it. */
  const DefaultQueryWeight: real := 1.0

  const RatioKey: string := "prune_ratio"
  const ExpansionKey: string := "expansion_rate"
  const MaxWindowSizeKey: string := "max_window_size"

  /** The IllegalArgumentExceptions the processor throws. */
  datatype ProcessorError =
    | InvalidRatio(ratio: real)
    | InvalidExpansion(expansion: real)
    | InvalidMaxWindowSize(maxWindowSize: int)
    | InvalidWindowSize(maxWindowSize: int, windowSize: int)

  /** The processor's settings. */
  datatype Config = Config(enabled: bool, ratio: real, windowExpansion: real, maxWindowSize: int)

  /** The constructor: each setting is checked in turn and the first violation is thrown. */
  function NewProcessor(enabled: bool, ratio: real, windowExpansion: real, maxWindowSize: int): (r: Result<Config, ProcessorError>)
    ensures r.Success? <==> 0.0 <= ratio <= 1.0 && windowExpansion >= 1.0 && maxWindowSize >= MinMaxWindowSize
    ensures r.Success? ==> r.value == Config(enabled, ratio, windowExpansion, maxWindowSize)
    ensures !(0.0 <= ratio <= 1.0) ==> r == Failure(InvalidRatio(ratio))
    ensures 0.0 <= ratio <= 1.0 && windowExpansion < 1.0 ==> r == Failure(InvalidExpansion(windowExpansion))
    ensures 0.0 <= ratio <= 1.0 && windowExpansion >= 1.0 && maxWindowSize < MinMaxWindowSize
      ==> r == Failure(InvalidMaxWindowSize(maxWindowSize))
  {
    if ratio < 0.0 || ratio > 1.0 then Failure(InvalidRatio(ratio))
    else if windowExpansion < 1.0 then Failure(InvalidExpansion(windowExpansion))
    else if maxWindowSize < MinMaxWindowSize then Failure(InvalidMaxWindowSize(maxWindowSize))
    else Success(Config(enabled, ratio, windowExpansion, maxWindowSize))
  }

  /** Java's (int) cast of a float: truncation toward zero. */
  function TruncateToInt(x: real): (n: int)
    ensures x >= 0.0 ==> n as real <= x < n as real + 1.0
    ensures x < 0.0 ==> n as real - 1.0 < x <= n as real
  {
    if x >= 0.0 then x.Floor else -((-x).Floor)
  }

  /** A setting of the two_phase_parameter map, or the default when the key is absent. */
  function Setting(parameters: Option<map<string, real>>, key: string, default: real): real
  {
    if parameters.Some? && key in parameters.value then parameters.value[key] else default
  }

  /**
    Factory.create: `enabled` defaults to true; the optional two_phase_parameter map may
    override prune_ratio, expansion_rate and max_window_size (read with intValue).
   */
  function Create(enabled: Option<bool>, twoPhaseParameter: Option<map<string, real>>): (r: Result<Config, ProcessorError>)
    ensures var ratio := Setting(twoPhaseParameter, RatioKey, DefaultRatio);
      var expansion := Setting(twoPhaseParameter, ExpansionKey, DefaultExpansion);
      var maxWindowSize := TruncateToInt(Setting(twoPhaseParameter, MaxWindowSizeKey, DefaultMaxWindowSize as real));
      && (r.Success? <==> 0.0 <= ratio <= 1.0 && expansion >= 1.0 && maxWindowSize >= MinMaxWindowSize)
      && (r.Success? ==> r.value == Config(enabled.GetOr(DefaultEnabled), ratio, expansion, maxWindowSize))
      && (!(0.0 <= ratio <= 1.0) ==> r == Failure(InvalidRatio(ratio)))
  {
    NewProcessor(
      enabled.GetOr(DefaultEnabled),
      Setting(twoPhaseParameter, RatioKey, DefaultRatio),
      Setting(twoPhaseParameter, ExpansionKey, DefaultExpansion),
      TruncateToInt(Setting(twoPhaseParameter, MaxWindowSizeKey, DefaultMaxWindowSize as real)))
  }

  /** With nothing configured the processor is enabled with ratio 0.4, expansion 5.0 and max window 10000. */
  lemma FactoryDefaults()
    ensures Create(None, None) == Success(Config(true, 0.4, 5.0, 10000))
    ensures Create(None, Some(map[])) == Success(Config(true, 0.4, 5.0, 10000))
  {
  }

  /** Each setting comes from its own key when present, else from its default. */
  lemma FactoryOverridesOnlyPresentKeys(enabled: Option<bool>, parameters: map<string, real>)
    requires Create(enabled, Some(parameters)).Success?
    ensures var c := Create(enabled, Some(parameters)).value;
      && c.enabled == (if enabled.Some? then enabled.value else true)
      && c.ratio == (if RatioKey in parameters then parameters[RatioKey] else 0.4)
      && c.windowExpansion == (if ExpansionKey in parameters then parameters[ExpansionKey] else 5.0)
      && c.maxWindowSize == (if MaxWindowSizeKey in parameters then TruncateToInt(parameters[MaxWindowSizeKey]) else 10000)
  {
  }

  /** Keys other than the three settings do not affect the factory. */
  lemma FactoryIgnoresOtherKeys(enabled: Option<bool>, parameters: map<string, real>, key: string, value: real)
    requires key != RatioKey && key != ExpansionKey && key != MaxWindowSizeKey
    ensures Create(enabled, Some(parameters[key := value])) == Create(enabled, Some(parameters))
  {
  }

  // ---------------------------------------------------------------------------
  // The query-builder tree and the collector

  /** A neural_sparse query's content: its field and its tokens. */
  datatype SparseContent = SparseContent(fieldName: string, tokens: TokenMap)

  /**
    The two-phase copy of a neural_sparse query, made with the processor's prune ratio. The
    copy keeps the leaf's own boost, and query-builder equality compares the boost, so two
    leaves are one multimap key only when both their content and their boost agree.
   */
  datatype TwoPhaseCopy = TwoPhaseCopy(content: SparseContent, ratio: real, boost: real)

  /** The query builders the collector tells apart; the bool builder's non-should clauses are never read. */
  datatype QueryBuilder =
    | BoolQueryBuilder(boost: real, should: seq<QueryBuilder>)
    | NeuralSparseQueryBuilder(content: SparseContent, boost: real)
    | OtherQueryBuilder

  /** One put into the collector's multimap: the key and the recorded boost. */
  datatype Entry = Entry(key: TwoPhaseCopy, boost: real)

  /**
    The puts the collector makes under `q` with the boost `base` accumulated so far:
    bool builders multiply by their boost and descend into their `should` clauses, a
    neural_sparse leaf records `base * leafBoost`, anything else records nothing.
   */
  function Collected(q: QueryBuilder, base: real, ratio: real): seq<Entry>
    decreases q, 1
  {
    match q
    case BoolQueryBuilder(boost, should) => CollectedAll(should, base * boost, ratio)
    case NeuralSparseQueryBuilder(content, boost) => [Entry(TwoPhaseCopy(content, ratio, boost), base * boost)]
    case OtherQueryBuilder => []
  }

  /** The puts under a list of `should` clauses, in order. */
  function CollectedAll(qs: seq<QueryBuilder>, base: real, ratio: real): seq<Entry>
    decreases qs, 0
  {
    if qs == [] then [] else CollectedAll(qs[..|qs| - 1], base, ratio) + Collected(qs[|qs| - 1], base, ratio)
  }

  /**
    collectNeuralSparseQueryBuilder. The multimap is represented by the sequence of its
    puts: putAll of a sub-result adds the sub-result's puts after the ones already made.
   */
  method CollectNeuralSparseQueryBuilder(q: QueryBuilder, baseBoost: real, ratio: real) returns (result: seq<Entry>)
    ensures result == Collected(q, baseBoost, ratio)
    decreases q
  {
    result := [];
    if q.BoolQueryBuilder? {
      var updatedBoost := baseBoost * q.boost;
      for i := 0 to |q.should|
        invariant result == CollectedAll(q.should[..i], updatedBoost, ratio)
      {
        var subResult := CollectNeuralSparseQueryBuilder(q.should[i], updatedBoost, ratio);
        var prefix := q.should[..i + 1];
        assert prefix[..|prefix| - 1] == q.should[..i] && prefix[|prefix| - 1] == q.should[i];
        assert CollectedAll(prefix, updatedBoost, ratio)
          == CollectedAll(q.should[..i], updatedBoost, ratio) + Collected(q.should[i], updatedBoost, ratio);
        result := result + subResult;
      }
      assert q.should[..|q.should|] == q.should;
      assert q == BoolQueryBuilder(q.boost, q.should);
      assert Collected(q, baseBoost, ratio) == CollectedAll(q.should, updatedBoost, ratio);
    } else if q.NeuralSparseQueryBuilder? {
      var updatedBoost := baseBoost * q.boost;
      result := [Entry(TwoPhaseCopy(q.content, ratio, q.boost), updatedBoost)];
      assert result[0] == Collected(q, baseBoost, ratio)[0];
    }
  }

  /** Every recorded boost multiplied by `c`. */
  function Scaled(es: seq<Entry>, c: real): seq<Entry>
  {
    seq(|es|, i requires 0 <= i < |es| => es[i].(boost := c * es[i].boost))
  }

  /** The accumulated boost is a factor of every recorded boost: collecting under `base` scales the collection under 1. */
  lemma {:induction false} CollectedScales(q: QueryBuilder, base: real, ratio: real)
    ensures Collected(q, base, ratio) == Scaled(Collected(q, 1.0, ratio), base)
    decreases q, 1
  {
    if q.BoolQueryBuilder? {
      var should, boost := q.should, q.boost;
      CollectedAllScales(should, boost, base, ratio);
      var scaled := base * boost;
      assert CollectedAll(should, scaled, ratio) == Scaled(CollectedAll(should, boost, ratio), base);
      assert 1.0 * boost == boost;
      assert base * q.boost == scaled;
      assert Collected(q, base, ratio) == CollectedAll(should, scaled, ratio);
      assert Collected(q, 1.0, ratio) == CollectedAll(should, boost, ratio);
    } else if q.NeuralSparseQueryBuilder? {
      var e := Entry(TwoPhaseCopy(q.content, ratio, q.boost), 1.0 * q.boost);
      assert Collected(q, 1.0, ratio)[0] == e;
      assert base * q.boost == base * (1.0 * q.boost);
      assert |Scaled([e], base)| == 1;
      assert Scaled([e], base)[0] == e.(boost := base * e.boost);
      assert Collected(q, base, ratio)[0] == e.(boost := base * e.boost);
    }
  }

  lemma {:induction false} CollectedAllScales(qs: seq<QueryBuilder>, b: real, base: real, ratio: real)
    ensures CollectedAll(qs, base * b, ratio) == Scaled(CollectedAll(qs, b, ratio), base)
    decreases qs, 0
  {
    if qs != [] {
      var init := qs[..|qs| - 1];
      var last := qs[|qs| - 1];
      CollectedAllScales(init, b, base, ratio);
      CollectedScales(last, base * b, ratio);
      CollectedScales(last, b, ratio);
      ScaledAppend(CollectedAll(init, b, ratio), Collected(last, b, ratio), base);
      ScaledTwice(Collected(last, 1.0, ratio), b, base);
    }
  }

  lemma ScaledAppend(a: seq<Entry>, b: seq<Entry>, c: real)
    ensures Scaled(a + b, c) == Scaled(a, c) + Scaled(b, c)
  {
    assert |Scaled(a + b, c)| == |Scaled(a, c) + Scaled(b, c)|;
    forall i | 0 <= i < |a + b|
      ensures Scaled(a + b, c)[i] == (Scaled(a, c) + Scaled(b, c))[i]
    {
      if i < |a| {
        assert (a + b)[i] == a[i];
      } else {
        assert (a + b)[i] == b[i - |a|];
      }
    }
  }

  lemma ScaledTwice(es: seq<Entry>, b: real, c: real)
    ensures Scaled(Scaled(es, b), c) == Scaled(es, c * b)
  {
    forall i | 0 <= i < |es|
      ensures Scaled(Scaled(es, b), c)[i] == Scaled(es, c * b)[i]
    {
      var x := es[i].boost;
      assert c * (b * x) == (c * b) * x;
    }
  }

  // ---------------------------------------------------------------------------
  // Grouping the multimap and building the nested bool query

  /** The distinct keys of the multimap. */
  function Keys(es: seq<Entry>): set<TwoPhaseCopy>
  {
    set e | e in es :: e.key
  }

  /** The sum of the boosts recorded under `k`. */
  function BoostSum(es: seq<Entry>, k: TwoPhaseCopy): real
  {
    if es == [] then 0.0
    else BoostSum(es[..|es| - 1], k) + (if es[|es| - 1].key == k then es[|es| - 1].boost else 0.0)
  }

  /** The boost of the `should` clause built for `k`: the key's own boost times the sum of recorded boosts. */
  function FinalBoost(es: seq<Entry>, k: TwoPhaseCopy): real
  {
    k.boost * BoostSum(es, k)
  }

  /** A `should` clause of the nested query: a two-phase copy with its final boost. */
  datatype ShouldClause = ShouldClause(query: TwoPhaseCopy, boost: real)

  /** `clauses` holds exactly one clause per distinct key, each with that key's final boost. */
  ghost predicate IsNestedShould(clauses: seq<ShouldClause>, es: seq<Entry>)
  {
    && |clauses| == |Keys(es)|
    && (forall i, j :: 0 <= i < j < |clauses| ==> clauses[i].query != clauses[j].query)
    && (forall c :: c in clauses ==> c.query in Keys(es) && c.boost == FinalBoost(es, c.query))
    && (forall k :: k in Keys(es) ==> ShouldClause(k, FinalBoost(es, k)) in clauses)
  }

  /** getNestedQueryBuilderFromNeuralSparseQueryBuilderMap: one `should` clause per key, in the map's order. */
  method GetNestedShouldClauses(es: seq<Entry>) returns (clauses: seq<ShouldClause>)
    ensures IsNestedShould(clauses, es)
  {
    clauses := [];
    var todo := Keys(es);
    while todo != {}
      invariant todo <= Keys(es)
      invariant |clauses| + |todo| == |Keys(es)|
      invariant forall i, j :: 0 <= i < j < |clauses| ==> clauses[i].query != clauses[j].query
      invariant forall c :: c in clauses ==> c.query in Keys(es) - todo && c.boost == FinalBoost(es, c.query)
      invariant forall k :: k in Keys(es) - todo ==> ShouldClause(k, FinalBoost(es, k)) in clauses
      decreases |todo|
    {
      var k :| k in todo;
      var boosts := BoostSum(es, k);
      var finalBoost := k.boost * boosts;
      clauses := clauses + [ShouldClause(k, finalBoost)];
      todo := todo - {k};
    }
  }

  lemma {:induction false} BoostSumAppend(a: seq<Entry>, b: seq<Entry>, k: TwoPhaseCopy)
    ensures BoostSum(a + b, k) == BoostSum(a, k) + BoostSum(b, k)
    decreases |b|
  {
    if b != [] {
      var b' := b[..|b| - 1];
      assert (a + b)[..|a + b| - 1] == a + b';
      BoostSumAppend(a, b', k);
    } else {
      assert a + b == a;
    }
  }

  /** Two `should` clauses collect their puts one after the other. */
  lemma CollectedAllPair(q1: QueryBuilder, q2: QueryBuilder, base: real, ratio: real)
    ensures CollectedAll([q1, q2], base, ratio) == Collected(q1, base, ratio) + Collected(q2, base, ratio)
  {
    assert [q1, q2][..1] == [q1];
    assert [q1][..0] == [];
    assert CollectedAll([q1], base, ratio) == CollectedAll([], base, ratio) + Collected(q1, base, ratio);
    assert CollectedAll([q1, q2], base, ratio) == CollectedAll([q1], base, ratio) + Collected(q2, base, ratio);
  }

  /**
    The same neural_sparse query reached through two bool queries with boosts `p1` and `p2`
    becomes one clause: its own boost times the sum of the two path boosts.
   */
  lemma SameContentTwiceMerges(content: SparseContent, b: real, p1: real, p2: real, ratio: real)
    ensures var leaf := NeuralSparseQueryBuilder(content, b);
      var es := Collected(BoolQueryBuilder(1.0, [BoolQueryBuilder(p1, [leaf]), BoolQueryBuilder(p2, [leaf])]), 1.0, ratio);
      && Keys(es) == {TwoPhaseCopy(content, ratio, b)}
      && FinalBoost(es, TwoPhaseCopy(content, ratio, b)) == b * (p1 * b + p2 * b)
  {
    var k := TwoPhaseCopy(content, ratio, b);
    var leaf := NeuralSparseQueryBuilder(content, b);
    var q1, q2 := BoolQueryBuilder(p1, [leaf]), BoolQueryBuilder(p2, [leaf]);
    var e1, e2 := Entry(k, p1 * b), Entry(k, p2 * b);
    SingleLeafUnder(content, b, p1, ratio);
    SingleLeafUnder(content, b, p2, ratio);
    assert Collected(q1, 1.0, ratio) == [e1];
    assert Collected(q2, 1.0, ratio) == [e2];
    CollectedAllPair(q1, q2, 1.0, ratio);
    var es := [e1, e2];
    assert 1.0 * 1.0 == 1.0;
    assert Collected(BoolQueryBuilder(1.0, [q1, q2]), 1.0, ratio) == CollectedAll([q1, q2], 1.0, ratio);
    assert CollectedAll([q1, q2], 1.0, ratio) == [e1] + [e2] == es;
    assert es[..1] == [e1];
    assert [e1][..0] == [];
    assert BoostSum([e1], k) == p1 * b;
    assert BoostSum(es, k) == p1 * b + p2 * b;
    assert Keys(es) == {k};
  }

  /** A bool query with boost `p` over one neural_sparse leaf records `p` times the leaf's boost. */
  lemma SingleLeafUnder(content: SparseContent, b: real, p: real, ratio: real)
    ensures Collected(BoolQueryBuilder(p, [NeuralSparseQueryBuilder(content, b)]), 1.0, ratio)
      == [Entry(TwoPhaseCopy(content, ratio, b), p * b)]
  {
    var leaf := NeuralSparseQueryBuilder(content, b);
    assert [leaf][..0] == [];
    assert 1.0 * p == p;
    assert Collected(BoolQueryBuilder(p, [leaf]), 1.0, ratio) == CollectedAll([leaf], p, ratio);
    assert CollectedAll([leaf], p, ratio) == [] + Collected(leaf, p, ratio);
    var e := Entry(TwoPhaseCopy(content, ratio, b), p * b);
    assert Collected(leaf, p, ratio)[0] == e;
    assert |Collected(leaf, p, ratio)| == 1;
    assert Collected(leaf, p, ratio) == [e];
    assert [] + [e] == [e];
  }

  /**
    Two neural_sparse leaves that differ in content or in their own boost are different
    keys: each gives its own clause, boosted from its own leaf only.
   */
  lemma DistinctLeavesStaySeparate(c1: SparseContent, c2: SparseContent, b1: real, b2: real, ratio: real)
    requires c1 != c2 || b1 != b2
    ensures var es := Collected(BoolQueryBuilder(1.0,
                          [NeuralSparseQueryBuilder(c1, b1), NeuralSparseQueryBuilder(c2, b2)]), 1.0, ratio);
      && Keys(es) == {TwoPhaseCopy(c1, ratio, b1), TwoPhaseCopy(c2, ratio, b2)}
      && FinalBoost(es, TwoPhaseCopy(c1, ratio, b1)) == b1 * b1
      && FinalBoost(es, TwoPhaseCopy(c2, ratio, b2)) == b2 * b2
  {
    var k1, k2 := TwoPhaseCopy(c1, ratio, b1), TwoPhaseCopy(c2, ratio, b2);
    assert k1 != k2;
    var q1, q2 := NeuralSparseQueryBuilder(c1, b1), NeuralSparseQueryBuilder(c2, b2);
    assert 1.0 * 1.0 == 1.0;
    CollectedAllPair(q1, q2, 1.0, ratio);
    var e1, e2 := Entry(k1, b1), Entry(k2, b2);
    assert 1.0 * b1 == b1 && 1.0 * b2 == b2;
    assert Collected(q1, 1.0, ratio)[0] == e1;
    assert Collected(q2, 1.0, ratio)[0] == e2;
    var es := [e1, e2];
    assert Collected(BoolQueryBuilder(1.0, [q1, q2]), 1.0, ratio) == es;
    assert es[..1] == [e1];
    assert [e1][..0] == [];
    assert BoostSum([e1], k1) == b1 && BoostSum([e1], k2) == 0.0;
    assert BoostSum(es, k1) == b1;
    assert BoostSum(es, k2) == b2;
    assert Keys(es) == {k1, k2};
  }

  // ---------------------------------------------------------------------------
  // Window size, rescore weight and processRequest

  /** The request size (10 when unset) times the expansion rate, before the cast. */
  function ExpandedSize(requestSize: int, windowExpansion: real): real
  {
    (if requestSize == -1 then DefaultRequestSize else requestSize) as real * windowExpansion
  }

  /** `(int)((size == -1 ? 10 : size) * window_expansion)`. */
  function WindowSize(requestSize: int, windowExpansion: real): (w: int)
    ensures var x := ExpandedSize(requestSize, windowExpansion);
      && (x >= 0.0 ==> w as real <= x < w as real + 1.0)
      && (x < 0.0 ==> w as real - 1.0 < x <= w as real)
  {
    TruncateToInt(ExpandedSize(requestSize, windowExpansion))
  }

  /** buildRescoreQueryBuilderForTwoPhase's window check: out of [0, max_window_size] is an error. */
  function CheckedWindowSize(requestSize: int, config: Config): (r: Result<int, ProcessorError>)
    ensures r.Success? <==> 0 <= WindowSize(requestSize, config.windowExpansion) <= config.maxWindowSize
    ensures r.Success? ==> r.value == WindowSize(requestSize, config.windowExpansion)
    ensures r.Failure? ==> r.error == InvalidWindowSize(config.maxWindowSize, WindowSize(requestSize, config.windowExpansion))
  {
    var windowSize := WindowSize(requestSize, config.windowExpansion);
    if windowSize > config.maxWindowSize || windowSize < 0 then Failure(InvalidWindowSize(config.maxWindowSize, windowSize))
    else Success(windowSize)
  }

  /** Size 10 or unset with expansion 5 gives a window of 50; a max window of 40 rejects it. */
  lemma WindowExamples()
    ensures WindowSize(10, 5.0) == 50 && WindowSize(-1, 5.0) == 50
    ensures CheckedWindowSize(10, Config(true, 0.4, 5.0, 10000)) == Success(50)
    ensures CheckedWindowSize(10, Config(true, 0.4, 5.0, 40)) == Failure(InvalidWindowSize(40, 50))
  {
    assert (10 as real * 5.0).Floor == 50;
  }

  /** With an expansion rate of at least 1, the window covers the requested size (unset counts as 10). */
  lemma WindowCoversRequest(requestSize: int, windowExpansion: real)
    requires requestSize >= -1 && windowExpansion >= 1.0
    ensures WindowSize(requestSize, windowExpansion) >= (if requestSize == -1 then DefaultRequestSize else requestSize)
  {
    var base := if requestSize == -1 then DefaultRequestSize else requestSize;
    assert ExpandedSize(requestSize, windowExpansion) >= base as real by {
      assert base as real * (windowExpansion - 1.0) >= 0.0;
    }
  }

  /** A rescorer already on the request: its rescore query is opaque, its query weight is read. */
  datatype RescoreQuery = TwoPhaseBoolQuery(boost: real, should: seq<ShouldClause>) | ExistingRescoreQuery(id: nat)
  datatype RescorerBuilder = QueryRescorerBuilder(query: RescoreQuery, windowSize: int, queryWeight: real)

  /** getOriginQueryWeightAfterRescore: the product of the rescorers' query weights (1 when there are none). */
  function QueryWeightProduct(rescores: seq<RescorerBuilder>): (p: real)
    ensures rescores == [] ==> p == 1.0
    ensures |rescores| == 1 ==> p == rescores[0].queryWeight
  {
    if rescores == [] then 1.0 else QueryWeightProduct(rescores[..|rescores| - 1]) * rescores[|rescores| - 1].queryWeight
  }

  /** Rescorers that all have query weight 1 leave the product at 1. */
  lemma {:induction false} QueryWeightProductOfOnes(rescores: seq<RescorerBuilder>)
    requires forall i :: 0 <= i < |rescores| ==> rescores[i].queryWeight == 1.0
    ensures QueryWeightProduct(rescores) == 1.0
    decreases |rescores|
  {
    if rescores != [] {
      QueryWeightProductOfOnes(rescores[..|rescores| - 1]);
    }
  }

  /** One rescorer with query weight 0 makes the product 0. */
  lemma {:induction false} QueryWeightProductZero(rescores: seq<RescorerBuilder>, i: nat)
    requires i < |rescores| && rescores[i].queryWeight == 0.0
    ensures QueryWeightProduct(rescores) == 0.0
    decreases |rescores|
  {
    if i < |rescores| - 1 {
      QueryWeightProductZero(rescores[..|rescores| - 1], i);
    }
  }

  /** The product over a concatenation is the product of the two products. */
  lemma {:induction false} QueryWeightProductAppend(a: seq<RescorerBuilder>, b: seq<RescorerBuilder>)
    ensures QueryWeightProduct(a + b) == QueryWeightProduct(a) * QueryWeightProduct(b)
    decreases |b|
  {
    if b == [] {
      assert a + b == a;
    } else {
      var b' := b[..|b| - 1];
      assert (a + b)[..|a + b| - 1] == a + b';
      QueryWeightProductAppend(a, b');
    }
  }

  /** The request's search source: its query, size (-1 when unset) and rescorers. */
  class SearchSourceBuilder {
    var query: QueryBuilder
    var size: int
    var rescores: seq<RescorerBuilder>

    constructor (query: QueryBuilder, size: int, rescores: seq<RescorerBuilder>)
      ensures this.query == query && this.size == size && this.rescores == rescores
    {
      this.query := query;
      this.size := size;
      this.rescores := rescores;
    }

    method AddRescorer(rescorer: RescorerBuilder)
      modifies this`rescores
      ensures rescores == old(rescores) + [rescorer]
    {
      rescores := rescores + [rescorer];
    }
  }

  /** The rescorer processRequest appends for `clauses`, given the window size. */
  ghost predicate IsTwoPhaseRescorer(r: RescorerBuilder, source: seq<RescorerBuilder>, es: seq<Entry>, windowSize: int)
  {
    && r.query.TwoPhaseBoolQuery?
    && r.query.boost == QueryWeightProduct(source)
    && IsNestedShould(r.query.should, es)
    && r.windowSize == windowSize
    && r.queryWeight == DefaultQueryWeight
  }

  /**
    processRequest: a no-op when disabled, when the ratio is 0 or when no neural_sparse
    query is reachable through `should` clauses; an error, leaving the request as it was,
    when the window is out of range; otherwise the two-phase rescorer is appended.
   */
  method ProcessRequest(config: Config, source: SearchSourceBuilder) returns (r: Result<(), ProcessorError>)
    modifies source`rescores
    ensures !config.enabled || config.ratio == 0.0 ==> r.Success? && source.rescores == old(source.rescores)
    ensures config.enabled && config.ratio != 0.0 && Collected(source.query, 1.0, config.ratio) == []
      ==> r.Success? && source.rescores == old(source.rescores)
    ensures config.enabled && config.ratio != 0.0 && Collected(source.query, 1.0, config.ratio) != []
      ==> match CheckedWindowSize(source.size, config)
          case Failure(e) => r == Failure(e) && source.rescores == old(source.rescores)
          case Success(w) =>
            && r.Success?
            && |source.rescores| == |old(source.rescores)| + 1
            && source.rescores[..|old(source.rescores)|] == old(source.rescores)
            && IsTwoPhaseRescorer(source.rescores[|old(source.rescores)|], old(source.rescores),
                 Collected(source.query, 1.0, config.ratio), w)
  {
    if !config.enabled || config.ratio == 0.0 {
      return Success(());
    }
    var queryBuilderMap := CollectNeuralSparseQueryBuilder(source.query, 1.0, config.ratio);
    if queryBuilderMap == [] {
      return Success(());
    }
    var should := GetNestedShouldClauses(queryBuilderMap);
    var nested := TwoPhaseBoolQuery(QueryWeightProduct(source.rescores), should);
    var windowSize := CheckedWindowSize(source.size, config);
    if windowSize.Failure? {
      return Failure(windowSize.error);
    }
    source.AddRescorer(QueryRescorerBuilder(nested, windowSize.value, DefaultQueryWeight));
    r := Success(());
  }

  /** The appended rescorer has the default query weight 1, so the product over all rescorers is unchanged. */
  lemma AppendedRescorerKeepsProduct(rescores: seq<RescorerBuilder>, added: RescorerBuilder)
    requires added.queryWeight == DefaultQueryWeight
    ensures QueryWeightProduct(rescores + [added]) == QueryWeightProduct(rescores)
  {
    assert (rescores + [added])[..|rescores|] == rescores;
  }
}
