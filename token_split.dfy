/**
  The ratio-of-max token split of NeuralSparseTwoPhaseProcessor.getSplitSetOnceByScoreThreshold:
  a query's token weights are partitioned into the tokens whose weight reaches
  `max * ratio` (high) and the rest (low), where `max` starts at 0.
 */
module TokenSplit {

  /** A query's token -> weight map. Weights are Java floats, modelled as reals. */
  type TokenMap = map<string, real>

  /** Both partitions always exist (possibly empty): the source's null check on them is dead. */
  datatype Split = Split(high: TokenMap, low: TokenMap)

  /** `m` is what the source's max loop computes: the largest weight, or 0 when all are below 0. */
  ghost predicate IsMaxWeight(tokens: TokenMap, m: real)
  {
    && m >= 0.0
    && (forall k :: k in tokens ==> tokens[k] <= m)
    && (m == 0.0 || m in tokens.Values)
  }

  /** Reference definition of the max, by removing one token at a time. */
  ghost function MaxWeight(tokens: TokenMap): real
    decreases |tokens|
  {
    if tokens == map[] then 0.0
    else
      var k :| k in tokens;
      var rest := tokens - {k};
      assert |rest| < |tokens| by { assert rest.Keys < tokens.Keys; }
      var m := MaxWeight(rest);
      if tokens[k] > m then tokens[k] else m
  }

  /** The reference definition meets the defining properties of the source's max. */
  lemma {:induction false} MaxWeightIsMax(tokens: TokenMap)
    ensures IsMaxWeight(tokens, MaxWeight(tokens))
    decreases |tokens|
  {
    if tokens != map[] {
      var k :| k in tokens && MaxWeight(tokens) == (
        var m := MaxWeight(tokens - {k}); if tokens[k] > m then tokens[k] else m);
      var rest := tokens - {k};
      assert |rest| < |tokens| by { assert rest.Keys < tokens.Keys; }
      MaxWeightIsMax(rest);
      var m := MaxWeight(rest);
      if m != 0.0 {
        var j :| j in rest && rest[j] == m;
        assert tokens[j] == m;
      }
      forall j | j in tokens
        ensures tokens[j] <= MaxWeight(tokens)
      {
        if j != k {
          assert j in rest;
        }
      }
    }
  }

  /** The max is determined by its three defining properties. */
  lemma MaxWeightUnique(tokens: TokenMap, m1: real, m2: real)
    requires IsMaxWeight(tokens, m1) && IsMaxWeight(tokens, m2)
    ensures m1 == m2
  {
    if m1 != 0.0 {
      var k :| k in tokens && tokens[k] == m1;
    }
    if m2 != 0.0 {
      var k :| k in tokens && tokens[k] == m2;
    }
  }

  /** The source's loop `max = Math.max(value, max)` over all weights, starting from 0. */
  method ComputeMax(tokens: TokenMap) returns (max: real)
    ensures max == MaxWeight(tokens)
  {
    max := 0.0;
    var todo := tokens.Keys;
    while todo != {}
      invariant todo <= tokens.Keys
      invariant max >= 0.0
      invariant forall k :: k in tokens && k !in todo ==> tokens[k] <= max
      invariant max == 0.0 || max in tokens.Values
      decreases todo
    {
      var k :| k in todo;
      if tokens[k] > max {
        max := tokens[k];
      }
      todo := todo - {k};
    }
    MaxWeightIsMax(tokens);
    MaxWeightUnique(tokens, max, MaxWeight(tokens));
  }

  /** Partition by `weight >= threshold`, as Collectors.partitioningBy does. */
  function Partition(tokens: TokenMap, threshold: real): (s: Split)
    ensures s.high.Keys !! s.low.Keys
    ensures s.high + s.low == tokens
    ensures forall k :: k in s.high ==> s.high[k] >= threshold
    ensures forall k :: k in s.low ==> s.low[k] < threshold
  {
    var s := Split(map k | k in tokens && tokens[k] >= threshold :: tokens[k],
                   map k | k in tokens && tokens[k] < threshold :: tokens[k]);
    assert s.high + s.low == tokens by {
      assert (s.high + s.low).Keys == tokens.Keys;
    }
    s
  }

  /** The split threshold, `max * ratio`. */
  function Threshold(max: real, ratio: real): real
  {
    max * ratio
  }

  /** The split the source specifies: threshold `max * ratio`, then partition. */
  ghost function SplitOf(tokens: TokenMap, ratio: real): Split
  {
    Partition(tokens, Threshold(MaxWeight(tokens), ratio))
  }

  /** getSplitSetOnceByScoreThreshold: the max loop, the threshold, then the partition. */
  method GetSplitByScoreThreshold(tokens: TokenMap, ratio: real) returns (s: Split)
    ensures s == SplitOf(tokens, ratio)
  {
    var max := ComputeMax(tokens);
    var threshold := Threshold(max, ratio);
    s := Partition(tokens, threshold);
  }

  /** Nothing is lost or duplicated: every token lands in exactly one partition, unchanged. */
  lemma SplitIsPartition(tokens: TokenMap, ratio: real, k: string)
    ensures k in tokens <==> (k in SplitOf(tokens, ratio).high || k in SplitOf(tokens, ratio).low)
    ensures !(k in SplitOf(tokens, ratio).high && k in SplitOf(tokens, ratio).low)
    ensures k in SplitOf(tokens, ratio).high ==> SplitOf(tokens, ratio).high[k] == tokens[k]
    ensures k in SplitOf(tokens, ratio).low ==> SplitOf(tokens, ratio).low[k] == tokens[k]
  {
    var s := SplitOf(tokens, ratio);
    assert k in s.high + s.low <==> k in s.high || k in s.low;
  }

  /** Every high weight reaches the threshold, every low weight is below it. */
  lemma PartitionRespectsThreshold(tokens: TokenMap, threshold: real, k: string)
    ensures k in Partition(tokens, threshold).high ==> tokens[k] >= threshold
    ensures k in Partition(tokens, threshold).low ==> tokens[k] < threshold
  {
    var s := Partition(tokens, threshold);
    if k in s.high {
      assert (s.high + s.low)[k] == s.high[k];
    }
    if k in s.low {
      assert (s.high + s.low)[k] == s.low[k];
    }
  }

  /** With a ratio at most 1, an input holding a non-negative weight has a non-empty high part. */
  lemma HighNonEmpty(tokens: TokenMap, ratio: real)
    requires 0.0 <= ratio <= 1.0
    requires exists k :: k in tokens && tokens[k] >= 0.0
    ensures SplitOf(tokens, ratio).high != map[]
  {
    MaxWeightIsMax(tokens);
    var m := MaxWeight(tokens);
    var k: string;
    if m == 0.0 {
      k :| k in tokens && tokens[k] >= 0.0;
    } else {
      k :| k in tokens && tokens[k] == m;
    }
    ThresholdAtMostMax(m, ratio);
    ReachingTokenIsHigh(tokens, Threshold(m, ratio), k);
  }

  lemma ThresholdAtMostMax(m: real, ratio: real)
    requires m >= 0.0 && 0.0 <= ratio <= 1.0
    ensures Threshold(m, ratio) <= m
  {
    assert m * (1.0 - ratio) >= 0.0;
  }

  /** A token whose weight reaches the threshold is in the high part. */
  lemma ReachingTokenIsHigh(tokens: TokenMap, threshold: real, k: string)
    requires k in tokens && tokens[k] >= threshold
    ensures k in Partition(tokens, threshold).high
  {
  }

  /** An empty input yields two empty partitions (no error). */
  lemma EmptyInputSplitsEmpty(ratio: real)
    ensures SplitOf(map[], ratio) == Split(map[], map[])
  {
    var s := SplitOf(map[], ratio);
    assert s.high.Keys == {} && s.low.Keys == {};
  }

  /** Because the max starts at 0, a map of only negative weights puts every token in the low part. */
  lemma NegativeWeightsAllLow(tokens: TokenMap, ratio: real)
    requires forall k :: k in tokens ==> tokens[k] < 0.0
    ensures SplitOf(tokens, ratio) == Split(map[], tokens)
  {
    MaxWeightIsMax(tokens);
    var m := MaxWeight(tokens);
    assert m !in tokens.Values;
    var s := SplitOf(tokens, ratio);
    assert s.high.Keys == {};
    assert s.low == tokens;
  }
}
