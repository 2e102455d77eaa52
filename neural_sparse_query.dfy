/**
  NeuralSparseQuery: a Lucene query holding a high-token query, a low-token query and a
  mutable `currentQuery` slot, plus the closed set of Lucene query shapes the two-phase
  rewrite distinguishes.
 */
module SparseQuery {

  /** BooleanClause.Occur; MUST and SHOULD clauses are the scoring ones. */
  datatype Occur = Must | Should | Filter | MustNot

  /**
    The Lucene query shapes the rewrite tells apart. `Leaf` stands for every other
    Lucene query (term queries, the high/low token queries, ...), identified by a number.
   */
  datatype Query =
    | BoostQuery(query: Query, boost: real)
    | BooleanQuery(clauses: seq<BooleanClause>)
    | Sparse(nsq: NeuralSparseQuery)
    | MatchNoDocs
    | Leaf(id: nat)

  datatype BooleanClause = BooleanClause(query: Query, occur: Occur)

  /** BooleanClause.isScoring. */
  predicate IsScoring(c: BooleanClause)
  {
    c.occur == Must || c.occur == Should
  }

  /** Lucene's ScoreMode. */
  datatype ScoreMode = Complete | CompleteNoScores | TopScores | TopDocs | TopDocsWithScores

  /** An IndexSearcher, opaque to the model. */
  datatype Searcher = Searcher(id: nat)

  /**
    The Weight that an inner query's createWeight returns. createWeight is Lucene code;
    the model identifies the weight by the arguments it was created from.
   */
  datatype LuceneWeight = LuceneWeight(query: Query, searcher: Searcher, scoreMode: ScoreMode, boost: real)

  /** Java's int arithmetic: wrap an integer into the 32-bit two's-complement range. */
  function Wrap32(x: int): (r: int)
    ensures -0x8000_0000 <= r < 0x8000_0000
    ensures (r - x) % 0x1_0000_0000 == 0
  {
    (x + 0x8000_0000) % 0x1_0000_0000 - 0x8000_0000
  }

  /**
    The hash of a NeuralSparseQuery, `31 * classHash + hash(high) + hash(low)` in Java int
    arithmetic; wrapping after every step and wrapping once at the end agree.
   */
  function HashOfParts(classHash: int, highHash: int, lowHash: int): int
  {
    Wrap32(31 * classHash + highHash + lowHash)
  }

  class NeuralSparseQuery {
    /** The query createWeight delegates to; switched to the high-token query by the two-phase rewrite. */
    var currentQuery: Query
    const highScoreTokenQuery: Query
    const lowScoreTokenQuery: Query
    const twoPhaseWindowSize: int

    /** The all-arguments constructor. */
    constructor (currentQuery: Query, highScoreTokenQuery: Query, lowScoreTokenQuery: Query, twoPhaseWindowSize: int)
      ensures this.currentQuery == currentQuery
      ensures this.highScoreTokenQuery == highScoreTokenQuery
      ensures this.lowScoreTokenQuery == lowScoreTokenQuery
      ensures this.twoPhaseWindowSize == twoPhaseWindowSize
    {
      this.currentQuery := currentQuery;
      this.highScoreTokenQuery := highScoreTokenQuery;
      this.lowScoreTokenQuery := lowScoreTokenQuery;
      this.twoPhaseWindowSize := twoPhaseWindowSize;
    }

    /** Point the query at its high-token part; nothing else changes. */
    method ExtractLowScoreToken()
      modifies this`currentQuery
      ensures currentQuery == highScoreTokenQuery
    {
      currentQuery := highScoreTokenQuery;
    }

    /**
      equals(Object): the other query must be a NeuralSparseQuery with equal high and low
      parts; currentQuery and twoPhaseWindowSize are not compared.
     */
    function Equals(other: Query): (b: bool)
      ensures b <==> (&& other.Sparse?
                      && other.nsq.highScoreTokenQuery == highScoreTokenQuery
                      && other.nsq.lowScoreTokenQuery == lowScoreTokenQuery)
    {
      other.Sparse? && EqualsTo(other.nsq)
    }

    /** equalsTo: the high and low parts are equal; nothing else is compared. */
    function EqualsTo(other: NeuralSparseQuery): (b: bool)
      ensures b <==> other.highScoreTokenQuery == highScoreTokenQuery && other.lowScoreTokenQuery == lowScoreTokenQuery
    {
      highScoreTokenQuery == other.highScoreTokenQuery && lowScoreTokenQuery == other.lowScoreTokenQuery
    }

    /** hashCode, given the class hash and the hash of the inner queries (both Lucene's). */
    function HashCode(classHash: int, hashOf: Query -> int): (h: int)
      ensures -0x8000_0000 <= h < 0x8000_0000
    {
      HashOfParts(classHash, hashOf(highScoreTokenQuery), hashOf(lowScoreTokenQuery))
    }

    /** createWeight hands the call to whatever query the slot holds at the time. */
    function CreateWeight(searcher: Searcher, scoreMode: ScoreMode, boost: real): (w: LuceneWeight)
      reads this
      ensures w.query == currentQuery && w.searcher == searcher
      ensures w.scoreMode == scoreMode && w.boost == boost
    {
      LuceneWeight(currentQuery, searcher, scoreMode, boost)
    }

    /**
      rewrite: with `rewrite` the inner queries' own rewrite, return this query when the
      high and low parts are unchanged (even if currentQuery's rewrite changed), otherwise a
      new query of the rewritten parts with the same window size.
     */
    method Rewrite(rewrite: Query -> Query) returns (q: NeuralSparseQuery)
      ensures rewrite(highScoreTokenQuery) == highScoreTokenQuery && rewrite(lowScoreTokenQuery) == lowScoreTokenQuery
        ==> q == this
      ensures !(rewrite(highScoreTokenQuery) == highScoreTokenQuery && rewrite(lowScoreTokenQuery) == lowScoreTokenQuery)
        ==> (&& fresh(q)
             && q.currentQuery == rewrite(currentQuery)
             && q.highScoreTokenQuery == rewrite(highScoreTokenQuery)
             && q.lowScoreTokenQuery == rewrite(lowScoreTokenQuery)
             && q.twoPhaseWindowSize == twoPhaseWindowSize)
    {
      var rewrittenCurrentQuery := rewrite(currentQuery);
      var rewrittenFirstStepQuery := rewrite(highScoreTokenQuery);
      var rewrittenSecondPhaseQuery := rewrite(lowScoreTokenQuery);
      if rewrittenFirstStepQuery == highScoreTokenQuery && rewrittenSecondPhaseQuery == lowScoreTokenQuery {
        return this;
      }
      q := new NeuralSparseQuery(rewrittenCurrentQuery, rewrittenFirstStepQuery, rewrittenSecondPhaseQuery, twoPhaseWindowSize);
    }
  }

  /** equals is an equivalence relation on NeuralSparseQuery objects. */
  lemma EqualsIsEquivalence(a: NeuralSparseQuery, b: NeuralSparseQuery, c: NeuralSparseQuery)
    ensures a.Equals(Sparse(a))
    ensures a.Equals(Sparse(b)) <==> b.Equals(Sparse(a))
    ensures a.Equals(Sparse(b)) && b.Equals(Sparse(c)) ==> a.Equals(Sparse(c))
  {
  }

  /** equals ignores the currentQuery slot and the window size: only the two parts decide. */
  lemma EqualsIgnoresCurrentQuery(a: NeuralSparseQuery, b: NeuralSparseQuery)
    ensures a.Equals(Sparse(b)) <==>
      (a.highScoreTokenQuery == b.highScoreTokenQuery && a.lowScoreTokenQuery == b.lowScoreTokenQuery)
  {
  }

  /** No query of another kind is equal to a NeuralSparseQuery. */
  lemma NotEqualToOtherKinds(a: NeuralSparseQuery, other: Query)
    requires !other.Sparse?
    ensures !a.Equals(other)
  {
  }

  /** Equal queries have equal hash codes. */
  lemma EqualQueriesHashEqually(a: NeuralSparseQuery, b: NeuralSparseQuery, classHash: int, hashOf: Query -> int)
    requires a.Equals(Sparse(b))
    ensures a.HashCode(classHash, hashOf) == b.HashCode(classHash, hashOf)
  {
  }

  /** Swapping the high and low parts keeps the hash code. */
  lemma HashCodeSymmetric(a: NeuralSparseQuery, b: NeuralSparseQuery, classHash: int, hashOf: Query -> int)
    requires a.highScoreTokenQuery == b.lowScoreTokenQuery && a.lowScoreTokenQuery == b.highScoreTokenQuery
    ensures a.HashCode(classHash, hashOf) == b.HashCode(classHash, hashOf)
  {
  }

  /** After ExtractLowScoreToken, a weight created from the query is the high-token query's. */
  method ExtractThenCreateWeight(q: NeuralSparseQuery, searcher: Searcher, scoreMode: ScoreMode, boost: real)
    returns (w: LuceneWeight)
    modifies q`currentQuery
    ensures w == LuceneWeight(q.highScoreTokenQuery, searcher, scoreMode, boost)
  {
    q.ExtractLowScoreToken();
    w := q.CreateWeight(searcher, scoreMode, boost);
  }
}
