/**
  NeuralSparseQueryWeight and NeuralSparseScorer. The weight hands one shared score queue
  to every scorer it creates; a scorer reports its high-token scorer's score and runs the
  bounded admission on it. The two classes refer to each other, so they share a module.
 */
module SparseScoring {
  import opened Wrappers
  import opened SparseQuery
  import opened Admission

  /** A LeafReaderContext (one index segment). */
  datatype LeafContext = LeafContext(ord: nat)

  /** A Matches result of Lucene, opaque to the model. */
  datatype Matches = Matches(id: nat)

  /**
    A ScorerSupplier: what the scorer its get() builds reports before anything advances it
    (document, score, iterator, and the answers of getMaxScore, advanceShallow and
    twoPhaseIterator).
   */
  datatype ScorerSupplier = ScorerSupplier(
    doc: int,
    score: real,
    docIterator: nat,
    maxScoreUpTo: int -> real,
    advanceShallow: int -> int,
    twoPhase: Option<nat>)

  /**
    What Lucene answers for the inner weights over the index: a weight's scorerSupplier for
    a (possibly null) segment, and its matches for a document.
   */
  datatype Segments = Segments(
    scorerSupplier: (LuceneWeight, Option<LeafContext>) -> Option<ScorerSupplier>,
    matches: (LuceneWeight, LeafContext, int) -> Option<Matches>)

  /** A Lucene Scorer obtained from a ScorerSupplier; Lucene's iteration moves docId and currentScore. */
  class LeafScorer {
    var docId: int
    var currentScore: real
    const docIterator: nat
    const maxScoreUpTo: int -> real
    const advanceShallow: int -> int
    const twoPhase: Option<nat>

    /** ScorerSupplier.get. */
    constructor Get(supplier: ScorerSupplier)
      ensures docId == supplier.doc && currentScore == supplier.score
      ensures docIterator == supplier.docIterator && maxScoreUpTo == supplier.maxScoreUpTo
      ensures advanceShallow == supplier.advanceShallow && twoPhase == supplier.twoPhase
    {
      docId := supplier.doc;
      currentScore := supplier.score;
      docIterator := supplier.docIterator;
      maxScoreUpTo := supplier.maxScoreUpTo;
      advanceShallow := supplier.advanceShallow;
      twoPhase := supplier.twoPhase;
    }
  }

  class NeuralSparseQueryWeight {
    const query: NeuralSparseQuery
    const highScoreTokenWeight: LuceneWeight
    /** Created on demand by GetLowTokenSS. */
    var lowScoreTokenWeight: Option<LuceneWeight>
    const searcher: Searcher
    const scoreMode: ScoreMode
    const boost: real
    /** The segment of the last scorer call (null before the first). */
    var context: Option<LeafContext>
    /** Guards re-creating the low weight; nothing sets it. */
    var setLow: bool
    const lowQuery: Query
    /** The queue shared by every scorer this weight creates. */
    const priorityQueue: ScoreQueue
    const segments: Segments

    ghost predicate Valid()
      reads this, priorityQueue
    {
      !setLow && priorityQueue.Valid()
    }

    constructor (lowTokenQuery: Query, searcher: Searcher, scoreMode: ScoreMode, boost: real,
                 highScoreTokenQueryWeight: LuceneWeight, neuralSparseQuery: NeuralSparseQuery, segments: Segments)
      ensures Valid() && fresh(priorityQueue) && priorityQueue.items == []
      ensures query == neuralSparseQuery && highScoreTokenWeight == highScoreTokenQueryWeight
      ensures lowQuery == lowTokenQuery && this.searcher == searcher
      ensures this.scoreMode == scoreMode && this.boost == boost && this.segments == segments
      ensures lowScoreTokenWeight.None? && context.None?
    {
      query := neuralSparseQuery;
      highScoreTokenWeight := highScoreTokenQueryWeight;
      lowScoreTokenWeight := None;
      lowQuery := lowTokenQuery;
      this.searcher := searcher;
      this.scoreMode := scoreMode;
      this.boost := boost;
      context := None;
      setLow := false;
      priorityQueue := new ScoreQueue();
      this.segments := segments;
    }

    /**
      scorer: record the segment; null when the high-token weight has no scorer there,
      otherwise a new scorer over the high-token scorer that shares this weight's queue.
     */
    method Scorer(ctx: LeafContext) returns (s: NeuralSparseScorer?)
      requires Valid()
      modifies this`context
      ensures Valid() && context == Some(ctx)
      ensures s == null <==> segments.scorerSupplier(highScoreTokenWeight, Some(ctx)).None?
      ensures s != null ==>
        && fresh(s) && fresh(s.highScorer)
        && s.weight == this && s.topScoreQueue == priorityQueue
        && s.lowScorerSupplier.None? && !s.sup
        && var supplier := segments.scorerSupplier(highScoreTokenWeight, Some(ctx)).value;
           s.highScorer.docId == supplier.doc && s.highScorer.currentScore == supplier.score
           && s.highScorer.docIterator == supplier.docIterator && s.highScorer.maxScoreUpTo == supplier.maxScoreUpTo
           && s.highScorer.advanceShallow == supplier.advanceShallow && s.highScorer.twoPhase == supplier.twoPhase
    {
      var highScoreTokenScorerSupplier := segments.scorerSupplier(highScoreTokenWeight, Some(ctx));
      context := Some(ctx);
      if highScoreTokenScorerSupplier.Some? {
        s := new NeuralSparseScorer(highScoreTokenScorerSupplier.value, this, priorityQueue);
      } else {
        s := null;
      }
    }

    /** isCacheable: never. */
    function IsCacheable(ctx: LeafContext): (cacheable: bool)
      ensures !cacheable
    {
      false
    }

    /** matches: the high-token weight's. */
    function MatchesAt(ctx: LeafContext, doc: int): (m: Option<Matches>)
      ensures m == segments.matches(highScoreTokenWeight, ctx, doc)
    {
      segments.matches(highScoreTokenWeight, ctx, doc)
    }

    /**
      getLowTokenSS: (re)create the low-token weight from lowQuery with the stored searcher,
      score mode and boost whenever setLow is false (always), and ask it for a scorer
      supplier on the recorded segment.
     */
    method GetLowTokenSS() returns (ss: Option<ScorerSupplier>)
      requires Valid()
      modifies this`lowScoreTokenWeight
      ensures Valid()
      ensures lowScoreTokenWeight == Some(LuceneWeight(lowQuery, searcher, scoreMode, boost))
      ensures ss == segments.scorerSupplier(lowScoreTokenWeight.value, context)
    {
      if !setLow {
        lowScoreTokenWeight := Some(LuceneWeight(lowQuery, searcher, scoreMode, boost));
      }
      ss := segments.scorerSupplier(lowScoreTokenWeight.value, context);
    }
  }

  class NeuralSparseScorer {
    const highScorer: LeafScorer
    var sup: bool
    /** Starts null and is only reassigned inside a branch that requires it non-null. */
    var lowScorerSupplier: Option<ScorerSupplier>
    const topScoreQueue: ScoreQueue
    const docIterator: nat
    const weight: NeuralSparseQueryWeight

    constructor (highScorerSupplier: ScorerSupplier, weight: NeuralSparseQueryWeight, queue: ScoreQueue)
      ensures fresh(highScorer)
      ensures highScorer.docId == highScorerSupplier.doc && highScorer.currentScore == highScorerSupplier.score
      ensures highScorer.docIterator == highScorerSupplier.docIterator && highScorer.maxScoreUpTo == highScorerSupplier.maxScoreUpTo
      ensures highScorer.advanceShallow == highScorerSupplier.advanceShallow && highScorer.twoPhase == highScorerSupplier.twoPhase
      ensures docIterator == highScorer.docIterator
      ensures this.weight == weight && topScoreQueue == queue
      ensures lowScorerSupplier.None? && !sup
    {
      highScorer := new LeafScorer.Get(highScorerSupplier);
      this.weight := weight;
      topScoreQueue := queue;
      docIterator := highScorerSupplier.docIterator;
      sup := false;
      lowScorerSupplier := None;
    }

    function DocID(): (doc: int)
      reads highScorer
      ensures doc == highScorer.docId
    {
      highScorer.docId
    }

    function Iterator(): (it: nat)
      ensures it == docIterator
    {
      docIterator
    }

    function GetMaxScore(upTo: int): (m: real)
      ensures m == highScorer.maxScoreUpTo(upTo)
    {
      highScorer.maxScoreUpTo(upTo)
    }

    function TwoPhaseIterator(): (it: Option<nat>)
      ensures it == highScorer.twoPhase
    {
      highScorer.twoPhase
    }

    function AdvanceShallow(target: int): (doc: int)
      ensures doc == highScorer.advanceShallow(target)
    {
      highScorer.advanceShallow(target)
    }

    /** updateScore: the bounded admission on the shared queue. */
    method UpdateScore(element: real) returns (admitted: bool)
      requires topScoreQueue.Valid()
      modifies topScoreQueue
      ensures topScoreQueue.Valid()
      ensures Outcome(admitted, topScoreQueue.items) == Admit(old(topScoreQueue.items), element)
    {
      if topScoreQueue.Size() < Capacity {
        topScoreQueue.Add(element);
        return true;
      } else {
        var least := topScoreQueue.Peek();
        if element > least.value {
          var _ := topScoreQueue.Poll();
          topScoreQueue.Add(element);
          return true;
        }
        return false;
      }
    }

    /**
      score: run the admission on the high-token score and return it. The low-token branch
      needs a non-null lowScorerSupplier, which the constructor leaves null and nothing else
      sets, so in every run the result is the high-token score.
     */
    method Score() returns (finalScore: real)
      requires topScoreQueue.Valid() && weight.Valid()
      modifies topScoreQueue, this`lowScorerSupplier, weight`lowScoreTokenWeight
      ensures topScoreQueue.Valid() && weight.Valid()
      ensures topScoreQueue.items == Admit(old(topScoreQueue.items), highScorer.currentScore).queue
      ensures old(lowScorerSupplier).None? ==>
        finalScore == highScorer.currentScore && lowScorerSupplier.None?
        && weight.lowScoreTokenWeight == old(weight.lowScoreTokenWeight)
      ensures old(lowScorerSupplier).Some? && Admit(old(topScoreQueue.items), highScorer.currentScore).admitted ==>
        && (!sup ==> lowScorerSupplier == weight.segments.scorerSupplier(
              LuceneWeight(weight.lowQuery, weight.searcher, weight.scoreMode, weight.boost), weight.context))
        && (sup ==> lowScorerSupplier == old(lowScorerSupplier))
        && finalScore == highScorer.currentScore + (if lowScorerSupplier.Some? then lowScorerSupplier.value.score else 0.0)
    {
      var highTokenScore := highScorer.currentScore;
      finalScore := highTokenScore;
      var admitted := UpdateScore(highTokenScore);
      if admitted && lowScorerSupplier.Some? {
        if !sup {
          lowScorerSupplier := weight.GetLowTokenSS();
        }
        if lowScorerSupplier.Some? {
          var lowScorer := new LeafScorer.Get(lowScorerSupplier.value);
          finalScore := finalScore + lowScorer.currentScore;
        }
      }
    }
  }

  /**
    Scoring documents in turn with scorers that one weight created (one per segment, in
    any order) runs every high-token score through the same queue: admission is shared
    across segments, not reset per segment.
   */
  method ScoreInTurn(w: NeuralSparseQueryWeight, scorers: seq<NeuralSparseScorer>) returns (scores: seq<real>)
    requires w.Valid()
    requires forall i :: 0 <= i < |scorers| ==>
      scorers[i].weight == w && scorers[i].topScoreQueue == w.priorityQueue && scorers[i].lowScorerSupplier.None?
    modifies w`lowScoreTokenWeight, w.priorityQueue, set i | 0 <= i < |scorers| :: scorers[i]
    ensures w.Valid()
    ensures |scores| == |scorers|
    ensures forall i :: 0 <= i < |scorers| ==> scores[i] == scorers[i].highScorer.currentScore
    ensures w.priorityQueue.items == AdmitAll(old(w.priorityQueue.items), scores)
  {
    scores := [];
    ghost var start := w.priorityQueue.items;
    for i := 0 to |scorers|
      invariant w.Valid()
      invariant |scores| == i
      invariant forall j :: 0 <= j < i ==> scores[j] == scorers[j].highScorer.currentScore
      invariant forall j :: 0 <= j < |scorers| ==> scorers[j].lowScorerSupplier.None?
      invariant AdmitAll(start, scores) == w.priorityQueue.items
    {
      var s := scorers[i].Score();
      AdmitAllAppend(start, scores, s);
      scores := scores + [s];
    }
  }

  /** Running the admission on one more score extends AdmitAll by one step. */
  lemma {:induction false} AdmitAllAppend(q: seq<real>, xs: seq<real>, x: real)
    requires Sorted(q)
    ensures AdmitAll(q, xs + [x]) == Admit(AdmitAll(q, xs), x).queue
    decreases |xs|
  {
    if xs != [] {
      assert (xs + [x])[1..] == xs[1..] + [x];
      AdmitAllAppend(Admit(q, xs[0]).queue, xs[1..], x);
    } else {
      assert AdmitAll(Admit(q, x).queue, []) == Admit(q, x).queue;
    }
  }
}
