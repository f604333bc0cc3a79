/**
 * The SCORE operator: it turns the inverted list of its single argument
 * into document scores, with one rule per retrieval model.  The index
 * statistics it reads (collection size, document frequency, collection
 * term frequency, field lengths) are parameters here, and Math.log is a
 * function parameter.
 */
module QrySopScore {
  import opened Support
  import opened RetrievalModels
  import opened QrySop

  /** Index statistics for the argument's field. */
  datatype FieldStats = FieldStats(numDocs: nat, sumOfFieldLengths: nat, docCount: nat)

  /** Statistics of the argument's inverted list. */
  datatype TermStats = TermStats(df: nat, ctf: nat)

  /** The posting the argument's iterator is on: its tf and that document's field length. */
  datatype MatchedPosting = MatchedPosting(tf: nat, docLength: nat)

  /**
   * docIteratorHasMatch: the match of the first (and only) argument, the
   * least docid its iterator still holds.
   */
  function DocIteratorHasMatch(lists: seq<seq<int>>): (r: Option<int>)
    requires lists != [] && AllAscending(lists)
    ensures r.None? <==> lists[0] == []
    ensures r.Some? ==> r.value in lists[0] && forall d :: d in lists[0] ==> r.value <= d
  {
    Head(lists[0])
  }

  // ---------------------------------------------------------------- boolean models

  function UnrankedBooleanScore(matched: bool): (r: real)
    ensures r == 1.0 <==> matched
    ensures r == 0.0 <==> !matched
  {
    if matched then 1.0 else 0.0
  }

  function RankedBooleanScore(matched: bool, p: MatchedPosting): (r: real)
    ensures r >= 0.0
    ensures !matched ==> r == 0.0
    ensures matched ==> r == p.tf as real
  {
    if matched then p.tf as real else 0.0
  }

  // ---------------------------------------------------------------- BM25

  /** The Robertson/Sparck-Jones weight, floored at zero. */
  function Rsj(numDocs: nat, df: nat, log: real -> real): (r: real)
    ensures r >= 0.0
    ensures r >= log((numDocs as real - df as real + 0.5) / (df as real + 0.5))
    ensures r == 0.0 || r == log((numDocs as real - df as real + 0.5) / (df as real + 0.5))
  {
    var idf := log((numDocs as real - df as real + 0.5) / (df as real + 0.5));
    if 0.0 >= idf then 0.0 else idf
  }

  /** The document-length normaliser of the tf weight: k1·((1−b) + b·len/avgLen). */
  function LengthNorm(k1: real, b: real, docLength: nat, f: FieldStats): real
    requires f.docCount != 0 && f.sumOfFieldLengths != 0
  {
    var avgDocLength := f.sumOfFieldLengths as real / f.docCount as real;
    k1 * ((1.0 - b) + b * (docLength as real / avgDocLength))
  }

  function TfWeight(tf: real, norm: real): real
    requires tf + norm != 0.0
  {
    tf / (tf + norm)
  }

  /** The user weight (k3+1)·qtf/(k3+qtf) at qtf = 1, which the source writes as (k3+1)/(k3+1). */
  function UserWeight(k3: real): (r: real)
    requires k3 + 1.0 != 0.0
    ensures r == 1.0
  {
    DivSelf(k3 + 1.0);
    (k3 + 1.0) / (k3 + 1.0)
  }

  /** What BM25 needs to avoid a division by zero. */
  predicate BM25Defined(k1: real, b: real, k3: real, p: MatchedPosting, f: FieldStats)
  {
    f.docCount != 0 && f.sumOfFieldLengths != 0 && k3 + 1.0 != 0.0 &&
    p.tf as real + LengthNorm(k1, b, p.docLength, f) != 0.0
  }

  function BM25Score(k1: real, b: real, k3: real, matched: bool, p: MatchedPosting,
                     t: TermStats, f: FieldStats, log: real -> real): (r: real)
    requires matched ==> BM25Defined(k1, b, k3, p, f)
    ensures !matched ==> r == 0.0
    ensures matched ==>
              r == Rsj(f.numDocs, t.df, log) * TfWeight(p.tf as real, LengthNorm(k1, b, p.docLength, f))
  {
    if !matched then 0.0
    else
      Rsj(f.numDocs, t.df, log) * TfWeight(p.tf as real, LengthNorm(k1, b, p.docLength, f)) * UserWeight(k3)
  }

  /** With a positive length normaliser the tf weight lies in [0, 1). */
  lemma TfWeightBounds(tf: real, norm: real)
    requires tf >= 0.0 && norm > 0.0
    ensures 0.0 <= TfWeight(tf, norm) < 1.0
  {
    DivNonNegative(tf, tf + norm);
    DivBelowOne(tf, tf + norm);
  }

  /** With a positive length normaliser the tf weight grows with tf. */
  lemma TfWeightIncreasing(tf1: real, tf2: real, norm: real)
    requires 0.0 <= tf1 < tf2 && norm > 0.0
    ensures TfWeight(tf1, norm) < TfWeight(tf2, norm)
  {
    var d1, d2 := tf1 + norm, tf2 + norm;
    DivSelf(d1);
    DivSelf(d2);
    assert tf1 / d1 == d1 / d1 - norm / d1;
    assert tf2 / d2 == d2 / d2 - norm / d2;
    DivByLarger(norm, d1, d2);
  }

  /** A BM25 score is never negative when the length normaliser is not. */
  lemma BM25NonNegative(k1: real, b: real, k3: real, matched: bool, p: MatchedPosting,
                        t: TermStats, f: FieldStats, log: real -> real)
    requires matched ==> BM25Defined(k1, b, k3, p, f)
    requires matched ==> LengthNorm(k1, b, p.docLength, f) >= 0.0
    ensures BM25Score(k1, b, k3, matched, p, t, f, log) >= 0.0
  {
    if matched {
      var norm := LengthNorm(k1, b, p.docLength, f);
      var w := TfWeight(p.tf as real, norm);
      DivNonNegative(p.tf as real, p.tf as real + norm);
      assert Rsj(f.numDocs, t.df, log) * w >= 0.0;
    }
  }

  // ---------------------------------------------------------------- Indri

  predicate IndriDefined(mu: real, docLength: nat, f: FieldStats)
  {
    f.sumOfFieldLengths != 0 && docLength as real + mu != 0.0
  }

  /** The maximum-likelihood estimate of the term in the collection. */
  function Mle(t: TermStats, f: FieldStats): real
    requires f.sumOfFieldLengths != 0
  {
    t.ctf as real / f.sumOfFieldLengths as real
  }

  /** Two-stage smoothing: Dirichlet prior mu, then linear interpolation with lam. */
  function IndriScore(mu: real, lam: real, tf: nat, docLength: nat, t: TermStats, f: FieldStats): real
    requires IndriDefined(mu, docLength, f)
  {
    (1.0 - lam) * (tf as real + mu * Mle(t, f)) / (docLength as real + mu) + lam * Mle(t, f)
  }

  /** The score a document gets when it does not contain the term. */
  function IndriDefaultScore(mu: real, lam: real, docLength: nat, t: TermStats, f: FieldStats): (r: real)
    requires IndriDefined(mu, docLength, f)
    ensures r == IndriScore(mu, lam, 0, docLength, t, f)
  {
    (1.0 - lam) * (mu * Mle(t, f)) / (docLength as real + mu) + lam * Mle(t, f)
  }

  /** With lam below 1 and a positive smoothed length, more occurrences give a higher score. */
  lemma IndriIncreasingInTf(mu: real, lam: real, tf1: nat, tf2: nat, docLength: nat, t: TermStats, f: FieldStats)
    requires IndriDefined(mu, docLength, f)
    requires lam < 1.0 && docLength as real + mu > 0.0 && tf1 < tf2
    ensures IndriScore(mu, lam, tf1, docLength, t, f) < IndriScore(mu, lam, tf2, docLength, t, f)
  {
    var m := Mle(t, f);
    var d := docLength as real + mu;
    var x1, x2 := (1.0 - lam) * (tf1 as real + mu * m), (1.0 - lam) * (tf2 as real + mu * m);
    assert x2 - x1 == (1.0 - lam) * (tf2 as real - tf1 as real);
    MulPositive(1.0 - lam, tf2 as real - tf1 as real);
    DivStrictlyMonotonic(x1, x2, d);
  }

  // ---------------------------------------------------------------- dispatch

  /** What the model's score rule needs to avoid a division by zero. */
  predicate ScoreDefined(m: RetrievalModel, matched: bool, p: MatchedPosting, f: FieldStats)
  {
    match m
    case BM25(k1, b, k3) => matched ==> BM25Defined(k1, b, k3, p, f)
    case Indri(mu, _) => IndriDefined(mu, p.docLength, f)
    case _ => true
  }

  /**
   * getScore.  matched is docIteratorHasMatchCache; the Indri rule reads
   * the posting without consulting it.  Letor is not supported.
   */
  function GetScore(m: RetrievalModel, matched: bool, p: MatchedPosting, t: TermStats, f: FieldStats,
                    log: real -> real): (r: Result<real, ScoreError>)
    requires ScoreDefined(m, matched, p, f)
    ensures r.Err? <==> m.Letor?
    ensures r.Err? ==> r.error == Unsupported(m, "SCORE")
    ensures m.UnrankedBoolean? ==> r == Ok(UnrankedBooleanScore(matched))
    ensures m.RankedBoolean? ==> r == Ok(RankedBooleanScore(matched, p))
    ensures m.BM25? ==> r == Ok(BM25Score(m.k1, m.b, m.k3, matched, p, t, f, log))
    ensures m.Indri? ==> r == Ok(IndriScore(m.mu, m.lam, p.tf, p.docLength, t, f))
  {
    match m
    case UnrankedBoolean => Ok(UnrankedBooleanScore(matched))
    case RankedBoolean => Ok(RankedBooleanScore(matched, p))
    case BM25(k1, b, k3) => Ok(BM25Score(k1, b, k3, matched, p, t, f, log))
    case Indri(mu, lam) => Ok(IndriScore(mu, lam, p.tf, p.docLength, t, f))
    case Letor(_, _, _, _, _) => Err(Unsupported(m, "SCORE"))
  }

  /** getDefaultScore: Indri smooths a missing term; every other model gives 0. */
  function GetDefaultScore(m: RetrievalModel, docLength: nat, t: TermStats, f: FieldStats): (r: real)
    requires m.Indri? ==> IndriDefined(m.mu, docLength, f)
    ensures m.Indri? ==> r == IndriScore(m.mu, m.lam, 0, docLength, t, f)
    ensures !m.Indri? ==> r == 0.0
  {
    if m.Indri? then IndriDefaultScore(m.mu, m.lam, docLength, t, f) else 0.0
  }

  /** Under Indri a document holding the term outscores its own default score. */
  lemma IndriMatchBeatsDefault(m: RetrievalModel, p: MatchedPosting, t: TermStats, f: FieldStats, log: real -> real)
    requires m.Indri? && IndriDefined(m.mu, p.docLength, f)
    requires m.lam < 1.0 && p.docLength as real + m.mu > 0.0 && p.tf > 0
    ensures GetScore(m, true, p, t, f, log).Ok?
    ensures GetDefaultScore(m, p.docLength, t, f) < GetScore(m, true, p, t, f, log).value
  {
    IndriIncreasingInTf(m.mu, m.lam, 0, p.tf, p.docLength, t, f);
  }
}
