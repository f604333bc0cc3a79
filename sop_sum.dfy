/**
 * The SUM operator, defined for BM25 only: it matches any document an
 * argument matches and adds up the scores of the arguments on it.
 */
module QrySopSum {
  import opened Support
  import opened RetrievalModels
  import opened QrySop

  /** docIteratorHasMatch: the union of the arguments. */
  function DocIteratorHasMatch(lists: seq<seq<int>>): (r: Option<int>)
    requires AllAscending(lists)
    ensures IsUnionMatch(lists, r)
  {
    MatchMin(lists)
  }

  /**
   * The SUM score of the current document: the sum over all arguments,
   * an argument that is not on the document counting zero.
   */
  function Score(m: RetrievalModel, matched: bool, args: seq<ArgState>): (r: Result<real, ScoreError>)
    ensures !m.BM25? ==> r == Err(Unsupported(m, "SUM"))
    ensures m.BM25? && !matched ==> r == Ok(0.0)
    ensures m.BM25? && matched ==> r == Ok(Sum(MaskedScores(args)))
  {
    if !m.BM25? then Err(Unsupported(m, "SUM"))
    else if !matched then Ok(0.0)
    else
      MatchingSumIsMaskedSum(args);
      Ok(Sum(MatchingScores(args)))
  }

  /** getDefaultScore: the sum of the arguments' default scores, under every model. */
  function DefaultScore(args: seq<ArgState>): real
  {
    Sum(DefaultScores(args))
  }

  /** With non-negative argument defaults, the SUM default is at least each of them. */
  lemma DefaultAtLeastEachArgument(args: seq<ArgState>, k: nat)
    requires forall i :: 0 <= i < |args| ==> args[i].defaultScore >= 0.0
    requires k < |args|
    ensures 0.0 <= args[k].defaultScore <= DefaultScore(args)
  {
    TermAtMostSum(DefaultScores(args), k);
  }

  /**
   * With non-negative argument scores, a matched document scores at least
   * as much as any argument on it, and never below zero.
   */
  lemma SumAtLeastEachMatchingArgument(args: seq<ArgState>, k: nat)
    requires forall i :: 0 <= i < |args| ==> args[i].score >= 0.0
    requires k < |args| && args[k].matches
    ensures Score(BM25(0.0, 0.0, 0.0), true, args).Ok?
    ensures 0.0 <= args[k].score <= Score(BM25(0.0, 0.0, 0.0), true, args).value
  {
    var masked := MaskedScores(args);
    TermAtMostSum(masked, k);
  }

  /** Scores of arguments that are not on the document do not change the SUM score. */
  lemma NonMatchingScoresIgnored(m: RetrievalModel, matched: bool, args: seq<ArgState>, other: seq<ArgState>)
    requires |args| == |other|
    requires forall i :: 0 <= i < |args| ==> args[i].matches == other[i].matches
    requires forall i :: 0 <= i < |args| && args[i].matches ==> args[i].score == other[i].score
    ensures Score(m, matched, args) == Score(m, matched, other)
  {
    assert MaskedScores(args) == MaskedScores(other);
  }

  /** getScore, with the loop that adds up the scores of the arguments on the document. */
  method GetScore(m: RetrievalModel, matched: bool, args: seq<ArgState>) returns (r: Result<real, ScoreError>)
    ensures r == Score(m, matched, args)
  {
    if !m.BM25? {
      r := Err(Unsupported(m, "SUM"));
    } else if !matched {
      r := Ok(0.0);
    } else {
      var sum := 0.0;
      for i := 0 to |args|
        invariant sum == Sum(MatchingScores(args[..i]))
      {
        assert args[..i + 1][..i] == args[..i];
        if args[i].matches {
          var prefix := MatchingScores(args[..i]);
          assert (prefix + [args[i].score])[..|prefix|] == prefix;
          sum := sum + args[i].score;
        }
      }
      assert args[..|args|] == args;
      MatchingSumIsMaskedSum(args);
      r := Ok(sum);
    }
  }

  /** getDefaultScore, with its accumulation loop. */
  method GetDefaultScore(args: seq<ArgState>) returns (r: real)
    ensures r == DefaultScore(args)
  {
    var sum := 0.0;
    for i := 0 to |args|
      invariant sum == Sum(DefaultScores(args)[..i])
    {
      assert DefaultScores(args)[..i + 1][..i] == DefaultScores(args)[..i];
      sum := sum + args[i].defaultScore;
    }
    assert DefaultScores(args)[..|args|] == DefaultScores(args);
    r := sum;
  }
}
