/**
 * The AND operator.  Under Indri it matches any document an argument
 * matches and combines the arguments' scores, or their default scores
 * where they do not match, by a geometric mean; under the other models it
 * matches only documents every argument matches and takes the least
 * argument score.  Math.pow is a function parameter.
 */
module QrySopAnd {
  import opened Support
  import opened RetrievalModels
  import opened QrySop

  /** docIteratorHasMatch: a union of the arguments under Indri, an intersection otherwise. */
  function DocIteratorHasMatch(m: RetrievalModel, lists: seq<seq<int>>): (r: Option<int>)
    requires lists != [] && AllAscending(lists)
    ensures m.Indri? ==> IsUnionMatch(lists, r)
    ensures !m.Indri? ==> IsIntersectionMatch(lists, r)
  {
    if m.Indri? then MatchMin(lists) else MatchAll(lists)
  }

  /** The geometric mean the Indri rule takes: pow(product, 1/n). */
  function GeometricMean(xs: seq<real>, pow: (real, real) -> real): real
    requires xs != []
  {
    pow(Product(xs), 1.0 / |xs| as real)
  }

  /**
   * The AND score of the current document.  matched is the operator's own
   * cached match; each argument says whether it is on the same docid.
   */
  function Score(m: RetrievalModel, matched: bool, args: seq<ArgState>, pow: (real, real) -> real): (r: Result<real, ScoreError>)
    requires args != []
    ensures r.Err? <==> m.Letor?
    ensures r.Err? ==> r.error == Unsupported(m, "AND")
    ensures r.Ok? && !matched ==> r.value == 0.0
    ensures m.UnrankedBoolean? && matched ==> r == Ok(1.0)
    ensures (m.RankedBoolean? || m.BM25?) && matched ==>
              r.Ok? && (exists i :: 0 <= i < |args| && r.value == args[i].score) &&
              forall i :: 0 <= i < |args| ==> r.value <= args[i].score
    ensures m.Indri? && matched ==> r == Ok(GeometricMean(Contributions(args), pow))
  {
    match m
    case UnrankedBoolean => Ok(if matched then 1.0 else 0.0)
    case RankedBoolean => Ok(if matched then MinReal(Scores(args)) else 0.0)
    case BM25(_, _, _) => Ok(if matched then MinReal(Scores(args)) else 0.0)
    case Indri(_, _) => Ok(if matched then GeometricMean(Contributions(args), pow) else 0.0)
    case Letor(_, _, _, _, _) => Err(Unsupported(m, "AND"))
  }

  /** getDefaultScore: the geometric mean of the arguments' default scores under Indri, else 0. */
  function DefaultScore(m: RetrievalModel, args: seq<ArgState>, pow: (real, real) -> real): (r: real)
    requires args != []
    ensures m.Indri? ==> r == GeometricMean(DefaultScores(args), pow)
    ensures !m.Indri? ==> r == 0.0
  {
    if m.Indri? then GeometricMean(DefaultScores(args), pow) else 0.0
  }

  /**
   * Under Indri, a matched document none of whose arguments is on it
   * scores exactly the default score.
   */
  lemma IndriUnmatchedArgumentsGiveDefault(m: RetrievalModel, args: seq<ArgState>, pow: (real, real) -> real)
    requires m.Indri? && args != []
    requires forall i :: 0 <= i < |args| ==> !args[i].matches
    ensures Score(m, true, args, pow) == Ok(DefaultScore(m, args, pow))
  {
    assert Contributions(args) == DefaultScores(args);
  }

  /** Under the ranked models the AND score is the score of a weakest argument. */
  lemma RankedAndIsWeakestArgument(m: RetrievalModel, args: seq<ArgState>, pow: (real, real) -> real, k: nat)
    requires (m.RankedBoolean? || m.BM25?) && k < |args|
    requires forall i :: 0 <= i < |args| ==> args[k].score <= args[i].score
    ensures Score(m, true, args, pow) == Ok(args[k].score)
  {
    var r := Score(m, true, args, pow);
    var i :| 0 <= i < |args| && r.value == args[i].score;
    assert r.value <= args[k].score && args[k].score <= args[i].score;
  }

  /** getScore, with the loops that collect the argument scores and multiply the contributions. */
  method GetScore(m: RetrievalModel, matched: bool, args: seq<ArgState>, pow: (real, real) -> real)
    returns (r: Result<real, ScoreError>)
    requires args != []
    ensures r == Score(m, matched, args, pow)
  {
    if m.UnrankedBoolean? {
      r := Ok(if matched then 1.0 else 0.0);
    } else if m.RankedBoolean? || m.BM25? {
      if !matched {
        r := Ok(0.0);
      } else {
        var ctfs: seq<real> := [];
        for i := 0 to |args|
          invariant ctfs == Scores(args)[..i]
        {
          ctfs := ctfs + [args[i].score];
        }
        assert ctfs == Scores(args);
        r := Ok(MinReal(ctfs));
      }
    } else if m.Indri? {
      if !matched {
        r := Ok(0.0);
      } else {
        var produce := 1.0;
        for i := 0 to |args|
          invariant produce == Product(Contributions(args)[..i])
        {
          assert Contributions(args)[..i + 1][..i] == Contributions(args)[..i];
          if args[i].matches {
            produce := produce * args[i].score;
          } else {
            produce := produce * args[i].defaultScore;
          }
        }
        assert Contributions(args)[..|args|] == Contributions(args);
        r := Ok(pow(produce, 1.0 / |args| as real));
      }
    } else {
      r := Err(Unsupported(m, "AND"));
    }
  }

  /** getDefaultScore, with the loop that multiplies the default scores. */
  method GetDefaultScore(m: RetrievalModel, args: seq<ArgState>, pow: (real, real) -> real) returns (r: real)
    requires args != []
    ensures r == DefaultScore(m, args, pow)
  {
    if m.Indri? {
      var defaultScore := 1.0;
      for i := 0 to |args|
        invariant defaultScore == Product(DefaultScores(args)[..i])
      {
        assert DefaultScores(args)[..i + 1][..i] == DefaultScores(args)[..i];
        defaultScore := defaultScore * args[i].defaultScore;
      }
      assert DefaultScores(args)[..|args|] == DefaultScores(args);
      r := pow(defaultScore, 1.0 / |args| as real);
    } else {
      r := 0.0;
    }
  }
}
