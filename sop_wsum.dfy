/**
 * The WSUM operator, defined for Indri only: a weighted mean of the
 * arguments' scores, or of their default scores where they are not on the
 * document.  Its weights are the space-separated numbers of the weight
 * string the parser stored on the node; the i-th weight goes with the
 * i-th argument, and each weight is divided by the total of all of them.
 * Double.parseDouble is a function parameter.
 */
module QrySopWsum {
  import opened Support
  import opened RetrievalModels
  import opened QrySop

  /** docIteratorHasMatch: always the union of the arguments, whatever the model. */
  function DocIteratorHasMatch(lists: seq<seq<int>>): (r: Option<int>)
    requires AllAscending(lists)
    ensures IsUnionMatch(lists, r)
  {
    MatchMin(lists)
  }

  // ---------------------------------------------------------------- the weight string

  /** The weight string the parser builds: every numeric token followed by one space. */
  function Join(ts: seq<string>): string
  {
    if ts == [] then "" else ts[0] + " " + Join(ts[1..])
  }

  lemma {:induction false} FieldsOfJoin(ts: seq<string>)
    requires forall i :: 0 <= i < |ts| ==> ' ' !in ts[i]
    ensures Fields(Join(ts), ' ') == ts + [""]
  {
    if ts == [] {
      assert Join(ts) == "";
    } else {
      var t, rest := ts[0], Join(ts[1..]);
      calc {
        Fields(Join(ts), ' ');
        { assert Join(ts) == t + [' '] + rest; }
        Fields(t + [' '] + rest, ' ');
        { FieldsAfterSeparator(t, rest, ' '); }
        [t] + Fields(rest, ' ');
        { FieldsOfJoin(ts[1..]); }
        [t] + (ts[1..] + [""]);
        { assert ts == [t] + ts[1..]; }
        ts + [""];
      }
    }
  }

  /** Splitting the parser's weight string gives back the tokens, in order. */
  lemma SplitJoinRoundTrip(ts: seq<string>)
    requires ts != []
    requires forall i :: 0 <= i < |ts| ==> ts[i] != "" && ' ' !in ts[i]
    ensures Split(Join(ts), ' ') == ts
  {
    var s := Join(ts);
    assert s == ts[0] + " " + Join(ts[1..]);
    assert s[|ts[0]|] == ' ';
    FieldsOfJoin(ts);
    var fs := ts + [""];
    assert DropTrailingEmpty(fs) == DropTrailingEmpty(fs[..|fs| - 1]);
    assert fs[..|fs| - 1] == ts;
  }

  // ---------------------------------------------------------------- weights

  /** Every field of the weight string is accepted by Double.parseDouble. */
  predicate AllParse(nums: seq<string>, parse: string -> Option<real>)
  {
    forall i :: 0 <= i < |nums| ==> parse(nums[i]).Some?
  }

  /**
   * getDoubleWeights: every field of the weight string, parsed.  A field
   * Double.parseDouble rejects is a NumberFormatException; the empty weight
   * string of a #wsum written without weights splits into one empty field.
   */
  function Weights(weightstr: string, parse: string -> Option<real>): (r: Result<seq<real>, ScoreError>)
    ensures r.Ok? <==> AllParse(Split(weightstr, ' '), parse)
    ensures r.Err? ==> r.error == NumberFormat
    ensures r.Ok? ==> |r.value| == |Split(weightstr, ' ')| &&
                      forall i :: 0 <= i < |r.value| ==> parse(Split(weightstr, ' ')[i]) == Some(r.value[i])
  {
    var nums := Split(weightstr, ' ');
    if AllParse(nums, parse) then Ok(seq(|nums|, i requires 0 <= i < |nums| => parse(nums[i]).value))
    else Err(NumberFormat)
  }

  /** The weights of a parser-built weight string are its numeric tokens, parsed, in order. */
  lemma WeightsOfParserString(ts: seq<string>, parse: string -> Option<real>)
    requires ts != []
    requires forall i :: 0 <= i < |ts| ==> ts[i] != "" && ' ' !in ts[i] && parse(ts[i]).Some?
    ensures Weights(Join(ts), parse).Ok? && |Weights(Join(ts), parse).value| == |ts|
    ensures forall i :: 0 <= i < |ts| ==> parse(ts[i]) == Some(Weights(Join(ts), parse).value[i])
  {
    SplitJoinRoundTrip(ts);
  }

  /**
   * A #wsum written without weights keeps the empty weight string, which
   * splits into the single field "": Double.parseDouble("") throws.
   */
  lemma WeightlessWeightsRejected(parse: string -> Option<real>)
    requires parse("") == None
    ensures Weights("", parse) == Err(NumberFormat)
  {
    assert Split("", ' ') == [""];
    assert !AllParse(Split("", ' '), parse) by {
      assert parse(Split("", ' ')[0]) == None;
    }
  }

  method GetDoubleWeights(weightstr: string, parse: string -> Option<real>) returns (numbers: Result<seq<real>, ScoreError>)
    ensures numbers == Weights(weightstr, parse)
  {
    var nums := Split(weightstr, ' ');
    var parsed: seq<real> := [];
    for i := 0 to |nums|
      invariant |parsed| == i && AllParse(nums[..i], parse)
      invariant forall j :: 0 <= j < i ==> parse(nums[j]) == Some(parsed[j])
    {
      var num := parse(nums[i]);
      if num.None? {
        assert !AllParse(nums, parse) by {
          assert parse(nums[i]).None?;
        }
        return Err(NumberFormat);
      }
      assert nums[..i + 1] == nums[..i] + [nums[i]];
      parsed := parsed + [num.value];
    }
    assert nums[..|nums|] == nums;
    ghost var w := Weights(weightstr, parse);
    assert w.Ok? && |w.value| == |parsed|;
    assert forall j :: 0 <= j < |parsed| ==> w.value[j] == parsed[j];
    assert w.value == parsed;
    numbers := Ok(parsed);
  }

  /** getSumWeight: the total of all the weights, with the same NumberFormatException. */
  method GetSumWeight(weightstr: string, parse: string -> Option<real>) returns (sum: Result<real, ScoreError>)
    ensures Weights(weightstr, parse).Ok? ==> sum == Ok(Sum(Weights(weightstr, parse).value))
    ensures Weights(weightstr, parse).Err? ==> sum == Err(NumberFormat)
  {
    var nums := Split(weightstr, ' ');
    ghost var all := seq(|nums|, i requires 0 <= i < |nums| => if parse(nums[i]).Some? then parse(nums[i]).value else 0.0);
    var total := 0.0;
    for i := 0 to |nums|
      invariant total == Sum(all[..i]) && AllParse(nums[..i], parse)
    {
      var num := parse(nums[i]);
      if num.None? {
        assert !AllParse(nums, parse) by {
          assert parse(nums[i]).None?;
        }
        return Err(NumberFormat);
      }
      assert all[..i + 1][..i] == all[..i];
      assert nums[..i + 1] == nums[..i] + [nums[i]];
      total := total + num.value;
    }
    assert all[..|nums|] == all && nums[..|nums|] == nums;
    ghost var w := Weights(weightstr, parse);
    assert w.Ok? && |w.value| == |all|;
    assert forall j :: 0 <= j < |all| ==> w.value[j] == all[j];
    assert w.value == all;
    sum := Ok(total);
  }

  // ---------------------------------------------------------------- scores

  /** Each value scaled by its own weight over the weight total. */
  function WeightedTerms(weights: seq<real>, xs: seq<real>, total: real): (r: seq<real>)
    requires |xs| <= |weights| && (xs != [] ==> total != 0.0)
    ensures |r| == |xs|
    ensures forall i :: 0 <= i < |xs| ==> r[i] == Scaled(weights[i], total, xs[i])
  {
    seq(|xs|, i requires 0 <= i < |xs| => Scaled(weights[i], total, xs[i]))
  }

  /**
   * What the WSUM rules need to avoid a division by zero: when every
   * argument finds its weight, the weights do not add up to zero.
   */
  predicate WeightsUsable(m: RetrievalModel, args: seq<ArgState>, weights: Result<seq<real>, ScoreError>)
  {
    m.Indri? && weights.Ok? && args != [] && |args| <= |weights.value| ==> Sum(weights.value) != 0.0
  }

  /**
   * The WSUM score of the current document.  The weights are read first
   * (a malformed weight string is reported there) and then consumed one per
   * argument; running out of them is an IndexOutOfBounds error.
   */
  function Score(m: RetrievalModel, matched: bool, args: seq<ArgState>, weights: Result<seq<real>, ScoreError>)
    : (r: Result<real, ScoreError>)
    requires WeightsUsable(m, args, weights)
    ensures !m.Indri? ==> r == Err(Unsupported(m, "WSUM"))
    ensures m.Indri? && !matched ==> r == Ok(0.0)
    ensures m.Indri? && matched && weights.Err? ==> r == Err(weights.error)
    ensures m.Indri? && matched && weights.Ok? && |weights.value| < |args| ==> r == Err(IndexOutOfBounds)
    ensures m.Indri? && matched && weights.Ok? && |args| <= |weights.value| ==>
              r == Ok(Sum(WeightedTerms(weights.value, Contributions(args), Sum(weights.value))))
  {
    if !m.Indri? then Err(Unsupported(m, "WSUM"))
    else if !matched then Ok(0.0)
    else if weights.Err? then Err(weights.error)
    else if |weights.value| < |args| then Err(IndexOutOfBounds)
    else Ok(Sum(WeightedTerms(weights.value, Contributions(args), Sum(weights.value))))
  }

  /** getDefaultScore: the same weighted mean over the default scores; Indri only. */
  function DefaultScore(m: RetrievalModel, args: seq<ArgState>, weights: Result<seq<real>, ScoreError>)
    : (r: Result<real, ScoreError>)
    requires WeightsUsable(m, args, weights)
    ensures !m.Indri? ==> r == Err(Unsupported(m, "WSUM"))
    ensures m.Indri? && weights.Err? ==> r == Err(weights.error)
    ensures m.Indri? && weights.Ok? && |weights.value| < |args| ==> r == Err(IndexOutOfBounds)
    ensures m.Indri? && weights.Ok? && |args| <= |weights.value| ==>
              r == Ok(Sum(WeightedTerms(weights.value, DefaultScores(args), Sum(weights.value))))
  {
    if !m.Indri? then Err(Unsupported(m, "WSUM"))
    else if weights.Err? then Err(weights.error)
    else if |weights.value| < |args| then Err(IndexOutOfBounds)
    else Ok(Sum(WeightedTerms(weights.value, DefaultScores(args), Sum(weights.value))))
  }

  /**
   * A #wsum without weights fails with NumberFormatException on every
   * matched document and in every default score, whatever its arguments.
   */
  lemma WeightlessWsumRejected(m: RetrievalModel, args: seq<ArgState>, parse: string -> Option<real>)
    requires m.Indri? && parse("") == None
    ensures WeightsUsable(m, args, Weights("", parse))
    ensures Score(m, true, args, Weights("", parse)) == Err(NumberFormat)
    ensures DefaultScore(m, args, Weights("", parse)) == Err(NumberFormat)
  {
    WeightlessWeightsRejected(parse);
  }

  /** n copies of c. */
  function Constant(n: nat, c: real): (r: seq<real>)
    ensures |r| == n && forall i :: 0 <= i < n ==> r[i] == c
  {
    seq(n, i => c)
  }

  /** Weighting n copies of c scales c by the weights' share of the total. */
  lemma SumOfScaledConstant(weights: seq<real>, total: real, c: real)
    requires total != 0.0
    ensures Sum(WeightedTerms(weights, Constant(|weights|, c), total)) == Scaled(Sum(weights), total, c)
  {
    var terms := WeightedTerms(weights, Constant(|weights|, c), total);
    forall i | 0 <= i < |terms| ensures terms[i] == Scaled(weights[i], total, c) {
      assert Constant(|weights|, c)[i] == c;
    }
    SumScaled(weights, terms, total, c);
  }

  /**
   * With every weight used, WSUM is a weighted mean: when every argument
   * contributes the same value c, the document scores c.
   */
  lemma WeightedMeanOfEqualContributions(args: seq<ArgState>, weights: seq<real>, mu: real, lam: real, c: real)
    requires |args| == |weights| && Sum(weights) != 0.0
    requires forall i :: 0 <= i < |args| ==> Contributions(args)[i] == c
    ensures Score(Indri(mu, lam), true, args, Ok(weights)) == Ok(c)
  {
    var total := Sum(weights);
    assert Contributions(args) == Constant(|weights|, c);
    SumOfScaledConstant(weights, total, c);
    DivSelf(total);
    assert Scaled(total, total, c) == c;
  }

  /** A matched document none of whose arguments is on it scores the default score. */
  lemma UnmatchedArgumentsGiveDefault(m: RetrievalModel, args: seq<ArgState>, weights: Result<seq<real>, ScoreError>)
    requires m.Indri? && WeightsUsable(m, args, weights)
    requires forall i :: 0 <= i < |args| ==> !args[i].matches
    ensures Score(m, true, args, weights) == DefaultScore(m, args, weights)
  {
    assert Contributions(args) == DefaultScores(args);
  }

  /** One step of the weighted accumulation over a prefix. */
  lemma WeightedPrefixStep(weights: seq<real>, xs: seq<real>, total: real, i: nat)
    requires i < |xs| && i < |weights| && total != 0.0
    ensures Sum(WeightedTerms(weights[..i + 1], xs[..i + 1], total)) ==
            Sum(WeightedTerms(weights[..i], xs[..i], total)) + Scaled(weights[i], total, xs[i])
  {
    var next := WeightedTerms(weights[..i + 1], xs[..i + 1], total);
    var prev := WeightedTerms(weights[..i], xs[..i], total);
    assert next[..i] == prev by {
      forall j | 0 <= j < i ensures next[..i][j] == prev[j] {
        assert weights[..i + 1][j] == weights[..i][j] && xs[..i + 1][j] == xs[..i][j];
      }
    }
    assert next[i] == Scaled(weights[i], total, xs[i]);
  }

  /**
   * The weighted accumulation loop shared by getScoreIndri and
   * getDefaultScore: weights are taken from the front of the list and
   * removed, one per value.  With a zero total the source's running sum is
   * an infinity or NaN; the loop then always runs out of weights, so that
   * sum is never returned and the model does not form it.
   */
  method WeightedAccumulate(all: seq<real>, xs: seq<real>, total: real) returns (r: Result<real, ScoreError>)
    requires xs != [] && |xs| <= |all| ==> total != 0.0
    ensures |all| < |xs| ==> r == Err(IndexOutOfBounds)
    ensures |xs| <= |all| ==> r == Ok(Sum(WeightedTerms(all, xs, total)))
  {
    var weights := all;
    var sum := 0.0;
    var i := 0;
    while i < |xs|
      invariant 0 <= i <= |xs| && i <= |all|
      invariant weights == all[i..]
      invariant total != 0.0 ==> sum == Sum(WeightedTerms(all[..i], xs[..i], total))
    {
      if weights == [] {
        return Err(IndexOutOfBounds);
      }
      var weight := weights[0];
      if total != 0.0 {
        WeightedPrefixStep(all, xs, total, i);
        sum := sum + Scaled(weight, total, xs[i]);
      }
      weights := weights[1..];
      i := i + 1;
    }
    assert xs[..i] == xs;
    if xs != [] {
      assert WeightedTerms(all[..i], xs, total) == WeightedTerms(all, xs, total) by {
        var a, b := WeightedTerms(all[..i], xs, total), WeightedTerms(all, xs, total);
        forall j | 0 <= j < i ensures a[j] == b[j] {
          assert all[..i][j] == all[j];
        }
      }
      r := Ok(sum);
    } else {
      r := Ok(0.0);
    }
  }

  /** getScore / getScoreIndri, reading the weights from the weight string. */
  method GetScore(m: RetrievalModel, matched: bool, args: seq<ArgState>, weightstr: string,
                  parse: string -> Option<real>) returns (r: Result<real, ScoreError>)
    requires WeightsUsable(m, args, Weights(weightstr, parse))
    ensures r == Score(m, matched, args, Weights(weightstr, parse))
  {
    if !m.Indri? {
      return Err(Unsupported(m, "WSUM"));
    }
    if !matched {
      return Ok(0.0);
    }
    var weights := GetDoubleWeights(weightstr, parse);
    if weights.Err? {
      return Err(weights.error);
    }
    var total := GetSumWeight(weightstr, parse);
    r := WeightedAccumulate(weights.value, Contributions(args), total.value);
  }

  /** getDefaultScore, reading the weights from the weight string. */
  method GetDefaultScore(m: RetrievalModel, args: seq<ArgState>, weightstr: string,
                         parse: string -> Option<real>) returns (r: Result<real, ScoreError>)
    requires WeightsUsable(m, args, Weights(weightstr, parse))
    ensures r == DefaultScore(m, args, Weights(weightstr, parse))
  {
    if !m.Indri? {
      return Err(Unsupported(m, "WSUM"));
    }
    var weights := GetDoubleWeights(weightstr, parse);
    if weights.Err? {
      return Err(weights.error);
    }
    var total := GetSumWeight(weightstr, parse);
    r := WeightedAccumulate(weights.value, DefaultScores(args), total.value);
  }
}
