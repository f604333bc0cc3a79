/**
 * The OR operator: it matches any document an argument matches, and is
 * defined for the two boolean models only.  Under the ranked boolean model
 * a document scores the highest score among the arguments on it.
 */
module QrySopOr {
  import opened Support
  import opened RetrievalModels
  import opened QrySop

  /** docIteratorHasMatch: always the union of the arguments. */
  function DocIteratorHasMatch(lists: seq<seq<int>>): (r: Option<int>)
    requires AllAscending(lists)
    ensures IsUnionMatch(lists, r)
  {
    MatchMin(lists)
  }

  predicate SomeArgumentMatches(args: seq<ArgState>)
  {
    exists i :: 0 <= i < |args| && args[i].matches
  }

  /**
   * The OR score of the current document.  With no argument on the
   * document, Collections.max raises NoSuchElement.
   */
  function Score(m: RetrievalModel, matched: bool, args: seq<ArgState>): (r: Result<real, ScoreError>)
    ensures !(m.UnrankedBoolean? || m.RankedBoolean?) ==> r == Err(Unsupported(m, "OR"))
    ensures m.UnrankedBoolean? ==> r == Ok(if matched then 1.0 else 0.0)
    ensures m.RankedBoolean? && !matched ==> r == Ok(0.0)
    ensures m.RankedBoolean? && matched && !SomeArgumentMatches(args) ==> r == Err(NoSuchElement)
    ensures m.RankedBoolean? && matched && SomeArgumentMatches(args) ==>
              r.Ok? &&
              (exists i :: 0 <= i < |args| && args[i].matches && r.value == args[i].score) &&
              forall i :: 0 <= i < |args| && args[i].matches ==> args[i].score <= r.value
  {
    if m.UnrankedBoolean? then Ok(if matched then 1.0 else 0.0)
    else if m.RankedBoolean? then
      if !matched then Ok(0.0)
      else
        var ctfs := MatchingScores(args);
        if ctfs == [] then Err(NoSuchElement)
        else
          assert forall i :: 0 <= i < |args| && args[i].matches ==> args[i].score <= MaxReal(ctfs) by {
            forall i | 0 <= i < |args| && args[i].matches
              ensures args[i].score <= MaxReal(ctfs)
            {
              var j :| 0 <= j < |ctfs| && ctfs[j] == args[i].score;
            }
          }
          Ok(MaxReal(ctfs))
    else Err(Unsupported(m, "OR"))
  }

  /** getDefaultScore: an OR gives nothing to a document it does not match, under every model. */
  function DefaultScore(m: RetrievalModel): (r: real)
    ensures r == 0.0
  {
    0.0
  }

  /**
   * At the document the union rule matches, some argument is on that
   * document; so with each argument's flag read off its own iterator, the
   * ranked score never reaches the empty-list error.
   */
  lemma RankedOrAtUnionMatch(lists: seq<seq<int>>, d: int, args: seq<ArgState>)
    requires AllAscending(lists) && DocIteratorHasMatch(lists) == Some(d)
    requires |args| == |lists|
    requires forall k :: 0 <= k < |lists| ==> (args[k].matches <==> lists[k] != [] && lists[k][0] == d)
    ensures Score(RankedBoolean, true, args).Ok?
  {
    var k :| 0 <= k < |lists| && d in lists[k];
    assert InSome(lists, lists[k][0]);
    assert Ascending(lists[k]);
    assert args[k].matches;
  }

  /** getScore, with the loop that collects the scores of the arguments on the document. */
  method GetScore(m: RetrievalModel, matched: bool, args: seq<ArgState>) returns (r: Result<real, ScoreError>)
    ensures r == Score(m, matched, args)
  {
    if m.UnrankedBoolean? {
      r := Ok(if matched then 1.0 else 0.0);
    } else if m.RankedBoolean? {
      if !matched {
        r := Ok(0.0);
      } else {
        var ctfs: seq<real> := [];
        for i := 0 to |args|
          invariant ctfs == MatchingScores(args[..i])
        {
          assert args[..i + 1][..i] == args[..i];
          if args[i].matches {
            ctfs := ctfs + [args[i].score];
          }
        }
        assert args[..|args|] == args;
        if ctfs == [] {
          r := Err(NoSuchElement);
        } else {
          r := Ok(MaxReal(ctfs));
        }
      }
    } else {
      r := Err(Unsupported(m, "OR"));
    }
  }
}
