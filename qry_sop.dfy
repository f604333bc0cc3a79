/**
 * What the score operators share (the QrySop base class): the view of one
 * argument at the current document, the errors a score computation
 * raises, and the two document-matching rules.
 *
 * An argument's document iterator is modelled by the ascending docids it
 * has not yet passed.  The "match min" rule matches the smallest current
 * docid of any argument (a union of the arguments); the "match all" rule
 * matches the smallest docid every argument holds (an intersection).
 */
module QrySop {
  import opened Support
  import opened RetrievalModels

  /**
   * One argument at the current document: whether its iterator has a match
   * and that match is the operator's current docid, and the score and the
   * default score it gives there.
   */
  datatype ArgState = ArgState(matches: bool, score: real, defaultScore: real)

  datatype ScoreError =
    | Unsupported(model: RetrievalModel, operator: string)  // IllegalArgumentException
    | NoSuchElement                                           // Collections.min/max of an empty list
    | IndexOutOfBounds                                        // a weight list used up
    | NumberFormat                                            // Double.parseDouble of a malformed weight

  /** The arguments' scores, in argument order. */
  function Scores(args: seq<ArgState>): (r: seq<real>)
    ensures |r| == |args| && forall i :: 0 <= i < |args| ==> r[i] == args[i].score
  {
    seq(|args|, i requires 0 <= i < |args| => args[i].score)
  }

  /** The arguments' default scores, in argument order. */
  function DefaultScores(args: seq<ArgState>): (r: seq<real>)
    ensures |r| == |args| && forall i :: 0 <= i < |args| ==> r[i] == args[i].defaultScore
  {
    seq(|args|, i requires 0 <= i < |args| => args[i].defaultScore)
  }

  /** The scores of the arguments that match the current docid, in argument order. */
  function MatchingScores(args: seq<ArgState>): (r: seq<real>)
    ensures |r| <= |args|
    ensures forall i :: 0 <= i < |args| && args[i].matches ==> args[i].score in r
    ensures forall x :: x in r ==> exists i :: 0 <= i < |args| && args[i].matches && args[i].score == x
    ensures r == [] <==> forall i :: 0 <= i < |args| ==> !args[i].matches
  {
    if args == [] then []
    else
      var init := MatchingScores(args[..|args| - 1]);
      assert forall i :: 0 <= i < |args| - 1 ==> args[..|args| - 1][i] == args[i];
      if args[|args| - 1].matches then init + [args[|args| - 1].score] else init
  }

  /** Each argument's contribution under Indri: its score where it matches, else its default. */
  function Contributions(args: seq<ArgState>): (r: seq<real>)
    ensures |r| == |args|
    ensures forall i :: 0 <= i < |args| ==>
              r[i] == if args[i].matches then args[i].score else args[i].defaultScore
  {
    seq(|args|, i requires 0 <= i < |args| => if args[i].matches then args[i].score else args[i].defaultScore)
  }

  /** Every score with non-matching arguments' scores masked to zero. */
  function MaskedScores(args: seq<ArgState>): (r: seq<real>)
    ensures |r| == |args|
    ensures forall i :: 0 <= i < |args| ==> r[i] == if args[i].matches then args[i].score else 0.0
  {
    seq(|args|, i requires 0 <= i < |args| => if args[i].matches then args[i].score else 0.0)
  }

  /** Summing the matching scores is summing all scores with the others counted as zero. */
  lemma {:induction false} MatchingSumIsMaskedSum(args: seq<ArgState>)
    ensures Sum(MatchingScores(args)) == Sum(MaskedScores(args))
    decreases |args|
  {
    if args != [] {
      var init := args[..|args| - 1];
      MatchingSumIsMaskedSum(init);
      assert MaskedScores(args)[..|args| - 1] == MaskedScores(init);
      if args[|args| - 1].matches {
        SumAppend(MatchingScores(init), [args[|args| - 1].score]);
      }
    }
  }

  // ---------------------------------------------------------------- matching

  predicate Ascending(docs: seq<int>)
  {
    forall i, j :: 0 <= i < j < |docs| ==> docs[i] < docs[j]
  }

  predicate AllAscending(lists: seq<seq<int>>)
  {
    forall k :: 0 <= k < |lists| ==> Ascending(lists[k])
  }

  /** d is still ahead of some argument's iterator. */
  ghost predicate InSome(lists: seq<seq<int>>, d: int)
  {
    exists k :: 0 <= k < |lists| && d in lists[k]
  }

  /** d is still ahead of every argument's iterator. */
  predicate InEvery(lists: seq<seq<int>>, d: int)
  {
    |lists| > 0 && forall k :: 0 <= k < |lists| ==> d in lists[k]
  }

  /** The union rule's answer: the least docid any argument still holds, if any. */
  ghost predicate IsUnionMatch(lists: seq<seq<int>>, r: Option<int>)
  {
    (r.None? <==> forall d :: !InSome(lists, d)) &&
    (r.Some? ==> InSome(lists, r.value) && forall d :: InSome(lists, d) ==> r.value <= d)
  }

  /** The intersection rule's answer: the least docid every argument still holds, if any. */
  ghost predicate IsIntersectionMatch(lists: seq<seq<int>>, r: Option<int>)
  {
    (r.None? <==> forall d :: !InEvery(lists, d)) &&
    (r.Some? ==> InEvery(lists, r.value) && forall d :: InEvery(lists, d) ==> r.value <= d)
  }

  function MinOption(a: Option<int>, b: Option<int>): Option<int>
  {
    if a.None? then b else if b.None? then a
    else if a.value <= b.value then a else b
  }

  /** The first remaining docid of one argument; the smallest, as the list ascends. */
  function Head(docs: seq<int>): (r: Option<int>)
    requires Ascending(docs)
    ensures r.None? <==> docs == []
    ensures r.Some? ==> r.value in docs && forall d :: d in docs ==> r.value <= d
  {
    if docs == [] then None
    else
      assert forall j :: 0 < j < |docs| ==> docs[0] < docs[j];
      Some(docs[0])
  }

  /** docIteratorHasMatchMin: the smallest head among the arguments' remaining docids. */
  function MatchMin(lists: seq<seq<int>>): (r: Option<int>)
    requires AllAscending(lists)
    ensures IsUnionMatch(lists, r)
    decreases |lists|
  {
    if lists == [] then None
    else
      UnionSplit(lists);
      MinOption(Head(lists[0]), MatchMin(lists[1..]))
  }

  lemma UnionSplit(lists: seq<seq<int>>)
    requires lists != []
    ensures forall d :: InSome(lists, d) <==> d in lists[0] || InSome(lists[1..], d)
  {
    forall d
      ensures InSome(lists, d) <==> d in lists[0] || InSome(lists[1..], d)
    {
      if InSome(lists[1..], d) {
        var k :| 0 <= k < |lists| - 1 && d in lists[1..][k];
        assert d in lists[k + 1];
      }
      if InSome(lists, d) && d !in lists[0] {
        var k :| 0 <= k < |lists| && d in lists[k];
        assert d in lists[1..][k - 1];
      }
    }
  }

  /** The first docid of the first argument that every argument holds (docIteratorHasMatchAll). */
  function FirstCommon(lists: seq<seq<int>>, from: nat): (r: Option<int>)
    requires lists != [] && from <= |lists[0]|
    ensures r.Some? ==> InEvery(lists, r.value) &&
                        exists j :: from <= j < |lists[0]| && lists[0][j] == r.value &&
                                    forall i :: from <= i < j ==> !InEvery(lists, lists[0][i])
    ensures r.None? ==> forall i :: from <= i < |lists[0]| ==> !InEvery(lists, lists[0][i])
    decreases |lists[0]| - from
  {
    if from == |lists[0]| then None
    else if InEvery(lists, lists[0][from]) then Some(lists[0][from])
    else FirstCommon(lists, from + 1)
  }

  function MatchAll(lists: seq<seq<int>>): (r: Option<int>)
    requires lists != [] && AllAscending(lists)
    ensures IsIntersectionMatch(lists, r)
  {
    FirstCommonIsLeast(lists);
    FirstCommon(lists, 0)
  }

  lemma FirstCommonIsLeast(lists: seq<seq<int>>)
    requires lists != [] && AllAscending(lists)
    ensures IsIntersectionMatch(lists, FirstCommon(lists, 0))
  {
    var r := FirstCommon(lists, 0);
    assert forall d :: InEvery(lists, d) ==> d in lists[0];
    if r.Some? {
      var j :| 0 <= j < |lists[0]| && lists[0][j] == r.value &&
               forall i :: 0 <= i < j ==> !InEvery(lists, lists[0][i]);
      forall d | InEvery(lists, d)
        ensures r.value <= d
      {
        var i :| 0 <= i < |lists[0]| && lists[0][i] == d;
        assert !(i < j);
        assert i == j || lists[0][j] < lists[0][i];
      }
    }
  }
}
