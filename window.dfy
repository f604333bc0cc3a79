/**
 * The #WINDOW/n proximity operator. For each document that every child
 * holds, the children's current positions form a candidate window: when its
 * span (largest minus smallest) is below n the largest position is recorded
 * and every position cursor advances; otherwise the child holding the
 * smallest position advances. The scan ends as soon as any child runs out
 * of positions. Unlike #NEAR, the order of the children does not matter.
 */
module QryIopWindow {
  import opened Support
  import opened InvLists

  /** Positions not yet visited, summed over the children: the scan's termination measure. */
  function Remaining(P: seq<seq<int>>, cur: seq<nat>, i: nat): nat
    requires PosCursorsOk(P, cur) && i <= |P|
    decreases |P| - i
  {
    if i == |P| then 0 else (|P[i]| - cur[i]) + Remaining(P, cur, i + 1)
  }

  /** Moving cursors forward never increases the measure, and moving one strictly decreases it. */
  lemma {:induction false} RemainingDecreases(P: seq<seq<int>>, cur: seq<nat>, next: seq<nat>, i: nat)
    requires PosCursorsOk(P, cur) && PosCursorsOk(P, next) && i <= |P|
    requires forall j :: i <= j < |P| ==> cur[j] <= next[j]
    ensures Remaining(P, next, i) <= Remaining(P, cur, i)
    ensures (exists j :: i <= j < |P| && cur[j] < next[j]) ==> Remaining(P, next, i) < Remaining(P, cur, i)
    decreases |P| - i
  {
    if i < |P| {
      RemainingDecreases(P, cur, next, i + 1);
    }
  }

  /** The children's current positions (the source's qryloc list). */
  function Current(P: seq<seq<int>>, cur: seq<nat>): (q: seq<int>)
    requires PosCursorsOk(P, cur) && !Exhausted(P, cur)
    ensures |q| == |P| && forall i :: 0 <= i < |P| ==> q[i] == P[i][cur[i]]
  {
    seq(|P|, i requires 0 <= i < |P| => P[i][cur[i]])
  }

  /** The current positions span fewer than n words. */
  predicate Fits(P: seq<seq<int>>, n: int, cur: seq<nat>)
    requires |P| >= 1 && PosCursorsOk(P, cur) && !Exhausted(P, cur)
  {
    MaxInt(Current(P, cur)) - MinInt(Current(P, cur)) < n
  }

  /** The first child holding the smallest current position (List.indexOf of the minimum). */
  function Lagging(P: seq<seq<int>>, cur: seq<nat>): (k: nat)
    requires |P| >= 1 && PosCursorsOk(P, cur) && !Exhausted(P, cur)
    ensures k < |P| && P[k][cur[k]] == MinInt(Current(P, cur))
    ensures forall j :: 0 <= j < k ==> P[j][cur[j]] != P[k][cur[k]]
  {
    IndexOf(Current(P, cur), MinInt(Current(P, cur)))
  }

  /** After a failed window only the lagging child's cursor advances. */
  function AdvanceLagging(P: seq<seq<int>>, cur: seq<nat>): (next: seq<nat>)
    requires |P| >= 1 && PosCursorsOk(P, cur) && !Exhausted(P, cur)
    ensures PosCursorsOk(P, next) && Remaining(P, next, 0) < Remaining(P, cur, 0)
    ensures next == cur[Lagging(P, cur) := cur[Lagging(P, cur)] + 1]
  {
    var k := Lagging(P, cur);
    var next := cur[k := cur[k] + 1];
    RemainingDecreases(P, cur, next, 0);
    next
  }

  lemma AdvanceAllDecreases(P: seq<seq<int>>, cur: seq<nat>)
    requires |P| >= 1 && PosCursorsOk(P, cur) && !Exhausted(P, cur)
    ensures PosCursorsOk(P, AdvanceAll(cur)) && Remaining(P, AdvanceAll(cur), 0) < Remaining(P, cur, 0)
  {
    RemainingDecreases(P, cur, AdvanceAll(cur), 0);
  }

  /**
   * The location scan for one document, from position cursors cur: it stops
   * when a child has no position left; a window that fits records its
   * largest position and advances every cursor, one that does not advances
   * the lagging child.
   */
  function WindowLoop(P: seq<seq<int>>, n: int, cur: seq<nat>): seq<int>
    requires |P| >= 1 && PosCursorsOk(P, cur)
    decreases Remaining(P, cur, 0)
  {
    if Exhausted(P, cur) then []
    else if Fits(P, n, cur) then
      AdvanceAllDecreases(P, cur);
      [MaxInt(Current(P, cur))] + WindowLoop(P, n, AdvanceAll(cur))
    else
      WindowLoop(P, n, AdvanceLagging(P, cur))
  }

  /** The locations #WINDOW/n records for one document whose children have position lists P. */
  function WindowLocations(P: seq<seq<int>>, n: int): seq<int>
  {
    if |P| < 2 then [] else WindowLoop(P, n, Zeros(|P|))
  }

  /** Gathers every child's current position; fails as soon as one child has none left. */
  method CollectPositions(P: seq<seq<int>>, cur: seq<nat>) returns (locMatch: bool, qryloc: seq<int>)
    requires PosCursorsOk(P, cur)
    ensures locMatch <==> !Exhausted(P, cur)
    ensures locMatch ==> qryloc == Current(P, cur)
  {
    qryloc := [];
    locMatch := true;
    var i := 0;
    while i < |P|
      invariant 0 <= i <= |P|
      invariant |qryloc| == i && forall j :: 0 <= j < i ==> cur[j] < |P[j]| && qryloc[j] == P[j][cur[j]]
    {
      if cur[i] >= |P[i]| {
        locMatch := false;
        return;
      }
      qryloc := qryloc + [P[i][cur[i]]];
      i := i + 1;
    }
  }

  /**
   * After a recorded window every child's cursor advances in turn, stopping
   * at the first child that has run out of positions.
   */
  method AdvanceWhileMatching(P: seq<seq<int>>, cur0: seq<nat>) returns (locMatch: bool, cur: seq<nat>)
    requires |P| >= 1 && PosCursorsOk(P, cur0) && !Exhausted(P, cur0)
    ensures PosCursorsOk(P, cur)
    ensures forall j :: 0 <= j < |P| ==> cur0[j] <= cur[j] && cur[j] <= cur0[j] + 1
    ensures cur[0] == cur0[0] + 1
    ensures locMatch <==> !Exhausted(P, AdvanceAll(cur0))
    ensures locMatch ==> cur == AdvanceAll(cur0)
    ensures Remaining(P, cur, 0) < Remaining(P, cur0, 0)
  {
    cur := cur0;
    locMatch := true;
    var k := 0;
    while k < |P|
      invariant 0 <= k <= |P| && |cur| == |P|
      invariant forall j :: 0 <= j < k ==> cur[j] == cur0[j] + 1 && cur[j] < |P[j]|
      invariant forall j :: k <= j < |P| ==> cur[j] == cur0[j]
    {
      cur := cur[k := cur[k] + 1];
      if cur[k] >= |P[k]| {
        locMatch := false;
        assert AdvanceAll(cur0)[k] >= |P[k]|;
        RemainingDecreases(P, cur0, cur, 0);
        return;
      }
      k := k + 1;
    }
    RemainingDecreases(P, cur0, cur, 0);
  }

  lemma FitsStep(P: seq<seq<int>>, n: int, cur: seq<nat>)
    requires |P| >= 1 && PosCursorsOk(P, cur) && !Exhausted(P, cur) && Fits(P, n, cur)
    ensures PosCursorsOk(P, AdvanceAll(cur)) && Remaining(P, AdvanceAll(cur), 0) < Remaining(P, cur, 0)
    ensures WindowLoop(P, n, cur) == [MaxInt(Current(P, cur))] + WindowLoop(P, n, AdvanceAll(cur))
  {
    AdvanceAllDecreases(P, cur);
  }

  lemma MissStep(P: seq<seq<int>>, n: int, cur: seq<nat>)
    requires |P| >= 1 && PosCursorsOk(P, cur) && !Exhausted(P, cur) && !Fits(P, n, cur)
    ensures WindowLoop(P, n, cur) == WindowLoop(P, n, AdvanceLagging(P, cur))
  {
  }

  lemma ExhaustedStep(P: seq<seq<int>>, n: int, cur: seq<nat>)
    requires |P| >= 1 && PosCursorsOk(P, cur) && Exhausted(P, cur)
    ensures WindowLoop(P, n, cur) == []
  {
  }

  /** A window that fits, stated over the gathered positions: its largest position is recorded first. */
  lemma RecordStep(P: seq<seq<int>>, n: int, cur: seq<nat>, qryloc: seq<int>, locations: seq<int>, spec: seq<int>)
    requires |P| >= 1 && PosCursorsOk(P, cur) && !Exhausted(P, cur) && qryloc == Current(P, cur)
    requires MaxInt(qryloc) - MinInt(qryloc) < n
    requires locations + WindowLoop(P, n, cur) == spec
    ensures PosCursorsOk(P, AdvanceAll(cur))
    ensures (locations + [MaxInt(qryloc)]) + WindowLoop(P, n, AdvanceAll(cur)) == spec
  {
    FitsStep(P, n, cur);
    var tail := WindowLoop(P, n, AdvanceAll(cur));
    assert locations + [MaxInt(qryloc)] + tail == locations + ([MaxInt(qryloc)] + tail);
  }

  /** A window that does not fit, stated over the gathered positions: the lagging child advances. */
  lemma SkipStep(P: seq<seq<int>>, n: int, cur: seq<nat>, qryloc: seq<int>, index: int)
    requires |P| >= 1 && PosCursorsOk(P, cur) && !Exhausted(P, cur) && qryloc == Current(P, cur)
    requires MaxInt(qryloc) - MinInt(qryloc) >= n && index == IndexOf(qryloc, MinInt(qryloc))
    ensures 0 <= index < |P| && PosCursorsOk(P, cur[index := cur[index] + 1])
    ensures Remaining(P, cur[index := cur[index] + 1], 0) < Remaining(P, cur, 0)
    ensures WindowLoop(P, n, cur) == WindowLoop(P, n, cur[index := cur[index] + 1])
  {
    assert index == Lagging(P, cur);
    assert !Fits(P, n, cur);
    var next := AdvanceLagging(P, cur);
    assert next == cur[index := cur[index] + 1];
    MissStep(P, n, cur);
  }

  /** The location scan for one candidate document, as the source's loops run it. */
  method MatchWindow(P: seq<seq<int>>, distance: int) returns (locations: seq<int>)
    requires |P| >= 2
    ensures locations == WindowLocations(P, distance)
  {
    var cur: seq<nat> := Zeros(|P|);
    locations := [];
    var locMatch := true;
    while locMatch
      invariant PosCursorsOk(P, cur)
      invariant locations + (if locMatch then WindowLoop(P, distance, cur) else []) == WindowLocations(P, distance)
      decreases Remaining(P, cur, 0), if locMatch then 1 else 0
    {
      var qryloc;
      locMatch, qryloc := CollectPositions(P, cur);
      if !locMatch {
        ExhaustedStep(P, distance, cur);
      } else {
        var minloc := MinInt(qryloc);
        var maxloc := MaxInt(qryloc);
        if maxloc - minloc < distance {
          ghost var scanned := cur;
          RecordStep(P, distance, cur, qryloc, locations, WindowLocations(P, distance));
          locations := locations + [maxloc];
          locMatch, cur := AdvanceWhileMatching(P, cur);
          if !locMatch {
            ExhaustedStep(P, distance, AdvanceAll(scanned));
          }
        } else {
          var index := IndexOf(qryloc, minloc);
          SkipStep(P, distance, cur, qryloc, index);
          cur := cur[index := cur[index] + 1];
        }
      }
    }
  }

  /** The matcher #WINDOW/n applies to each candidate document. */
  function WindowMatcher(n: int): seq<seq<int>> -> seq<int>
  {
    P => WindowLocations(P, n)
  }

  /**
   * QryIopWindow.evaluate: the same document candidacy as #NEAR, with the
   * window scan deciding which locations a shared document contributes.
   */
  method EvaluateWindow(lists: seq<InvList>, distance: int) returns (r: Option<InvList>)
    requires AllDocsAscending(lists)
    ensures |lists| <= 1 ==> r == None
    ensures |lists| >= 2 ==> r == Some(Synthesize(lists, WindowMatcher(distance), |lists[0]|))
  {
    if |lists| <= 1 {
      return None;
    }
    var invertedList: InvList := [];
    var cur: seq<nat> := Zeros(|lists|);
    DocLoopStart(lists, WindowMatcher(distance));
    while cur[0] < |lists[0]|
      invariant DocLoopState(lists, WindowMatcher(distance), cur, invertedList)
      decreases |lists[0]| - cur[0]
    {
      cur, invertedList := WindowDocStep(lists, distance, cur, invertedList);
    }
    r := Some(invertedList);
  }

  /**
   * One pass of the document loop: the first child's current document is
   * aligned across the children; a document every child holds is scanned,
   * kept when it has locations, and every document cursor advances; a
   * rejected document advances only the first child's cursor.
   */
  method WindowDocStep(lists: seq<InvList>, distance: int, cur: seq<nat>, invertedList: InvList)
    returns (next: seq<nat>, built: InvList)
    requires |lists| >= 2 && AllDocsAscending(lists)
    requires DocLoopState(lists, WindowMatcher(distance), cur, invertedList) && cur[0] < |lists[0]|
    ensures DocLoopState(lists, WindowMatcher(distance), next, built) && next[0] == cur[0] + 1
  {
    var docid := lists[0][cur[0]].docid;
    var docMatch, aligned := AlignOnFirst(lists, cur);
    if docMatch {
      var P := CursorPositions(lists, aligned);
      var locations := MatchWindow(P, distance);
      AcceptStep(lists, WindowMatcher(distance), cur, aligned, invertedList, locations);
      built := invertedList;
      if locations != [] {
        built := built + [Posting(docid, locations)];
      }
      next := AdvanceAll(aligned);
    } else {
      RejectStep(lists, WindowMatcher(distance), cur, aligned, invertedList);
      built := invertedList;
      next := aligned[0 := aligned[0] + 1];
    }
  }

  // ------------------------------------------------------------ properties

  /** A window for #WINDOW/n: one position per child, spanning fewer than n words, ending at last. */
  predicate WindowWitness(P: seq<seq<int>>, n: int, c: seq<int>, last: int)
  {
    |c| == |P| && |P| >= 1
    && (forall i :: 0 <= i < |P| ==> c[i] in P[i])
    && MaxInt(c) == last && MaxInt(c) - MinInt(c) < n
  }

  /** Every location the scan records is the end of a window of span below n. */
  lemma {:induction false} WindowLoopSound(P: seq<seq<int>>, n: int, cur: seq<nat>)
    requires |P| >= 1 && PosCursorsOk(P, cur)
    ensures forall x :: x in WindowLoop(P, n, cur) ==> exists c :: WindowWitness(P, n, c, x)
    decreases Remaining(P, cur, 0)
  {
    if !Exhausted(P, cur) {
      if Fits(P, n, cur) {
        AdvanceAllDecreases(P, cur);
        WindowLoopSound(P, n, AdvanceAll(cur));
        var q := Current(P, cur);
        assert forall i :: 0 <= i < |P| ==> q[i] in P[i];
        assert WindowWitness(P, n, q, MaxInt(q));
      } else {
        WindowLoopSound(P, n, AdvanceLagging(P, cur));
      }
    }
  }

  /** Soundness of #WINDOW/n: each recorded location ends a window of span below n. */
  lemma WindowLocationsSound(P: seq<seq<int>>, n: int)
    ensures forall x :: x in WindowLocations(P, n) ==> exists c :: WindowWitness(P, n, c, x)
  {
    if |P| >= 2 {
      WindowLoopSound(P, n, Zeros(|P|));
    }
  }

  predicate AllStrictlyIncreasing(P: seq<seq<int>>)
  {
    forall i :: 0 <= i < |P| ==> StrictlyIncreasing(P[i])
  }

  /** No recorded location lies before a child's current position. */
  predicate NotBeforeCursors(P: seq<seq<int>>, cur: seq<nat>, r: seq<int>)
    requires PosCursorsOk(P, cur)
  {
    forall i, k :: 0 <= i < |P| && cur[i] < |P[i]| && 0 <= k < |r| ==> P[i][cur[i]] <= r[k]
  }

  /** Advancing cursors over ascending lists moves every current position forward. */
  lemma NotBeforeAdvanced(P: seq<seq<int>>, cur: seq<nat>, next: seq<nat>, r: seq<int>)
    requires PosCursorsOk(P, cur) && PosCursorsOk(P, next) && AllStrictlyIncreasing(P)
    requires forall i :: 0 <= i < |P| ==> cur[i] <= next[i]
    requires r != [] ==> !Exhausted(P, next)
    requires NotBeforeCursors(P, next, r)
    ensures NotBeforeCursors(P, cur, r)
  {
    forall i, k | 0 <= i < |P| && cur[i] < |P[i]| && 0 <= k < |r| ensures P[i][cur[i]] <= r[k] {
      assert next[i] < |P[i]|;
      assert P[i][cur[i]] <= P[i][next[i]];
    }
  }

  lemma ConsIncreasing(hi: int, tail: seq<int>)
    requires StrictlyIncreasing(tail) && forall k :: 0 <= k < |tail| ==> hi < tail[k]
    ensures StrictlyIncreasing([hi] + tail)
  {
  }

  lemma ConsNotBefore(P: seq<seq<int>>, cur: seq<nat>, hi: int, tail: seq<int>)
    requires PosCursorsOk(P, cur) && NotBeforeCursors(P, cur, tail)
    requires forall i :: 0 <= i < |P| && cur[i] < |P[i]| ==> P[i][cur[i]] <= hi
    ensures NotBeforeCursors(P, cur, [hi] + tail)
  {
  }

  /** The next recorded location lies beyond the largest current position. */
  lemma TailAfterMax(P: seq<seq<int>>, n: int, cur: seq<nat>)
    requires |P| >= 1 && PosCursorsOk(P, cur) && !Exhausted(P, cur) && AllStrictlyIncreasing(P)
    requires PosCursorsOk(P, AdvanceAll(cur))
    requires NotBeforeCursors(P, AdvanceAll(cur), WindowLoop(P, n, AdvanceAll(cur)))
    ensures forall k :: 0 <= k < |WindowLoop(P, n, AdvanceAll(cur))| ==> MaxInt(Current(P, cur)) < WindowLoop(P, n, AdvanceAll(cur))[k]
  {
    var next := AdvanceAll(cur);
    var tail := WindowLoop(P, n, next);
    if tail != [] {
      if Exhausted(P, next) {
        ExhaustedStep(P, n, next);
      }
      var q := Current(P, cur);
      var j := IndexOf(q, MaxInt(q));
      assert P[j][cur[j]] < P[j][next[j]];
    }
  }

  /** A recorded window keeps the scan ascending and not before the cursors. */
  lemma FitKeepsOrder(P: seq<seq<int>>, n: int, cur: seq<nat>)
    requires |P| >= 1 && PosCursorsOk(P, cur) && !Exhausted(P, cur) && Fits(P, n, cur) && AllStrictlyIncreasing(P)
    requires PosCursorsOk(P, AdvanceAll(cur))
    requires StrictlyIncreasing(WindowLoop(P, n, AdvanceAll(cur)))
    requires NotBeforeCursors(P, AdvanceAll(cur), WindowLoop(P, n, AdvanceAll(cur)))
    ensures StrictlyIncreasing(WindowLoop(P, n, cur)) && NotBeforeCursors(P, cur, WindowLoop(P, n, cur))
  {
    var next := AdvanceAll(cur);
    FitsStep(P, n, cur);
    var tail := WindowLoop(P, n, next);
    TailAfterMax(P, n, cur);
    var hi := MaxInt(Current(P, cur));
    ConsIncreasing(hi, tail);
    if tail != [] && Exhausted(P, next) {
      ExhaustedStep(P, n, next);
    }
    NotBeforeAdvanced(P, cur, next, tail);
    ConsNotBefore(P, cur, hi, tail);
  }

  /** Advancing the lagging child keeps the scan not before the cursors. */
  lemma MissKeepsOrder(P: seq<seq<int>>, n: int, cur: seq<nat>)
    requires |P| >= 1 && PosCursorsOk(P, cur) && !Exhausted(P, cur) && !Fits(P, n, cur) && AllStrictlyIncreasing(P)
    requires StrictlyIncreasing(WindowLoop(P, n, AdvanceLagging(P, cur)))
    requires NotBeforeCursors(P, AdvanceLagging(P, cur), WindowLoop(P, n, AdvanceLagging(P, cur)))
    ensures StrictlyIncreasing(WindowLoop(P, n, cur)) && NotBeforeCursors(P, cur, WindowLoop(P, n, cur))
  {
    var next := AdvanceLagging(P, cur);
    MissStep(P, n, cur);
    var tail := WindowLoop(P, n, next);
    if tail != [] && Exhausted(P, next) {
      ExhaustedStep(P, n, next);
    }
    NotBeforeAdvanced(P, cur, next, tail);
  }

  /** With ascending children, the scan records strictly ascending locations. */
  lemma {:induction false} WindowLoopIncreasing(P: seq<seq<int>>, n: int, cur: seq<nat>)
    requires |P| >= 1 && PosCursorsOk(P, cur) && AllStrictlyIncreasing(P)
    ensures StrictlyIncreasing(WindowLoop(P, n, cur))
    ensures NotBeforeCursors(P, cur, WindowLoop(P, n, cur))
    decreases Remaining(P, cur, 0)
  {
    if Exhausted(P, cur) {
      ExhaustedStep(P, n, cur);
    } else if Fits(P, n, cur) {
      AdvanceAllDecreases(P, cur);
      WindowLoopIncreasing(P, n, AdvanceAll(cur));
      FitKeepsOrder(P, n, cur);
    } else {
      WindowLoopIncreasing(P, n, AdvanceLagging(P, cur));
      MissKeepsOrder(P, n, cur);
    }
  }

  /** With ascending children, #WINDOW/n yields a strictly ascending location list. */
  lemma WindowLocationsIncreasing(P: seq<seq<int>>, n: int)
    requires AllStrictlyIncreasing(P)
    ensures StrictlyIncreasing(WindowLocations(P, n))
  {
    if |P| >= 2 {
      WindowLoopIncreasing(P, n, Zeros(|P|));
    }
  }

  /** Three terms within a span of three words match #WINDOW/3, recording the last of them. */
  lemma WindowFitsExample()
    ensures WindowLocations([[5], [6], [7]], 3) == [7]
  {
    var z := Zeros(3);
    var A := [[5], [6], [7]];
    assert Current(A, z) == [5, 6, 7];
    assert [5, 6, 7][..2] == [5, 6] && [5, 6][..1] == [5];
    FitsStep(A, 3, z);
    assert AdvanceAll(z)[0] >= |A[0]|;
    ExhaustedStep(A, 3, AdvanceAll(z));
  }

  /** The children's order does not matter to #WINDOW. */
  lemma WindowUnorderedExample()
    ensures WindowLocations([[7], [5], [6]], 3) == [7]
  {
    var z := Zeros(3);
    var B := [[7], [5], [6]];
    assert Current(B, z) == [7, 5, 6];
    assert [7, 5, 6][..2] == [7, 5] && [7, 5][..1] == [7];
    FitsStep(B, 3, z);
    assert AdvanceAll(z)[0] >= |B[0]|;
    ExhaustedStep(B, 3, AdvanceAll(z));
  }

  /** Terms spread over five words do not match #WINDOW/3. */
  lemma WindowTooWideExample()
    ensures WindowLocations([[5], [6], [9]], 3) == []
  {
    var z := Zeros(3);
    var C := [[5], [6], [9]];
    assert Current(C, z) == [5, 6, 9];
    assert [5, 6, 9][..2] == [5, 6] && [5, 6][..1] == [5];
    assert !Fits(C, 3, z);
    MissStep(C, 3, z);
    assert AdvanceLagging(C, z)[0] >= |C[0]|;
    ExhaustedStep(C, 3, AdvanceLagging(C, z));
  }
}
