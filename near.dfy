/**
 * The #NEAR/n proximity operator. For each document that every child holds,
 * a greedy scan over the children's position lists collects locations: each
 * location of the first child, in turn, anchors a chain in which every later
 * child contributes its first position after the previous link, no more than
 * n words further on; the last link of a complete chain is recorded and every
 * child's position cursor steps past its link.
 */
module QryIopNear {
  import opened Support
  import opened InvLists

  /** The first index at or after c whose position lies beyond anchor. */
  function SkipTo(ps: seq<int>, c: nat, anchor: int): (r: nat)
    requires c <= |ps|
    ensures c <= r <= |ps|
    ensures forall j :: c <= j < r ==> ps[j] <= anchor
    ensures r < |ps| ==> ps[r] > anchor
    decreases |ps| - c
  {
    if c == |ps| || ps[c] > anchor then c else SkipTo(ps, c + 1, anchor)
  }

  /** Outcome of one chain attempt: whether it completed, the cursors it left, its last link. */
  datatype Scan = Scan(ok: bool, cur: seq<nat>, anchor: int)

  /**
   * One chain attempt from child i onwards, the previous link being anchor:
   * child i's cursor skips every position not after the anchor; the attempt
   * fails when the child is exhausted or its next position is more than n
   * beyond the anchor, and otherwise that position becomes the anchor.
   */
  function ScanFrom(P: seq<seq<int>>, n: int, cur: seq<nat>, i: nat, anchor: int): (s: Scan)
    requires PosCursorsOk(P, cur) && 1 <= i <= |P|
    ensures PosCursorsOk(P, s.cur)
    ensures forall k :: 0 <= k < |P| ==> cur[k] <= s.cur[k]
    ensures forall k :: 0 <= k < i ==> s.cur[k] == cur[k]
    ensures s.ok ==> forall k :: i <= k < |P| ==> s.cur[k] < |P[k]|
    ensures s.ok && i < |P| ==> s.anchor == P[|P| - 1][s.cur[|P| - 1]]
    ensures s.ok && i == |P| ==> s.anchor == anchor
    decreases |P| - i
  {
    if i == |P| then Scan(true, cur, anchor)
    else
      var c := SkipTo(P[i], cur[i], anchor);
      if c == |P[i]| || P[i][c] - anchor > n then Scan(false, cur[i := c], anchor)
      else ScanFrom(P, n, cur[i := c], i + 1, P[i][c])
  }

  /**
   * The location loop for one document: queue holds the first child's
   * locations not yet tried as a chain start (the list the source pops from),
   * cur the position cursors. A completed chain records its last link and
   * advances every cursor; the loop then ends if some child ran out of
   * positions, and otherwise drops the tried start. A failed chain only
   * drops the tried start.
   */
  function NearLoop(P: seq<seq<int>>, n: int, queue: seq<int>, cur: seq<nat>): seq<int>
    requires |P| >= 2 && PosCursorsOk(P, cur) && cur[0] + |queue| <= |P[0]|
    decreases |queue|
  {
    if queue == [] then []
    else
      var s := ScanFrom(P, n, cur, 1, queue[0]);
      if s.ok then
        var next := AdvanceAll(s.cur);
        [s.anchor] + NearLoop(P, n, if Exhausted(P, next) then [] else queue[1..], next)
      else
        NearLoop(P, n, queue[1..], s.cur)
  }

  /** A completed chain: its last link is recorded ahead of the loop over the advanced cursors. */
  lemma NearLoopOk(P: seq<seq<int>>, n: int, queue: seq<int>, cur: seq<nat>, anchor: int, scanned: seq<nat>,
                   next: seq<nat>, rest: seq<int>)
    requires |P| >= 2 && PosCursorsOk(P, cur) && cur[0] + |queue| <= |P[0]| && queue != []
    requires ScanFrom(P, n, cur, 1, queue[0]) == Scan(true, scanned, anchor)
    requires next == AdvanceAll(scanned) && rest == if Exhausted(P, next) then [] else queue[1..]
    ensures PosCursorsOk(P, next) && next[0] + |rest| <= |P[0]|
    ensures NearLoop(P, n, queue, cur) == [anchor] + NearLoop(P, n, rest, next)
  {
  }

  /** A failed chain: the tried start is dropped and the loop goes on from the cursors the scan left. */
  lemma NearLoopFail(P: seq<seq<int>>, n: int, queue: seq<int>, cur: seq<nat>, anchor: int, scanned: seq<nat>)
    requires |P| >= 2 && PosCursorsOk(P, cur) && cur[0] + |queue| <= |P[0]| && queue != []
    requires ScanFrom(P, n, cur, 1, queue[0]) == Scan(false, scanned, anchor)
    ensures PosCursorsOk(P, scanned) && scanned[0] + |queue[1..]| <= |P[0]|
    ensures NearLoop(P, n, queue, cur) == NearLoop(P, n, queue[1..], scanned)
  {
  }

  /** The locations #NEAR/n records for one document whose children have position lists P. */
  function NearLocations(P: seq<seq<int>>, n: int): seq<int>
  {
    if |P| < 2 then [] else NearLoop(P, n, P[0], Zeros(|P|))
  }

  /** A position not after the anchor is skipped: stepping past it leaves the attempt unchanged. */
  lemma ScanSkip(P: seq<seq<int>>, n: int, cur: seq<nat>, i: nat, anchor: int)
    requires PosCursorsOk(P, cur) && 1 <= i < |P| && cur[i] < |P[i]| && P[i][cur[i]] <= anchor
    ensures ScanFrom(P, n, cur[i := cur[i] + 1], i, anchor) == ScanFrom(P, n, cur, i, anchor)
  {
    var c := SkipTo(P[i], cur[i], anchor);
    assert cur[i := cur[i] + 1][i := c] == cur[i := c];
  }

  /** The first position after the anchor ends the attempt when it is too far, and otherwise becomes the anchor. */
  lemma ScanStop(P: seq<seq<int>>, n: int, cur: seq<nat>, i: nat, anchor: int)
    requires PosCursorsOk(P, cur) && 1 <= i < |P| && cur[i] < |P[i]| && P[i][cur[i]] > anchor
    ensures P[i][cur[i]] - anchor > n ==> ScanFrom(P, n, cur, i, anchor) == Scan(false, cur, anchor)
    ensures P[i][cur[i]] - anchor <= n ==> ScanFrom(P, n, cur, i, anchor) == ScanFrom(P, n, cur, i + 1, P[i][cur[i]])
  {
    assert cur[i := cur[i]] == cur;
  }

  /** A child whose positions are used up ends the attempt. */
  lemma ScanExhausted(P: seq<seq<int>>, n: int, cur: seq<nat>, i: nat, anchor: int)
    requires PosCursorsOk(P, cur) && 1 <= i < |P| && cur[i] == |P[i]|
    ensures ScanFrom(P, n, cur, i, anchor) == Scan(false, cur, anchor)
  {
    assert cur[i := cur[i]] == cur;
  }

  /**
   * One chain attempt as the source's loop over children 1.. runs it: the
   * result is exactly the attempt ScanFrom describes.
   */
  method ScanChain(P: seq<seq<int>>, distance: int, cur0: seq<nat>, start: int)
    returns (locMatch: bool, firstloc: int, cur: seq<nat>)
    requires |P| >= 2 && PosCursorsOk(P, cur0)
    ensures Scan(locMatch, cur, firstloc) == ScanFrom(P, distance, cur0, 1, start)
  {
    ghost var scan := ScanFrom(P, distance, cur0, 1, start);
    cur := cur0;
    locMatch := true;
    firstloc := start;
    var i := 1;
    while i < |P|
      invariant 1 <= i <= |P| && PosCursorsOk(P, cur)
      invariant locMatch && ScanFrom(P, distance, cur, i, firstloc) == scan
      decreases |P| - i
    {
      while cur[i] < |P[i]|
        invariant PosCursorsOk(P, cur)
        invariant locMatch && ScanFrom(P, distance, cur, i, firstloc) == scan
        decreases |P[i]| - cur[i]
      {
        if firstloc >= P[i][cur[i]] {
          ScanSkip(P, distance, cur, i, firstloc);
          cur := cur[i := cur[i] + 1];
        } else {
          ScanStop(P, distance, cur, i, firstloc);
          if P[i][cur[i]] - firstloc > distance {
            locMatch := false;
          } else {
            firstloc := P[i][cur[i]];
            locMatch := true;
          }
          break;
        }
      }
      if !locMatch || cur[i] >= |P[i]| {
        if locMatch {
          ScanExhausted(P, distance, cur, i, firstloc);
        }
        locMatch := false;
        return;
      }
      i := i + 1;
    }
  }

  /**
   * After a recorded location every child's position cursor advances; the
   * result also says whether some child has run out of positions.
   */
  method AdvanceLocations(P: seq<seq<int>>, cur0: seq<nat>) returns (cur: seq<nat>, exhausted: bool)
    requires |cur0| == |P|
    ensures cur == AdvanceAll(cur0)
    ensures exhausted == Exhausted(P, cur)
  {
    cur := cur0;
    exhausted := false;
    var k := 0;
    while k < |P|
      invariant 0 <= k <= |P| && |cur| == |P|
      invariant forall j :: 0 <= j < k ==> cur[j] == cur0[j] + 1
      invariant forall j :: k <= j < |P| ==> cur[j] == cur0[j]
      invariant exhausted <==> exists j :: 0 <= j < k && cur[j] >= |P[j]|
    {
      cur := cur[k := cur[k] + 1];
      if cur[k] >= |P[k]| {
        exhausted := true;
      }
      k := k + 1;
    }
  }

  /**
   * One pass of the location loop: a chain is attempted from the first
   * remaining location of the first child; a completed chain gives its last
   * link and advances every cursor (ending the loop when a child runs out),
   * a failed one only drops the tried start.
   */
  method NearAttempt(P: seq<seq<int>>, distance: int, iniloc: seq<int>, cur: seq<nat>)
    returns (found: seq<int>, rest: seq<int>, next: seq<nat>)
    requires |P| >= 2 && PosCursorsOk(P, cur) && cur[0] + |iniloc| <= |P[0]| && iniloc != []
    ensures PosCursorsOk(P, next) && next[0] + |rest| <= |P[0]| && |rest| < |iniloc|
    ensures NearLoop(P, distance, iniloc, cur) == found + NearLoop(P, distance, rest, next)
  {
    var locMatch, firstloc, scanned := ScanChain(P, distance, cur, iniloc[0]);
    if locMatch {
      var exhausted;
      next, exhausted := AdvanceLocations(P, scanned);
      rest := if exhausted then [] else iniloc[1..];
      NearLoopOk(P, distance, iniloc, cur, firstloc, scanned, next, rest);
      found := [firstloc];
    } else {
      NearLoopFail(P, distance, iniloc, cur, firstloc, scanned);
      found, rest, next := [], iniloc[1..], scanned;
    }
  }

  /** The greedy location scan for one candidate document, as the source's nested loops run it. */
  method MatchNear(P: seq<seq<int>>, distance: int) returns (locations: seq<int>)
    requires |P| >= 2
    ensures locations == NearLocations(P, distance)
  {
    var iniloc := P[0];
    var cur: seq<nat> := Zeros(|P|);
    ghost var all := NearLocations(P, distance);
    locations := [];
    while iniloc != []
      invariant PosCursorsOk(P, cur) && cur[0] + |iniloc| <= |P[0]|
      invariant locations + NearLoop(P, distance, iniloc, cur) == all
      decreases |iniloc|
    {
      var found, rest, next := NearAttempt(P, distance, iniloc, cur);
      ghost var tail := NearLoop(P, distance, rest, next);
      assert locations + found + tail == locations + (found + tail);
      locations := locations + found;
      iniloc, cur := rest, next;
    }
  }

  /** The matcher #NEAR/n applies to each candidate document. */
  function NearMatcher(n: int): seq<seq<int>> -> seq<int>
  {
    P => NearLocations(P, n)
  }

  /**
   * QryIopNear.evaluate: with fewer than two children no list is built;
   * otherwise the first child's documents are taken in turn, a document
   * every child holds is scanned for locations and kept when it has any
   * (then every child's document cursor advances), and a rejected document
   * advances only the first child's cursor.
   */
  method EvaluateNear(lists: seq<InvList>, distance: int) returns (r: Option<InvList>)
    requires AllDocsAscending(lists)
    ensures |lists| <= 1 ==> r == None
    ensures |lists| >= 2 ==> r == Some(Synthesize(lists, NearMatcher(distance), |lists[0]|))
  {
    if |lists| <= 1 {
      return None;
    }
    var invertedList: InvList := [];
    var cur: seq<nat> := Zeros(|lists|);
    DocLoopStart(lists, NearMatcher(distance));
    while cur[0] < |lists[0]|
      invariant DocLoopState(lists, NearMatcher(distance), cur, invertedList)
      decreases |lists[0]| - cur[0]
    {
      cur, invertedList := NearDocStep(lists, distance, cur, invertedList);
    }
    r := Some(invertedList);
  }

  /**
   * One pass of the document loop: the first child's current document is
   * aligned across the children; a document every child holds is scanned,
   * kept when it has locations, and every document cursor advances; a
   * rejected document advances only the first child's cursor.
   */
  method NearDocStep(lists: seq<InvList>, distance: int, cur: seq<nat>, invertedList: InvList)
    returns (next: seq<nat>, built: InvList)
    requires |lists| >= 2 && AllDocsAscending(lists)
    requires DocLoopState(lists, NearMatcher(distance), cur, invertedList) && cur[0] < |lists[0]|
    ensures DocLoopState(lists, NearMatcher(distance), next, built) && next[0] == cur[0] + 1
  {
    var docid := lists[0][cur[0]].docid;
    var docMatch, aligned := AlignOnFirst(lists, cur);
    if docMatch {
      var P := CursorPositions(lists, aligned);
      var locations := MatchNear(P, distance);
      AcceptStep(lists, NearMatcher(distance), cur, aligned, invertedList, locations);
      built := invertedList;
      if locations != [] {
        built := built + [Posting(docid, locations)];
      }
      next := AdvanceAll(aligned);
    } else {
      RejectStep(lists, NearMatcher(distance), cur, aligned, invertedList);
      built := invertedList;
      next := aligned[0 := aligned[0] + 1];
    }
  }

  // ------------------------------------------------------------ properties

  /**
   * A chain for #NEAR/n: one position per child, each strictly after the
   * previous one and at most n further on.
   */
  predicate NearChain(P: seq<seq<int>>, n: int, c: seq<int>)
  {
    |c| == |P| && |P| >= 1
    && (forall i :: 0 <= i < |P| ==> c[i] in P[i])
    && (forall i :: 1 <= i < |P| ==> c[i - 1] < c[i] <= c[i - 1] + n)
  }

  lemma {:induction false} ScanFromChain(P: seq<seq<int>>, n: int, cur: seq<nat>, i: nat, anchor: int, c: seq<int>)
    returns (full: seq<int>)
    requires PosCursorsOk(P, cur) && 1 <= i <= |P|
    requires |c| == i && c[i - 1] == anchor && forall k :: 0 <= k < i ==> c[k] in P[k]
    requires forall k :: 1 <= k < i ==> c[k - 1] < c[k] <= c[k - 1] + n
    ensures ScanFrom(P, n, cur, i, anchor).ok ==> NearChain(P, n, full) && full[|P| - 1] == ScanFrom(P, n, cur, i, anchor).anchor
    decreases |P| - i
  {
    if i == |P| {
      full := c;
    } else {
      var cc := SkipTo(P[i], cur[i], anchor);
      if cc == |P[i]| || P[i][cc] - anchor > n {
        full := c;
      } else {
        full := ScanFromChain(P, n, cur[i := cc], i + 1, P[i][cc], c + [P[i][cc]]);
      }
    }
  }

  /** Every location the loop records ends a #NEAR/n chain through all children. */
  lemma {:induction false} NearLoopSound(P: seq<seq<int>>, n: int, queue: seq<int>, cur: seq<nat>)
    requires |P| >= 2 && PosCursorsOk(P, cur) && cur[0] + |queue| <= |P[0]|
    requires forall x :: x in queue ==> x in P[0]
    ensures forall loc :: loc in NearLoop(P, n, queue, cur) ==> exists c :: NearChain(P, n, c) && c[|P| - 1] == loc
    decreases |queue|
  {
    if queue != [] {
      var s := ScanFrom(P, n, cur, 1, queue[0]);
      if s.ok {
        var full := ScanFromChain(P, n, cur, 1, queue[0], [queue[0]]);
        var next := AdvanceAll(s.cur);
        var rest := if Exhausted(P, next) then [] else queue[1..];
        NearLoopOk(P, n, queue, cur, s.anchor, s.cur, next, rest);
        NearLoopSound(P, n, rest, next);
      } else {
        NearLoopFail(P, n, queue, cur, s.anchor, s.cur);
        NearLoopSound(P, n, queue[1..], s.cur);
      }
    }
  }

  /** Soundness of #NEAR/n: each recorded location is the last link of a chain. */
  lemma NearLocationsSound(P: seq<seq<int>>, n: int)
    ensures forall loc :: loc in NearLocations(P, n) ==> exists c :: NearChain(P, n, c) && c[|P| - 1] == loc
  {
    if |P| >= 2 {
      NearLoopSound(P, n, P[0], Zeros(|P|));
    }
  }

  /** Every element of r lies beyond every element of xs. */
  predicate Above(r: seq<int>, xs: seq<int>)
  {
    forall i, j :: 0 <= i < |r| && 0 <= j < |xs| ==> xs[j] < r[i]
  }

  /**
   * The recorded locations are positions of the last child, strictly
   * ascending and beyond every position its cursor has already passed.
   */
  lemma AboveShrink(r: seq<int>, ps: seq<int>, m: nat, m': nat)
    requires m <= m' <= |ps| && Above(r, ps[..m'])
    ensures Above(r, ps[..m])
  {
    assert forall j :: 0 <= j < m ==> ps[..m][j] == ps[..m'][j];
  }

  /** Recording ps[k] ahead of a tail that lies beyond ps[..k+1] keeps the result ascending. */
  lemma ConsAbove(a: int, tail: seq<int>, ps: seq<int>, m: nat, k: nat)
    requires StrictlyIncreasing(ps) && m <= k < |ps| && a == ps[k]
    requires StrictlyIncreasing(tail) && Above(tail, ps[..k + 1])
    ensures StrictlyIncreasing([a] + tail) && Above([a] + tail, ps[..m])
  {
    assert ps[..k + 1][k] == a;
    AboveShrink(tail, ps, m, k + 1);
  }

  lemma {:induction false} NearLoopIncreasing(P: seq<seq<int>>, n: int, queue: seq<int>, cur: seq<nat>)
    requires |P| >= 2 && PosCursorsOk(P, cur) && cur[0] + |queue| <= |P[0]|
    requires StrictlyIncreasing(P[|P| - 1])
    ensures StrictlyIncreasing(NearLoop(P, n, queue, cur))
    ensures Above(NearLoop(P, n, queue, cur), P[|P| - 1][..cur[|P| - 1]])
    decreases |queue|
  {
    if queue != [] {
      var s := ScanFrom(P, n, cur, 1, queue[0]);
      var L := |P| - 1;
      if s.ok {
        var next := AdvanceAll(s.cur);
        var rest := if Exhausted(P, next) then [] else queue[1..];
        NearLoopOk(P, n, queue, cur, s.anchor, s.cur, next, rest);
        NearLoopIncreasing(P, n, rest, next);
        assert next[L] == s.cur[L] + 1 && s.anchor == P[L][s.cur[L]] && cur[L] <= s.cur[L];
        ConsAbove(s.anchor, NearLoop(P, n, rest, next), P[L], cur[L], s.cur[L]);
      } else {
        NearLoopFail(P, n, queue, cur, s.anchor, s.cur);
        NearLoopIncreasing(P, n, queue[1..], s.cur);
        AboveShrink(NearLoop(P, n, queue[1..], s.cur), P[L], cur[L], s.cur[L]);
      }
    }
  }

  /** With an ascending last child, #NEAR/n yields a strictly ascending location list. */
  lemma NearLocationsIncreasing(P: seq<seq<int>>, n: int)
    requires |P| >= 1 && StrictlyIncreasing(P[|P| - 1])
    ensures StrictlyIncreasing(NearLocations(P, n))
  {
    if |P| >= 2 {
      NearLoopIncreasing(P, n, P[0], Zeros(|P|));
    }
  }

  /** Adjacent terms: "a b" matches #NEAR/1(a b). */
  lemma NearAdjacentExample()
    ensures NearLocations([[3], [4]], 1) == [4]
  {
  }

  /** A word in between: "a x b" does not match #NEAR/1(a b). */
  lemma NearGapExample()
    ensures NearLocations([[3], [5]], 1) == []
  {
  }

  /** Each completed chain is recorded: "a b ... a b" matches twice. */
  lemma NearRepeatedExample()
    ensures NearLocations([[1, 5], [2, 6]], 1) == [2, 6]
  {
    var P := [[1, 5], [2, 6]];
    assert Zeros(2) == [0, 0];
    assert ScanFrom(P, 1, [0, 0], 1, 1) == Scan(true, [0, 0], 2) by {
      assert SkipTo(P[1], 0, 1) == 0;
      assert [0, 0][1 := 0] == [0, 0];
    }
    assert AdvanceAll([0, 0]) == [1, 1] && !Exhausted(P, [1, 1]);
    NearLoopOk(P, 1, P[0], [0, 0], 2, [0, 0], [1, 1], [5]);
    assert ScanFrom(P, 1, [1, 1], 1, 5) == Scan(true, [1, 1], 6) by {
      assert SkipTo(P[1], 1, 5) == 1;
      assert [1, 1][1 := 1] == [1, 1];
    }
    assert AdvanceAll([1, 1]) == [2, 2] && Exhausted(P, [2, 2]);
    NearLoopOk(P, 1, [5], [1, 1], 6, [1, 1], [2, 2], []);
  }

  /**
   * The scan is greedy: each child contributes its first position after
   * the previous link, so a chain through a later position is not found.
   */
  lemma NearGreedyMissesLaterLink()
    ensures NearChain([[0], [1, 2], [4]], 2, [0, 2, 4])
    ensures NearLocations([[0], [1, 2], [4]], 2) == []
  {
  }
}
