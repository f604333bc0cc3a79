/**
 * Inverted lists as the proximity operators see them: each child of a
 * NEAR or WINDOW node is an ascending-docid sequence of postings, walked
 * by a document cursor (an index into the postings) and, inside the
 * current posting, a position cursor (an index into its positions).
 *
 * This module holds what both proximity operators share: the document
 * candidacy step (every later child is advanced to the first child's
 * docid), and the specification of the synthesized list, parameterised
 * by the per-document position matcher.
 */
module InvLists {
  import opened Support

  /** One document's entry: the docid and its ascending in-document positions; tf is |positions|. */
  datatype Posting = Posting(docid: int, positions: seq<int>)

  type InvList = seq<Posting>

  predicate DocsAscending(list: InvList)
  {
    forall i, j :: 0 <= i < j < |list| ==> list[i].docid < list[j].docid
  }

  predicate AllDocsAscending(lists: seq<InvList>)
  {
    forall k :: 0 <= k < |lists| ==> DocsAscending(lists[k])
  }

  /** Index of the posting for docid d, or -1 when the list has none. */
  function Find(list: InvList, d: int): (r: int)
    ensures -1 <= r < |list|
    ensures r == -1 <==> forall j :: 0 <= j < |list| ==> list[j].docid != d
    ensures 0 <= r ==> list[r].docid == d && forall j :: 0 <= j < r ==> list[j].docid != d
  {
    if list == [] then -1
    else if list[0].docid == d then 0
    else
      var k := Find(list[1..], d);
      assert forall j :: 1 <= j < |list| ==> list[1..][j - 1] == list[j];
      if k == -1 then -1 else k + 1
  }

  /** d has a posting in every child. */
  predicate InAll(lists: seq<InvList>, d: int)
  {
    forall k :: 0 <= k < |lists| ==> Find(lists[k], d) >= 0
  }

  /** The position lists of d's postings, child by child. */
  function PositionsAt(lists: seq<InvList>, d: int): (P: seq<seq<int>>)
    requires InAll(lists, d)
    ensures |P| == |lists|
  {
    seq(|lists|, k requires 0 <= k < |lists| => lists[k][Find(lists[k], d)].positions)
  }

  lemma FindAt(list: InvList, j: nat)
    requires DocsAscending(list) && j < |list|
    ensures Find(list, list[j].docid) == j
  {
  }

  /**
   * The list a proximity operator synthesizes from its children, restricted
   * to the first `upto` postings of the first child: one posting per docid
   * of the first child that every child holds and for which the per-document
   * position matcher finds at least one location.
   */
  function Synthesize(lists: seq<InvList>, matcher: seq<seq<int>> -> seq<int>, upto: nat): InvList
    requires |lists| >= 1 && upto <= |lists[0]|
  {
    if upto == 0 then []
    else Synthesize(lists, matcher, upto - 1) + Accepted(lists, matcher, lists[0][upto - 1].docid)
  }

  /** p is d's posting as the synthesis builds it: every child holds d and p carries the matcher's non-empty locations there. */
  predicate Matched(lists: seq<InvList>, matcher: seq<seq<int>> -> seq<int>, p: Posting)
  {
    InAll(lists, p.docid) && p.positions == matcher(PositionsAt(lists, p.docid)) && p.positions != []
  }

  /** The posting docid d contributes: one when every child holds d and the matcher finds d's locations. */
  function Accepted(lists: seq<InvList>, matcher: seq<seq<int>> -> seq<int>, d: int): (r: InvList)
    ensures |r| <= 1
    ensures forall p :: p in r ==> p.docid == d && Matched(lists, matcher, p)
  {
    if InAll(lists, d) && matcher(PositionsAt(lists, d)) != []
    then [Posting(d, matcher(PositionsAt(lists, d)))]
    else []
  }

  /**
   * Every posting of the synthesized list is for a docid every child holds
   * and carries exactly the matcher's locations there, which are not empty.
   */
  lemma {:induction false} SynthesizeSound(lists: seq<InvList>, matcher: seq<seq<int>> -> seq<int>, upto: nat)
    requires |lists| >= 1 && upto <= |lists[0]|
    ensures forall p :: p in Synthesize(lists, matcher, upto) ==> Matched(lists, matcher, p)
  {
    if upto > 0 {
      SynthesizeSound(lists, matcher, upto - 1);
      var prev := Synthesize(lists, matcher, upto - 1);
      var last := Accepted(lists, matcher, lists[0][upto - 1].docid);
      forall p: Posting | p in prev + last ensures Matched(lists, matcher, p) {
        if p !in prev {
          assert p in last;
        }
      }
    }
  }

  /** Every posting of the synthesized list lies no later than the last first-child posting considered. */
  lemma {:induction false} SynthesizeBounded(lists: seq<InvList>, matcher: seq<seq<int>> -> seq<int>, upto: nat)
    requires |lists| >= 1 && upto <= |lists[0]| && DocsAscending(lists[0])
    ensures forall p :: p in Synthesize(lists, matcher, upto) ==> 0 < upto && p.docid <= lists[0][upto - 1].docid
  {
    if upto > 0 {
      SynthesizeBounded(lists, matcher, upto - 1);
      var prev := Synthesize(lists, matcher, upto - 1);
      var d := lists[0][upto - 1].docid;
      var last := Accepted(lists, matcher, d);
      forall p: Posting | p in prev + last ensures p.docid <= d {
        if p in prev {
          assert lists[0][upto - 2].docid < d;
        } else {
          assert p in last;
        }
      }
    }
  }

  /** The synthesized list is ascending in docid, as an inverted list must be. */
  lemma {:induction false} SynthesizeAscending(lists: seq<InvList>, matcher: seq<seq<int>> -> seq<int>, upto: nat)
    requires |lists| >= 1 && upto <= |lists[0]| && DocsAscending(lists[0])
    ensures DocsAscending(Synthesize(lists, matcher, upto))
  {
    if upto > 0 {
      SynthesizeAscending(lists, matcher, upto - 1);
      SynthesizeBounded(lists, matcher, upto - 1);
      var prev := Synthesize(lists, matcher, upto - 1);
      var d := lists[0][upto - 1].docid;
      var last := Accepted(lists, matcher, d);
      assert forall i :: 0 <= i < |prev| ==> prev[i].docid < d by {
        forall i | 0 <= i < |prev| ensures prev[i].docid < d {
          assert prev[i] in prev;
          assert lists[0][upto - 2].docid < d;
        }
      }
      assert forall i :: 0 <= i < |last| ==> last[i].docid == d by {
        forall i | 0 <= i < |last| ensures last[i].docid == d {
          assert last[i] in last;
        }
      }
    }
  }

  /** Every first-child docid that every child holds and the matcher accepts is in the list. */
  lemma {:induction false} SynthesizeComplete(lists: seq<InvList>, matcher: seq<seq<int>> -> seq<int>, upto: nat)
    requires |lists| >= 1 && upto <= |lists[0]|
    ensures forall j :: 0 <= j < upto && InAll(lists, lists[0][j].docid) && matcher(PositionsAt(lists, lists[0][j].docid)) != [] ==>
              Posting(lists[0][j].docid, matcher(PositionsAt(lists, lists[0][j].docid))) in Synthesize(lists, matcher, upto)
  {
    if upto > 0 {
      SynthesizeComplete(lists, matcher, upto - 1);
      var prev := Synthesize(lists, matcher, upto - 1);
      forall j | 0 <= j < upto && InAll(lists, lists[0][j].docid) && matcher(PositionsAt(lists, lists[0][j].docid)) != []
        ensures Posting(lists[0][j].docid, matcher(PositionsAt(lists, lists[0][j].docid))) in prev + Accepted(lists, matcher, lists[0][upto - 1].docid)
      {
        var d := lists[0][j].docid;
        if j == upto - 1 {
          assert Accepted(lists, matcher, d) == [Posting(d, matcher(PositionsAt(lists, d)))];
        } else {
          assert Posting(d, matcher(PositionsAt(lists, d))) in prev;
        }
      }
    }
  }

  // ------------------------------------------------------------ cursors

  /** Document cursors, one per child, each within its list. */
  predicate DocCursorsOk(lists: seq<InvList>, cur: seq<nat>)
  {
    |cur| == |lists| && forall k :: 0 <= k < |lists| ==> cur[k] <= |lists[k]|
  }

  /** Every posting a later child has moved past lies before docid d. */
  predicate Behind(lists: seq<InvList>, cur: seq<nat>, d: int)
    requires DocCursorsOk(lists, cur)
  {
    forall k, j :: 1 <= k < |lists| && 0 <= j < cur[k] ==> lists[k][j].docid < d
  }

  /** Position cursors, one per child, each within its position list. */
  predicate PosCursorsOk(P: seq<seq<int>>, cur: seq<nat>)
  {
    |cur| == |P| && forall i :: 0 <= i < |P| ==> cur[i] <= |P[i]|
  }

  function Zeros(m: nat): (z: seq<nat>)
    ensures |z| == m && forall i :: 0 <= i < m ==> z[i] == 0
  {
    seq(m, i => 0)
  }

  /** Every cursor moved forward by one. */
  function AdvanceAll(cur: seq<nat>): (r: seq<nat>)
    ensures |r| == |cur| && forall i :: 0 <= i < |cur| ==> r[i] == cur[i] + 1
  {
    seq(|cur|, i requires 0 <= i < |cur| => cur[i] + 1)
  }

  /** Some child's position cursor has run off its list. */
  predicate Exhausted(P: seq<seq<int>>, cur: seq<nat>)
    requires |cur| == |P|
  {
    exists i :: 0 <= i < |P| && cur[i] >= |P[i]|
  }

  /**
   * Document candidacy (QryIopNear.evaluate and QryIopWindow.evaluate share
   * it): every later child is advanced while it lags behind the first
   * child's docid d; the first child that is ahead of d or exhausted rejects
   * d and stops the scan. With ascending lists, d is accepted exactly when
   * every child holds it, and then every cursor rests on d's posting.
   */
  method AlignOnFirst(lists: seq<InvList>, cur: seq<nat>) returns (docMatch: bool, next: seq<nat>)
    requires |lists| >= 1 && AllDocsAscending(lists) && DocCursorsOk(lists, cur)
    requires cur[0] < |lists[0]| && Behind(lists, cur, lists[0][cur[0]].docid)
    ensures DocCursorsOk(lists, next) && next[0] == cur[0]
    ensures forall k :: 0 <= k < |lists| ==> cur[k] <= next[k]
    ensures Behind(lists, next, lists[0][cur[0]].docid)
    ensures docMatch <==> InAll(lists, lists[0][cur[0]].docid)
    ensures docMatch ==> forall k :: 0 <= k < |lists| ==>
              next[k] < |lists[k]| && lists[k][next[k]].docid == lists[0][cur[0]].docid
  {
    var d := lists[0][cur[0]].docid;
    docMatch := true;
    next := cur;
    var k := 1;
    while k < |lists| && docMatch
      invariant 1 <= k <= |lists|
      invariant DocCursorsOk(lists, next) && next[0] == cur[0]
      invariant forall k' :: 0 <= k' < |lists| ==> cur[k'] <= next[k']
      invariant Behind(lists, next, d)
      invariant docMatch ==> forall k' :: 1 <= k' < k ==> next[k'] < |lists[k']| && lists[k'][next[k']].docid == d
      invariant !docMatch ==> !InAll(lists, d)
      decreases |lists| - k
    {
      while next[k] < |lists[k]|
        invariant DocCursorsOk(lists, next) && next[0] == cur[0]
        invariant forall k' :: 0 <= k' < |lists| ==> cur[k'] <= next[k']
        invariant Behind(lists, next, d)
        invariant docMatch ==> forall k' :: 1 <= k' < k ==> next[k'] < |lists[k']| && lists[k'][next[k']].docid == d
        decreases |lists[k]| - next[k]
      {
        if lists[k][next[k]].docid == d {
          docMatch := true;
          break;
        } else if lists[k][next[k]].docid < d {
          next := next[k := next[k] + 1];
        } else {
          // this child is already past d, so it does not hold d
          docMatch := false;
          assert Find(lists[k], d) == -1;
          break;
        }
      }
      if next[k] >= |lists[k]| {
        assert Find(lists[k], d) == -1;
        docMatch := false;
      }
      k := k + 1;
    }
    if docMatch {
      assert forall k' :: 0 <= k' < |lists| ==> Find(lists[k'], d) >= 0 by {
        forall k' | 0 <= k' < |lists| ensures Find(lists[k'], d) >= 0 {
          if k' == 0 {
            FindAt(lists[0], cur[0]);
          } else {
            FindAt(lists[k'], next[k']);
          }
        }
      }
    }
  }

  /** After an accepted document every document cursor steps past it; the next candidate is ahead of all of them. */
  lemma AdvanceAllBehind(lists: seq<InvList>, aligned: seq<nat>, d: int)
    requires |lists| >= 1 && AllDocsAscending(lists) && DocCursorsOk(lists, aligned)
    requires forall k :: 0 <= k < |lists| ==> aligned[k] < |lists[k]| && lists[k][aligned[k]].docid == d
    ensures DocCursorsOk(lists, AdvanceAll(aligned))
    ensures AdvanceAll(aligned)[0] < |lists[0]| ==> Behind(lists, AdvanceAll(aligned), lists[0][AdvanceAll(aligned)[0]].docid)
  {
    var next := AdvanceAll(aligned);
    if next[0] < |lists[0]| {
      var d' := lists[0][next[0]].docid;
      assert d < d';
      forall k, j | 1 <= k < |lists| && 0 <= j < next[k] ensures lists[k][j].docid < d' {
        assert j <= aligned[k];
      }
    }
  }

  /** After a rejected document only the first cursor moves; the next candidate is still ahead of the others. */
  lemma AdvanceFirstBehind(lists: seq<InvList>, aligned: seq<nat>, d: int)
    requires |lists| >= 1 && AllDocsAscending(lists) && DocCursorsOk(lists, aligned)
    requires aligned[0] < |lists[0]| && lists[0][aligned[0]].docid == d && Behind(lists, aligned, d)
    ensures DocCursorsOk(lists, aligned[0 := aligned[0] + 1])
    ensures aligned[0] + 1 < |lists[0]| ==> Behind(lists, aligned[0 := aligned[0] + 1], lists[0][aligned[0] + 1].docid)
  {
    if aligned[0] + 1 < |lists[0]| {
      assert d < lists[0][aligned[0] + 1].docid;
    }
  }

  /** The position lists of the postings the document cursors rest on, child by child. */
  function CursorPositions(lists: seq<InvList>, aligned: seq<nat>): (P: seq<seq<int>>)
    requires |aligned| == |lists| && forall k :: 0 <= k < |lists| ==> aligned[k] < |lists[k]|
    ensures |P| == |lists| && forall k :: 0 <= k < |lists| ==> P[k] == lists[k][aligned[k]].positions
  {
    seq(|lists|, k requires 0 <= k < |lists| => lists[k][aligned[k]].positions)
  }

  /** With the cursors resting on d's postings, their position lists are d's. */
  lemma PositionsAtCursors(lists: seq<InvList>, aligned: seq<nat>, d: int)
    requires AllDocsAscending(lists) && |aligned| == |lists|
    requires forall k :: 0 <= k < |lists| ==> aligned[k] < |lists[k]| && lists[k][aligned[k]].docid == d
    ensures InAll(lists, d)
    ensures PositionsAt(lists, d) == CursorPositions(lists, aligned)
  {
    forall k | 0 <= k < |lists| ensures Find(lists[k], d) == aligned[k] {
      FindAt(lists[k], aligned[k]);
    }
  }

  /**
   * The document loop's invariant: the cursors are within their lists, the
   * later children lag behind the next candidate, and the list built so far
   * is the synthesis over the first-child postings already taken.
   */
  predicate DocLoopState(lists: seq<InvList>, matcher: seq<seq<int>> -> seq<int>, cur: seq<nat>, built: InvList)
    requires |lists| >= 1
  {
    DocCursorsOk(lists, cur)
    && (cur[0] < |lists[0]| ==> Behind(lists, cur, lists[0][cur[0]].docid))
    && built == Synthesize(lists, matcher, cur[0])
  }

  lemma DocLoopStart(lists: seq<InvList>, matcher: seq<seq<int>> -> seq<int>)
    requires |lists| >= 1
    ensures DocLoopState(lists, matcher, Zeros(|lists|), [])
  {
  }

  /** An accepted candidate: its locations (when any) are appended and every document cursor advances. */
  lemma AcceptStep(lists: seq<InvList>, matcher: seq<seq<int>> -> seq<int>, cur: seq<nat>, aligned: seq<nat>,
                   built: InvList, locations: seq<int>)
    requires |lists| >= 1 && AllDocsAscending(lists) && DocLoopState(lists, matcher, cur, built)
    requires cur[0] < |lists[0]| && DocCursorsOk(lists, aligned) && aligned[0] == cur[0]
    requires forall k :: 0 <= k < |lists| ==> aligned[k] < |lists[k]| && lists[k][aligned[k]].docid == lists[0][cur[0]].docid
    requires locations == matcher(CursorPositions(lists, aligned))
    ensures DocLoopState(lists, matcher, AdvanceAll(aligned),
              built + if locations != [] then [Posting(lists[0][cur[0]].docid, locations)] else [])
  {
    var d := lists[0][cur[0]].docid;
    PositionsAtCursors(lists, aligned, d);
    assert matcher(PositionsAt(lists, d)) == locations;
    assert Accepted(lists, matcher, d) == if locations != [] then [Posting(d, locations)] else [];
    assert Synthesize(lists, matcher, cur[0] + 1) == built + Accepted(lists, matcher, d);
    AdvanceAllBehind(lists, aligned, d);
  }

  /** A rejected candidate: nothing is appended and only the first document cursor advances. */
  lemma RejectStep(lists: seq<InvList>, matcher: seq<seq<int>> -> seq<int>, cur: seq<nat>, aligned: seq<nat>, built: InvList)
    requires |lists| >= 1 && AllDocsAscending(lists) && DocLoopState(lists, matcher, cur, built)
    requires cur[0] < |lists[0]| && DocCursorsOk(lists, aligned) && aligned[0] == cur[0]
    requires Behind(lists, aligned, lists[0][cur[0]].docid) && !InAll(lists, lists[0][cur[0]].docid)
    ensures DocLoopState(lists, matcher, aligned[0 := aligned[0] + 1], built)
  {
    AdvanceFirstBehind(lists, aligned, lists[0][cur[0]].docid);
  }
}
