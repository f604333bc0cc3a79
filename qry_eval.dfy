/**
 * The evaluation driver: the loop that collects a query's ranking, the
 * normalisation that turns the rankings of a query and its intents into a
 * diversity table, and the two greedy diversification algorithms (xQuAD
 * and PM2) that re-rank the table.  Rankings are sequences of (docid,
 * score) entries; a map of rankings is the sequence of its entries in the
 * map's iteration order.
 */
module QryEval {
  import opened Support
  import opened RetrievalModels
  import QryParser
  import opened DiversityLists

  /** One entry of a ScoreList. */
  datatype ScoreEntry = ScoreEntry(docid: int, score: real)

  /** A map from query (or intent) id to its ranking, in iteration order. */
  type Rankings = seq<(string, seq<ScoreEntry>)>

  /** The diversity table as a value: docid to its (intents, scores). */
  type Table = map<int, (seq<string>, seq<real>)>

  datatype DriverError =
    | MissingIntentSeparator(id: string)
    | MissingRanking(qid: string)
    | MissingIntentNumber(id: string)
    | BadIntentNumber(text: string)
    | UnsupportedAlgorithm(name: string)
    | ZeroIntentMass(run: seq<ScoreEntry>)  // the last PM2 pick has no intent score: its slot update divides 0 by 0

  // ====================================================================== ids

  /** qid.substring(0, qid.indexOf(".")): the query id in front of the first dot. */
  function QueryIdOf(id: string): (r: Option<string>)
    ensures r.None? <==> '.' !in id
    ensures r.Some? ==> '.' !in r.value && |r.value| < |id| && id[..|r.value|] == r.value && id[|r.value|] == '.'
  {
    var k := IndexOf(id, '.');
    if k == -1 then None
    else
      assert forall j :: 0 <= j < k ==> id[..k][j] == id[j];
      Some(id[..k])
  }

  /** The id of intent j of query qid, as the driver spells it: qid + "." + j. */
  function IntentId(qid: string, j: nat): string
  {
    qid + "." + NatToString(j)
  }

  /** The query id is recovered from the id of each of its intents. */
  lemma QueryIdOfIntentId(qid: string, j: nat)
    requires '.' !in qid
    ensures QueryIdOf(IntentId(qid, j)) == Some(qid)
  {
    var id := IntentId(qid, j);
    assert id[|qid|] == '.' && forall i :: 0 <= i < |qid| ==> id[i] == qid[i];
    assert IndexOf(id, '.') == |qid|;
    assert id[..|qid|] == qid;
  }

  /**
   * The intent number and query id read from an intent id: the second and
   * first fields of split("\\.").  A missing second field is an index out
   * of bounds; a malformed one is a NumberFormatException.
   */
  function ParseIntentId(id: string): (r: Result<(string, int), DriverError>)
    ensures r.Err? ==> r.error == MissingIntentNumber(id) || r.error.BadIntentNumber?
    ensures r.Ok? ==> '.' !in r.value.0 && QryParser.MinInt32 <= r.value.1 <= QryParser.MaxInt32
    ensures r.Ok? ==> |Split(id, '.')| >= 2 && r.value.0 == Split(id, '.')[0] &&
                      QryParser.ParseInt(Split(id, '.')[1]) == Ok(r.value.1)
  {
    var fields := Split(id, '.');
    if |fields| < 2 then Err(MissingIntentNumber(id))
    else
      match QryParser.ParseInt(fields[1])
      case Err(_) => Err(BadIntentNumber(fields[1]))
      case Ok(n) => Ok((fields[0], n))
  }

  /** Parsing the id the driver builds for intent j gives back qid and j. */
  lemma ParseIntentIdRoundTrip(qid: string, j: nat)
    requires '.' !in qid && j <= QryParser.MaxInt32
    ensures ParseIntentId(IntentId(qid, j)) == Ok((qid, j as int))
  {
    var digits := NatToString(j);
    assert '.' !in digits by {
      forall i | 0 <= i < |digits| ensures digits[i] != '.' { assert IsDigit(digits[i]); }
    }
    var id := IntentId(qid, j);
    assert id == qid + ['.'] + digits;
    FieldsAfterSeparator(qid, digits, '.');
    assert Fields(id, '.') == [qid, digits];
    assert id[|qid|] == '.';
    QryParser.ParseIntRoundTrip(j);
  }

  // ============================================================== normalize

  /** HashMap.get: the ranking stored under key, or None for null. */
  function Lookup(rankings: Rankings, key: string): (r: Option<seq<ScoreEntry>>)
    ensures r.None? <==> forall i :: 0 <= i < |rankings| ==> rankings[i].0 != key
    ensures r.Some? ==> exists i :: 0 <= i < |rankings| && rankings[i] == (key, r.value)
  {
    if rankings == [] then None
    else if rankings[0].0 == key then Some(rankings[0].1)
    else
      var r := Lookup(rankings[1..], key);
      assert forall i :: 1 <= i < |rankings| ==> rankings[1..][i - 1] == rankings[i];
      r
  }

  /** The docids of a ranking. */
  function Docids(list: seq<ScoreEntry>): set<int>
  {
    set i | 0 <= i < |list| :: list[i].docid
  }

  /** The docids of the first min(maxLength, size) entries of the query's own ranking. */
  function Candidates(primary: seq<ScoreEntry>, maxLength: int): set<int>
  {
    set i | 0 <= i < |primary| && i < maxLength :: primary[i].docid
  }

  /** The scores of the entries whose docid is a candidate, in ranking order. */
  function CandidateScores(list: seq<ScoreEntry>, cands: set<int>): (r: seq<real>)
    ensures |r| <= |list|
  {
    if list == [] then []
    else
      var last := list[|list| - 1];
      CandidateScores(list[..|list| - 1], cands) + (if last.docid in cands then [last.score] else [])
  }

  /** The sum normalize accumulates for one ranking. */
  function RestrictedSum(list: seq<ScoreEntry>, cands: set<int>): real
  {
    Sum(CandidateScores(list, cands))
  }

  /** The running maximum of the restricted sums, starting from 0. */
  function MaxRestrictedSum(rankings: Rankings, cands: set<int>): (r: real)
    ensures r >= 0.0
    ensures forall i :: 0 <= i < |rankings| ==> RestrictedSum(rankings[i].1, cands) <= r
    ensures r == 0.0 || exists i :: 0 <= i < |rankings| && r == RestrictedSum(rankings[i].1, cands)
  {
    if rankings == [] then 0.0
    else
      var init := rankings[..|rankings| - 1];
      var m := MaxRestrictedSum(init, cands);
      var s := RestrictedSum(rankings[|rankings| - 1].1, cands);
      assert forall i :: 0 <= i < |init| ==> init[i] == rankings[i];
      if s > m then s else m
  }

  /**
   * The divisor of the scaling step: the largest restricted sum, or 1 when
   * that is below 1.
   */
  function NormalizationScale(rankings: Rankings, cands: set<int>): (r: real)
    ensures r >= 1.0
    ensures forall i :: 0 <= i < |rankings| ==> RestrictedSum(rankings[i].1, cands) <= r
    ensures r == 1.0 || exists i :: 0 <= i < |rankings| && r == RestrictedSum(rankings[i].1, cands)
  {
    var m := MaxRestrictedSum(rankings, cands);
    if m < 1.0 then 1.0 else m
  }

  /** DiversityList.add on the table as a value. */
  function AddPair(t: Table, d: int, intent: string, s: real): Table
  {
    t[d := if d in t then (t[d].0 + [intent], t[d].1 + [s]) else ([intent], [s])]
  }

  /** The table after one ranking's candidate entries are added in order. */
  function AddRanking(t: Table, key: string, list: seq<ScoreEntry>, cands: set<int>): Table
  {
    if list == [] then t
    else
      var last := list[|list| - 1];
      var before := AddRanking(t, key, list[..|list| - 1], cands);
      if last.docid in cands then AddPair(before, last.docid, key, last.score) else before
  }

  /** The table after every ranking is added, in iteration order. */
  function BuildTable(rankings: Rankings, cands: set<int>): Table
  {
    if rankings == [] then map[]
    else
      var last := rankings[|rankings| - 1];
      AddRanking(BuildTable(rankings[..|rankings| - 1], cands), last.0, last.1, cands)
  }

  function ScaledScores(s: seq<real>, scale: real): (r: seq<real>)
    requires scale != 0.0
    ensures |r| == |s| && forall k :: 0 <= k < |s| ==> r[k] == s[k] / scale
  {
    seq(|s|, k requires 0 <= k < |s| => s[k] / scale)
  }

  function ScaledTable(t: Table, scale: real): Table
    requires scale != 0.0
  {
    map d | d in t :: (t[d].0, ScaledScores(t[d].1, scale))
  }

  /** The table normalize returns for the query's own ranking primary. */
  function Normalized(rankings: Rankings, primary: seq<ScoreEntry>, maxLength: int): Table
  {
    var cands := Candidates(primary, maxLength);
    ScaledTable(BuildTable(rankings, cands), NormalizationScale(rankings, cands))
  }

  // ---------------------------------------------------------- keys of the table

  /** Every docid of any ranking. */
  function AllDocids(rankings: Rankings): set<int>
  {
    if rankings == [] then {}
    else AllDocids(rankings[..|rankings| - 1]) + Docids(rankings[|rankings| - 1].1)
  }

  lemma {:induction false} DocidsInAll(rankings: Rankings, i: nat)
    requires i < |rankings|
    ensures Docids(rankings[i].1) <= AllDocids(rankings)
  {
    if i < |rankings| - 1 {
      DocidsInAll(rankings[..|rankings| - 1], i);
    }
  }

  lemma {:induction false} AddRankingKeys(t: Table, key: string, list: seq<ScoreEntry>, cands: set<int>)
    ensures AddRanking(t, key, list, cands).Keys == t.Keys + Docids(list) * cands
  {
    if list != [] {
      var init := list[..|list| - 1];
      AddRankingKeys(t, key, init, cands);
      assert Docids(list) == Docids(init) + {list[|list| - 1].docid} by {
        forall d | d in Docids(list) ensures d in Docids(init) + {list[|list| - 1].docid} {
          var i :| 0 <= i < |list| && list[i].docid == d;
          if i < |init| { assert init[i] == list[i]; }
        }
        forall d | d in Docids(init) ensures d in Docids(list) {
          var i :| 0 <= i < |init| && init[i].docid == d;
          assert list[i] == init[i];
        }
      }
    }
  }

  lemma {:induction false} BuildTableKeys(rankings: Rankings, cands: set<int>)
    ensures BuildTable(rankings, cands).Keys == AllDocids(rankings) * cands
  {
    if rankings != [] {
      var last := rankings[|rankings| - 1];
      BuildTableKeys(rankings[..|rankings| - 1], cands);
      AddRankingKeys(BuildTable(rankings[..|rankings| - 1], cands), last.0, last.1, cands);
    }
  }

  /**
   * The query's own ranking is one of the rankings, so the table holds
   * exactly the candidate documents: every candidate, and nothing else.
   */
  lemma NormalizedKeysAreCandidates(rankings: Rankings, qid: string, maxLength: int)
    requires Lookup(rankings, qid).Some?
    ensures Normalized(rankings, Lookup(rankings, qid).value, maxLength).Keys ==
            Candidates(Lookup(rankings, qid).value, maxLength)
  {
    var primary := Lookup(rankings, qid).value;
    var cands := Candidates(primary, maxLength);
    var i :| 0 <= i < |rankings| && rankings[i] == (qid, primary);
    DocidsInAll(rankings, i);
    BuildTableKeys(rankings, cands);
    assert cands <= Docids(primary);
  }

  // ------------------------------------------------------- bounds of the scores

  /** Every stored score lies in [0, bound]. */
  ghost predicate ScoresWithin(t: Table, bound: real)
  {
    forall d, k :: d in t && 0 <= k < |t[d].1| ==> 0.0 <= t[d].1[k] <= bound
  }

  predicate NonNegativeScores(list: seq<ScoreEntry>)
  {
    forall i :: 0 <= i < |list| ==> list[i].score >= 0.0
  }

  lemma {:induction false} AddRankingWithin(t: Table, key: string, list: seq<ScoreEntry>, cands: set<int>, bound: real)
    requires ScoresWithin(t, bound) && NonNegativeScores(list)
    requires RestrictedSum(list, cands) <= bound
    ensures ScoresWithin(AddRanking(t, key, list, cands), bound)
  {
    if list != [] {
      var init := list[..|list| - 1];
      var last := list[|list| - 1];
      assert NonNegativeScores(init) by {
        forall i | 0 <= i < |init| ensures init[i].score >= 0.0 { assert init[i] == list[i]; }
      }
      CandidateScoresNonNegative(init, cands);
      SumNonNegative(CandidateScores(init, cands));
      if last.docid in cands {
        SumAppend(CandidateScores(init, cands), [last.score]);
        assert Sum([last.score]) == last.score by { assert [last.score][..0] == []; }
      } else {
        assert CandidateScores(list, cands) == CandidateScores(init, cands);
      }
      AddRankingWithin(t, key, init, cands, bound);
    }
  }

  lemma {:induction false} CandidateScoresNonNegative(list: seq<ScoreEntry>, cands: set<int>)
    requires NonNegativeScores(list)
    ensures forall k :: 0 <= k < |CandidateScores(list, cands)| ==> CandidateScores(list, cands)[k] >= 0.0
  {
    if list != [] {
      var init := list[..|list| - 1];
      assert NonNegativeScores(init) by {
        forall i | 0 <= i < |init| ensures init[i].score >= 0.0 { assert init[i] == list[i]; }
      }
      CandidateScoresNonNegative(init, cands);
    }
  }

  lemma {:induction false} BuildTableWithin(rankings: Rankings, cands: set<int>)
    requires forall i :: 0 <= i < |rankings| ==> NonNegativeScores(rankings[i].1)
    ensures ScoresWithin(BuildTable(rankings, cands), MaxRestrictedSum(rankings, cands))
  {
    if rankings != [] {
      var init := rankings[..|rankings| - 1];
      var last := rankings[|rankings| - 1];
      var bound := MaxRestrictedSum(rankings, cands);
      assert forall i :: 0 <= i < |init| ==> init[i] == rankings[i];
      BuildTableWithin(init, cands);
      assert MaxRestrictedSum(init, cands) <= bound;
      AddRankingWithin(BuildTable(init, cands), last.0, last.1, cands, bound);
    }
  }

  /** With non-negative input scores every normalized score lies in [0, 1]. */
  lemma NormalizedScoresInUnitInterval(rankings: Rankings, primary: seq<ScoreEntry>, maxLength: int)
    requires forall i :: 0 <= i < |rankings| ==> NonNegativeScores(rankings[i].1)
    ensures ScoresWithin(Normalized(rankings, primary, maxLength), 1.0)
  {
    var cands := Candidates(primary, maxLength);
    var t := BuildTable(rankings, cands);
    var scale := NormalizationScale(rankings, cands);
    BuildTableWithin(rankings, cands);
    forall d, k | d in t && 0 <= k < |t[d].1|
      ensures 0.0 <= t[d].1[k] / scale <= 1.0
    {
      DivNonNegative(t[d].1[k], scale);
      DivAtMostOne(t[d].1[k], scale);
    }
  }

  // ------------------------------------------------------------- the method

  /** scores.set(j, s / maxSum) over the live score list of one document. */
  method ScaleLiveScores(entry: QueryIntents, scale: real)
    requires entry.Valid() && scale != 0.0
    modifies entry
    ensures entry.Valid() && entry.intents == old(entry.intents)
    ensures entry.scores == ScaledScores(old(entry.scores), scale)
  {
    for j := 0 to |entry.scores|
      invariant entry.Valid() && entry.intents == old(entry.intents)
      invariant |entry.scores| == |old(entry.scores)|
      invariant forall k :: 0 <= k < j ==> entry.scores[k] == old(entry.scores)[k] / scale
      invariant forall k :: j <= k < |entry.scores| ==> entry.scores[k] == old(entry.scores)[k]
    {
      var s := entry.scores[j];
      entry.SetScore(j, s / scale);
    }
  }

  /**
   * normalize: the candidate set from the query's own ranking, the table
   * of every candidate (docid, intent, score) triple with the largest
   * restricted sum, then every candidate's scores divided by max(1, that
   * sum).  A query id without a dot and a query without a ranking are the
   * two exceptions the source raises.
   */
  method Normalize(rankings: Rankings, qIntentId: string, maxLength: int)
    returns (r: Result<DiversityList, DriverError>)
    ensures r.Err? <==> QueryIdOf(qIntentId).None? || Lookup(rankings, QueryIdOf(qIntentId).value).None?
    ensures QueryIdOf(qIntentId).None? ==> r == Err(MissingIntentSeparator(qIntentId))
    ensures QueryIdOf(qIntentId).Some? && Lookup(rankings, QueryIdOf(qIntentId).value).None? ==>
              r == Err(MissingRanking(QueryIdOf(qIntentId).value))
    ensures r.Ok? ==> fresh(r.value) && r.value.Valid()
    ensures r.Ok? ==>
              r.value.Contents() == Normalized(rankings, Lookup(rankings, QueryIdOf(qIntentId).value).value, maxLength)
  {
    var k := IndexOf(qIntentId, '.');
    if k == -1 {
      return Err(MissingIntentSeparator(qIntentId));
    }
    var qid := qIntentId[..k];
    var found := Lookup(rankings, qid);
    if found.None? {
      return Err(MissingRanking(qid));
    }
    var primary := found.value;
    var cands := CandidateSet(primary, maxLength);
    var divList, maxSum := BuildDiversityList(rankings, cands);
    if maxSum < 1.0 {
      maxSum := 1.0;
    }
    NormalizedKeysAreCandidates(rankings, qid, maxLength);
    ScaleCandidates(divList, cands, maxSum);
    return Ok(divList);
  }

  lemma RestrictedSumStep(list: seq<ScoreEntry>, i: nat, cands: set<int>)
    requires i < |list|
    ensures list[..i + 1][..i] == list[..i]
    ensures RestrictedSum(list[..i + 1], cands) ==
            RestrictedSum(list[..i], cands) + (if list[i].docid in cands then list[i].score else 0.0)
  {
    assert list[..i + 1][..i] == list[..i];
    var kept := CandidateScores(list[..i], cands);
    if list[i].docid in cands {
      SumAppend(kept, [list[i].score]);
      assert Sum([list[i].score]) == list[i].score by { assert [list[i].score][..0] == []; }
    } else {
      assert CandidateScores(list[..i + 1], cands) == kept;
    }
  }

  /** The loop over one ranking: its candidate entries added to the table, their scores summed. */
  method AddCandidates(divList: DiversityList, key: string, list: seq<ScoreEntry>, cands: set<int>)
    returns (sum: real)
    requires divList.Valid()
    modifies divList, divList.table.Values
    ensures divList.Valid()
    ensures forall q :: q in divList.table.Values ==> q in old(divList.table.Values) || fresh(q)
    ensures divList.Contents() == AddRanking(old(divList.Contents()), key, list, cands)
    ensures sum == RestrictedSum(list, cands)
  {
    sum := 0.0;
    for i := 0 to |list|
      invariant divList.Valid()
      invariant forall q :: q in divList.table.Values ==> q in old(divList.table.Values) || fresh(q)
      invariant divList.Contents() == AddRanking(old(divList.Contents()), key, list[..i], cands)
      invariant sum == RestrictedSum(list[..i], cands)
    {
      RestrictedSumStep(list, i, cands);
      if list[i].docid in cands {
        var s := list[i].score;
        sum := sum + s;
        divList.Add(list[i].docid, key, s);
      }
    }
    assert list[..|list|] == list;
  }

  /** The loop over the rankings: the table of candidate triples and the largest restricted sum. */
  method BuildDiversityList(rankings: Rankings, cands: set<int>) returns (divList: DiversityList, maxSum: real)
    ensures fresh(divList) && divList.Valid()
    ensures forall q :: q in divList.table.Values ==> fresh(q)
    ensures divList.Contents() == BuildTable(rankings, cands)
    ensures maxSum == MaxRestrictedSum(rankings, cands)
  {
    divList := new DiversityList();
    maxSum := 0.0;
    for e := 0 to |rankings|
      invariant fresh(divList) && divList.Valid()
      invariant forall q :: q in divList.table.Values ==> fresh(q)
      invariant divList.Contents() == BuildTable(rankings[..e], cands)
      invariant maxSum == MaxRestrictedSum(rankings[..e], cands)
    {
      var sum := AddCandidates(divList, rankings[e].0, rankings[e].1, cands);
      assert rankings[..e + 1][..e] == rankings[..e];
      if sum > maxSum {
        maxSum := sum;
      }
    }
    assert rankings[..|rankings|] == rankings;
  }

  /** The next element a HashSet iteration visits: any element. */
  method Choose(s: set<int>) returns (x: int)
    requires s != {}
    ensures x in s
  {
    NonEmptyHasElement(s);
    x :| x in s;
  }

  /** The scaling loop: each candidate's live score list divided by the scale. */
  method ScaleCandidates(divList: DiversityList, cands: set<int>, scale: real)
    requires divList.Valid() && divList.table.Keys == cands && scale != 0.0
    modifies divList.table.Values
    ensures divList.Valid()
    ensures divList.Contents() == ScaledTable(old(divList.Contents()), scale)
  {
    ghost var built := divList.Contents();
    var todo := cands;
    while todo != {}
      invariant todo <= cands
      invariant divList.table == old(divList.table) && divList.Valid()
      invariant forall d :: d in cands ==> divList.table[d].intents == built[d].0
      invariant forall d :: d in cands ==>
                  divList.table[d].scores == if d in todo then built[d].1 else ScaledScores(built[d].1, scale)
      decreases |todo|
    {
      var d := Choose(todo);
      var entry := divList.table[d];
      ScaleLiveScores(entry, scale);
      todo := todo - {d};
    }
    forall d | d in built
      ensures divList.Contents()[d] == ScaledTable(built, scale)[d]
    {
    }
    assert divList.Contents() == ScaledTable(built, scale);
  }

  /** The HashSet of the first min(maxLength, size) docids of the query's ranking. */
  method CandidateSet(primary: seq<ScoreEntry>, maxLength: int) returns (cands: set<int>)
    ensures cands == Candidates(primary, maxLength)
  {
    cands := {};
    var i := 0;
    while i < maxLength && i < |primary|
      invariant 0 <= i <= |primary|
      invariant i <= maxLength || i == 0
      invariant cands == set j | 0 <= j < i :: primary[j].docid
    {
      cands := cands + {primary[i].docid};
      i := i + 1;
    }
  }

  // ======================================================= diversification

  /** P(d | intent): the table's score of the document for the intent, 0 when it has none. */
  function P(t: Table, d: int, intent: string): real
  {
    if d in t then IntentScore(t[d].0, t[d].1, intent) else 0.0
  }

  /** With every stored score in [0, 1], so is every P. */
  lemma PWithinUnit(t: Table, d: int, intent: string)
    requires ScoresWithin(t, 1.0)
    ensures 0.0 <= P(t, d, intent) <= 1.0
  {
  }

  /** The docids already appended to the results. */
  function PickedDocs(picks: seq<ScoreEntry>): set<int>
  {
    set i | 0 <= i < |picks| :: picks[i].docid
  }

  lemma PickedDocsAppend(picks: seq<ScoreEntry>, p: ScoreEntry)
    ensures PickedDocs(picks + [p]) == PickedDocs(picks) + {p.docid}
  {
    var ext := picks + [p];
    forall d | d in PickedDocs(ext) ensures d in PickedDocs(picks) + {p.docid} {
      var i :| 0 <= i < |ext| && ext[i].docid == d;
      if i < |picks| { assert ext[i] == picks[i]; }
    }
    forall d | d in PickedDocs(picks) ensures d in PickedDocs(ext) {
      var i :| 0 <= i < |picks| && picks[i].docid == d;
      assert ext[i] == picks[i];
    }
    assert ext[|picks|] == p;
  }

  /** The intent count the loops run over: 1..intentNum, empty when intentNum is not positive. */
  function IntentCount(intentNum: int): nat
  {
    if intentNum > 0 then intentNum else 0
  }

  /**
   * weight = 1.0 / intentNum.  It is read only inside loops over
   * 1..intentNum, so its value for a non-positive intentNum never matters.
   */
  function Weight(intentNum: int): real
  {
    if intentNum > 0 then 1.0 / intentNum as real else 0.0
  }

  /** The ranking's next document: any key of maximal score (the tie order of the sort is not known). */
  method BestOf(scored: map<int, real>) returns (best: int, score: real)
    requires scored.Keys != {}
    ensures best in scored && score == scored[best]
    ensures forall e :: e in scored ==> scored[e] <= score
  {
    MaxKeyExists(scored);
    best :| best in scored && forall e :: e in scored ==> scored[e] <= scored[best];
    score := scored[best];
  }

  lemma {:induction false} MaxKeyExists(m: map<int, real>)
    requires m.Keys != {}
    ensures exists k :: k in m && forall e :: e in m ==> m[e] <= m[k]
    decreases |m.Keys|
  {
    NonEmptyHasElement(m.Keys);
    var x :| x in m.Keys;
    if m.Keys == {x} {
      assert forall e :: e in m ==> m[e] <= m[x];
    } else {
      var rest := m - {x};
      assert rest.Keys == m.Keys - {x};
      MaxKeyExists(rest);
      var k :| k in rest && forall e :: e in rest ==> rest[e] <= rest[k];
      var top := if m[x] > m[k] then x else k;
      forall e | e in m ensures m[e] <= m[top] {
        if e != x {
          assert e in rest && rest[e] == m[e];
        }
      }
      assert top in m && forall e :: e in m ==> m[e] <= m[top];
    }
  }

  /** Every entry left in the live table holds the lists it had in the starting table t. */
  ghost predicate Mirrors(divList: DiversityList, t: Table)
    reads divList, divList.table.Values
  {
    forall d :: d in divList.table ==>
      d in t && divList.table[d].intents == t[d].0 && divList.table[d].scores == t[d].1
  }

  // ------------------------------------------------------------------ xQuAD

  function InitialCoverage(n: nat): (r: seq<real>)
    ensures |r| == n && forall j :: 0 <= j < n ==> r[j] == 1.0
  {
    seq(n, j => 1.0)
  }

  /** One diversity term: weight · P(d | q.j) · coverage_j, for intent j = i + 1. */
  function DivTerm(t: Table, d: int, qid: string, weight: real, cov: seq<real>, i: nat): real
    requires i < |cov|
  {
    weight * P(t, d, IntentId(qid, i + 1)) * cov[i]
  }

  /** The diversity terms of every intent 1..n. */
  function DivTerms(t: Table, d: int, qid: string, weight: real, cov: seq<real>): (r: seq<real>)
    ensures |r| == |cov|
    ensures forall i :: 0 <= i < |cov| ==> r[i] == DivTerm(t, d, qid, weight, cov, i)
  {
    seq(|cov|, i requires 0 <= i < |cov| => DivTerm(t, d, qid, weight, cov, i))
  }

  /** The interpolation (1 − λ) · x + λ · y both algorithms rank by. */
  function Interpolate(lam: real, x: real, y: real): real
  {
    (1.0 - lam) * x + lam * y
  }

  /** The xQuAD score: (1 − λ) · P(d | q) + λ · Σ_j weight · P(d | q.j) · coverage_j. */
  function XQuadScore(t: Table, d: int, qid: string, lam: real, weight: real, cov: seq<real>): real
  {
    Interpolate(lam, P(t, d, qid), Sum(DivTerms(t, d, qid, weight, cov)))
  }

  /** coverage_j · (1 − P(best | q.j)), for intent j = i + 1. */
  function Decayed(t: Table, best: int, qid: string, cov: seq<real>, i: nat): real
    requires i < |cov|
  {
    cov[i] * (1.0 - P(t, best, IntentId(qid, i + 1)))
  }

  /** Each coverage value decayed by the picked document's score for its intent. */
  function UpdateCoverage(t: Table, best: int, qid: string, cov: seq<real>): (r: seq<real>)
    ensures |r| == |cov|
    ensures forall i :: 0 <= i < |cov| ==> r[i] == Decayed(t, best, qid, cov, i)
  {
    seq(|cov|, i requires 0 <= i < |cov| => Decayed(t, best, qid, cov, i))
  }

  /** The coverage after the picks so far, starting from 1.0 per intent. */
  function CoverageAfter(t: Table, qid: string, n: nat, picks: seq<ScoreEntry>): (r: seq<real>)
    ensures |r| == n
  {
    if picks == [] then InitialCoverage(n)
    else UpdateCoverage(t, picks[|picks| - 1].docid, qid, CoverageAfter(t, qid, n, picks[..|picks| - 1]))
  }

  /** One round's pick: an available document of maximal xQuAD score, with that score. */
  ghost predicate IsXQuadPick(t: Table, avail: set<int>, qid: string, lam: real, weight: real,
                              cov: seq<real>, p: ScoreEntry)
  {
    p.docid in avail && p.score == XQuadScore(t, p.docid, qid, lam, weight, cov) &&
    forall e :: e in avail ==> XQuadScore(t, e, qid, lam, weight, cov) <= p.score
  }

  /** Every result is the pick of its round, against the table and coverage left by the earlier ones. */
  ghost predicate XQuadRun(t: Table, qid: string, n: nat, lam: real, weight: real, picks: seq<ScoreEntry>)
  {
    forall i :: 0 <= i < |picks| ==>
      IsXQuadPick(t, t.Keys - PickedDocs(picks[..i]), qid, lam, weight, CoverageAfter(t, qid, n, picks[..i]), picks[i])
  }

  lemma XQuadRunStep(t: Table, qid: string, n: nat, lam: real, weight: real, picks: seq<ScoreEntry>, p: ScoreEntry)
    requires XQuadRun(t, qid, n, lam, weight, picks)
    requires IsXQuadPick(t, t.Keys - PickedDocs(picks), qid, lam, weight, CoverageAfter(t, qid, n, picks), p)
    ensures XQuadRun(t, qid, n, lam, weight, picks + [p])
    ensures CoverageAfter(t, qid, n, picks + [p]) == UpdateCoverage(t, p.docid, qid, CoverageAfter(t, qid, n, picks))
    ensures t.Keys - PickedDocs(picks + [p]) == (t.Keys - PickedDocs(picks)) - {p.docid}
  {
    PickedDocsAppend(picks, p);
    XQuadRunExtends(t, qid, n, lam, weight, picks, p);
    assert (picks + [p])[..|picks|] == picks;
  }

  lemma XQuadRunExtends(t: Table, qid: string, n: nat, lam: real, weight: real, picks: seq<ScoreEntry>, p: ScoreEntry)
    requires XQuadRun(t, qid, n, lam, weight, picks)
    requires IsXQuadPick(t, t.Keys - PickedDocs(picks), qid, lam, weight, CoverageAfter(t, qid, n, picks), p)
    ensures XQuadRun(t, qid, n, lam, weight, picks + [p])
  {
    var ext := picks + [p];
    forall i | 0 <= i < |ext|
      ensures IsXQuadPick(t, t.Keys - PickedDocs(ext[..i]), qid, lam, weight, CoverageAfter(t, qid, n, ext[..i]), ext[i])
    {
      if i < |picks| {
        assert ext[..i] == picks[..i];
      } else {
        assert ext[..i] == picks;
      }
    }
  }

  /** No document is picked twice, and every pick comes from the starting table. */
  lemma XQuadPicksDistinct(t: Table, qid: string, n: nat, lam: real, weight: real, picks: seq<ScoreEntry>)
    requires XQuadRun(t, qid, n, lam, weight, picks)
    ensures forall i :: 0 <= i < |picks| ==> picks[i].docid in t
    ensures forall i, j :: 0 <= i < j < |picks| ==> picks[i].docid != picks[j].docid
  {
    forall i, j | 0 <= i < j < |picks| ensures picks[i].docid != picks[j].docid {
      assert picks[..j][i] == picks[i];
      assert picks[i].docid in PickedDocs(picks[..j]);
    }
  }

  /** One update keeps each coverage value between 0 and its old value when P lies in [0, 1]. */
  lemma CoverageDecays(t: Table, best: int, qid: string, cov: seq<real>, j: nat)
    requires ScoresWithin(t, 1.0) && j < |cov| && cov[j] >= 0.0
    ensures 0.0 <= UpdateCoverage(t, best, qid, cov)[j] <= cov[j]
  {
    var p := P(t, best, IntentId(qid, j + 1));
    PWithinUnit(t, best, IntentId(qid, j + 1));
    assert UpdateCoverage(t, best, qid, cov)[j] == Decayed(t, best, qid, cov, j) == cov[j] * (1.0 - p);
    ShrinkWithinBounds(cov[j], p);
  }

  /** Over a whole run every coverage value stays in [0, 1] when the table's scores do. */
  lemma {:induction false} CoverageWithinUnit(t: Table, qid: string, n: nat, picks: seq<ScoreEntry>)
    requires ScoresWithin(t, 1.0)
    ensures forall j :: 0 <= j < n ==> 0.0 <= CoverageAfter(t, qid, n, picks)[j] <= 1.0
  {
    if picks != [] {
      var before := CoverageAfter(t, qid, n, picks[..|picks| - 1]);
      CoverageWithinUnit(t, qid, n, picks[..|picks| - 1]);
      forall j | 0 <= j < n ensures 0.0 <= CoverageAfter(t, qid, n, picks)[j] <= 1.0 {
        CoverageDecays(t, picks[|picks| - 1].docid, qid, before, j);
      }
    }
  }

  /** The loop over j = 1..n that adds up the diversity terms of one document. */
  method XQuadDivSum(divList: DiversityList, d: int, qid: string, weight: real, coverage: seq<real>, ghost t: Table)
    returns (divSum: real)
    requires divList.Valid() && d in divList.table && Mirrors(divList, t)
    ensures divSum == Sum(DivTerms(t, d, qid, weight, coverage))
  {
    ghost var terms := DivTerms(t, d, qid, weight, coverage);
    divSum := 0.0;
    for j := 0 to |coverage|
      invariant divSum == Sum(terms[..j])
    {
      var score := divList.GetScore(d, IntentId(qid, j + 1));
      assert score == P(t, d, IntentId(qid, j + 1));
      var term := weight * score * coverage[j];
      assert term == terms[j];
      SumPrefixStep(terms, j);
      divSum := divSum + term;
    }
    assert terms[..|coverage|] == terms;
  }

  /** One round's ranking: every document of the table with its xQuAD score. */
  method XQuadRound(divList: DiversityList, qid: string, lam: real, weight: real, coverage: seq<real>, ghost t: Table)
    returns (scored: map<int, real>)
    requires divList.Valid() && Mirrors(divList, t)
    ensures scored.Keys == divList.table.Keys
    ensures forall d :: d in scored ==> scored[d] == XQuadScore(t, d, qid, lam, weight, coverage)
  {
    scored := map[];
    var docs := divList.GetKeys();
    var todo := docs;
    while todo != {}
      invariant todo <= docs
      invariant scored.Keys == docs - todo
      invariant forall d :: d in scored ==> scored[d] == XQuadScore(t, d, qid, lam, weight, coverage)
      decreases |todo|
    {
      var d := Choose(todo);
      var pdq := divList.GetScore(d, qid);
      assert pdq == P(t, d, qid);
      var divSum := XQuadDivSum(divList, d, qid, weight, coverage, t);
      var divScore := Interpolate(lam, pdq, divSum);
      scored := scored[d := divScore];
      todo := todo - {d};
    }
  }

  /** The coverage update after a pick, one intent at a time. */
  method XQuadCoverage(divList: DiversityList, best: int, qid: string, coverage: seq<real>, ghost t: Table)
    returns (next: seq<real>)
    requires divList.Valid() && best in divList.table && Mirrors(divList, t)
    ensures next == UpdateCoverage(t, best, qid, coverage)
  {
    next := coverage;
    for j := 0 to |coverage|
      invariant |next| == |coverage|
      invariant forall k :: 0 <= k < j ==> next[k] == Decayed(t, best, qid, coverage, k)
      invariant forall k :: j <= k < |coverage| ==> next[k] == coverage[k]
    {
      var cover := divList.GetScore(best, IntentId(qid, j + 1));
      next := next[j := next[j] * (1.0 - cover)];
    }
  }

  /**
   * One xQuAD round: the best document of the round's ranking with its
   * score, the coverage decayed by it, and the document removed.
   */
  method XQuadPick(divList: DiversityList, qid: string, lam: real, weight: real, coverage: seq<real>, ghost t: Table)
    returns (best: int, score: real, next: seq<real>)
    requires divList.Valid() && Mirrors(divList, t) && divList.table.Keys != {}
    modifies divList
    ensures divList.Valid() && Mirrors(divList, t)
    ensures best in old(divList.table.Keys) && divList.table.Keys == old(divList.table.Keys) - {best}
    ensures IsXQuadPick(t, old(divList.table.Keys), qid, lam, weight, coverage, ScoreEntry(best, score))
    ensures next == UpdateCoverage(t, best, qid, coverage)
  {
    var scored := XQuadRound(divList, qid, lam, weight, coverage, t);
    best, score := BestOf(scored);
    next := XQuadCoverage(divList, best, qid, coverage, t);
    divList.Remove(best);
  }

  /** One round of the xQuAD loop, carrying the loop's run and coverage bookkeeping. */
  method XQuadStep(divList: DiversityList, qid: string, n: nat, lam: real, weight: real,
                   results: seq<ScoreEntry>, coverage: seq<real>, ghost t: Table)
    returns (results': seq<ScoreEntry>, coverage': seq<real>)
    requires divList.Valid() && Mirrors(divList, t) && divList.table.Keys != {}
    requires XQuadRun(t, qid, n, lam, weight, results)
    requires divList.table.Keys == t.Keys - PickedDocs(results)
    requires coverage == CoverageAfter(t, qid, n, results)
    modifies divList
    ensures divList.Valid() && Mirrors(divList, t)
    ensures |results'| == |results| + 1 && |divList.table.Keys| + 1 == |old(divList.table.Keys)|
    ensures divList.table.Keys == t.Keys - PickedDocs(results')
    ensures XQuadRun(t, qid, n, lam, weight, results')
    ensures coverage' == CoverageAfter(t, qid, n, results')
  {
    ghost var keys := divList.table.Keys;
    var best, score, next := XQuadPick(divList, qid, lam, weight, coverage, t);
    XQuadRunStep(t, qid, n, lam, weight, results, ScoreEntry(best, score));
    RemoveOne(keys, best);
    coverage' := next;
    results' := results + [ScoreEntry(best, score)];
  }

  /**
   * The xQuAD loop: maxOutputLength rounds, each appending the document of
   * highest xQuAD score with that score, decaying the coverage of the
   * intents it covers, and removing it from the table.
   */
  method XQuad(divList: DiversityList, qid: string, n: nat, weight: real, lam: real, maxOutputLength: int)
    returns (results: seq<ScoreEntry>)
    requires divList.Valid() && maxOutputLength <= |divList.table.Keys|
    modifies divList
    ensures divList.Valid()
    ensures |results| == if maxOutputLength > 0 then maxOutputLength else 0
    ensures XQuadRun(old(divList.Contents()), qid, n, lam, weight, results)
    ensures divList.Contents() == old(divList.Contents()) - PickedDocs(results)
    ensures |divList.table.Keys| == |old(divList.table.Keys)| - |results|
  {
    ghost var t := divList.Contents();
    assert Mirrors(divList, t);
    var coverage := InitialCoverage(n);
    results := [];
    var r := 0;
    while r < maxOutputLength
      invariant 0 <= r && (r <= maxOutputLength || r == 0)
      invariant |results| == r
      invariant divList.Valid() && Mirrors(divList, t)
      invariant divList.table.Keys == t.Keys - PickedDocs(results)
      invariant |divList.table.Keys| + r == |old(divList.table.Keys)|
      invariant XQuadRun(t, qid, n, lam, weight, results)
      invariant coverage == CoverageAfter(t, qid, n, results)
    {
      results, coverage := XQuadStep(divList, qid, n, lam, weight, results, coverage, t);
      r := r + 1;
    }
    MirrorsContents(divList, t, PickedDocs(results));
  }

  lemma RemoveOne(s: set<int>, x: int)
    requires x in s
    ensures |s - {x}| == |s| - 1
  {
  }

  /** A live table mirroring t on the keys t has left is t without the removed keys. */
  lemma MirrorsContents(divList: DiversityList, t: Table, removed: set<int>)
    requires Mirrors(divList, t) && divList.table.Keys == t.Keys - removed
    ensures divList.Contents() == t - removed
  {
    forall d | d in divList.table ensures divList.Contents()[d] == t[d] {
      assert t[d] == (t[d].0, t[d].1);
    }
    assert divList.Contents().Keys == (t - removed).Keys;
  }

  // -------------------------------------------------------------------- PM2

  /** Each intent's quota: weight · maxResultRankingLength. */
  function Vote(weight: real, length: int): real
  {
    weight * length as real
  }

  /** Slots start at 0 and only ever gain credit, so every quotient's divisor is at least 1. */
  predicate NonNegativeSlots(slots: seq<real>)
  {
    forall i :: 0 <= i < |slots| ==> slots[i] >= 0.0
  }

  function InitialSlots(n: nat): (r: seq<real>)
    ensures |r| == n && NonNegativeSlots(r)
  {
    seq(n, j => 0.0)
  }

  /** The quotient of intent j = i + 1: vote / (2 · slot_j + 1). */
  function Quotient(vote: real, slots: seq<real>, i: nat): real
    requires i < |slots| && slots[i] >= 0.0
  {
    vote / (2.0 * slots[i] + 1.0)
  }

  function Quotients(vote: real, slots: seq<real>): (r: seq<real>)
    requires NonNegativeSlots(slots)
    ensures |r| == |slots|
    ensures forall i :: 0 <= i < |slots| ==> r[i] == Quotient(vote, slots, i)
  {
    seq(|slots|, i requires 0 <= i < |slots| => Quotient(vote, slots, i))
  }

  /**
   * The scan for the largest quotient over intents 1..n: it starts at
   * intent 1 with 0 and moves only on a strictly larger quotient, so a tie
   * goes to the lowest intent and no positive quotient leaves intent 1.
   */
  function MaxQuotient(qts: seq<real>): (r: (nat, real))
    ensures r.1 >= 0.0 && forall k :: 0 <= k < |qts| ==> qts[k] <= r.1
    ensures r.1 == 0.0 ==> r.0 == 1
    ensures r.1 > 0.0 ==> 1 <= r.0 <= |qts| && qts[r.0 - 1] == r.1
    ensures r.1 > 0.0 ==> forall k :: 0 <= k < r.0 - 1 ==> qts[k] < r.1
  {
    if qts == [] then (1, 0.0)
    else
      var m := MaxQuotient(qts[..|qts| - 1]);
      if qts[|qts| - 1] > m.1 then (|qts|, qts[|qts| - 1]) else m
  }

  /** quotient_j · P(d | q.j) for intent j = i + 1, and 0 for the intent of the largest quotient, which the loop skips. */
  function OtherTerm(t: Table, d: int, qid: string, qts: seq<real>, maxIdx: nat, i: nat): real
    requires i < |qts|
  {
    if i + 1 == maxIdx then 0.0 else qts[i] * P(t, d, IntentId(qid, i + 1))
  }

  function OtherTerms(t: Table, d: int, qid: string, qts: seq<real>, maxIdx: nat): (r: seq<real>)
    ensures |r| == |qts|
    ensures forall i :: 0 <= i < |qts| ==> r[i] == OtherTerm(t, d, qid, qts, maxIdx, i)
  {
    seq(|qts|, i requires 0 <= i < |qts| => OtherTerm(t, d, qid, qts, maxIdx, i))
  }

  /** The term of the intent of the largest quotient: maxQuotient · P(d | q.max). */
  function Focus(maxQt: real, score: real): real
  {
    maxQt * score
  }

  /** The PM2 score: λ · maxQuotient · P(d | q.max) + (1 − λ) · Σ_{j ≠ max} quotient_j · P(d | q.j). */
  function PM2Score(t: Table, d: int, qid: string, lam: real, qts: seq<real>): real
  {
    var m := MaxQuotient(qts);
    Interpolate(lam, Sum(OtherTerms(t, d, qid, qts, m.0)), Focus(m.1, P(t, d, IntentId(qid, m.0))))
  }

  /** P(d | q.j) for every intent j = 1..n. */
  function IntentScores(t: Table, d: int, qid: string, n: nat): (r: seq<real>)
    ensures |r| == n
    ensures forall i :: 0 <= i < n ==> r[i] == P(t, d, IntentId(qid, i + 1))
  {
    seq(n, i requires 0 <= i < n => P(t, d, IntentId(qid, i + 1)))
  }

  /** slot_j plus intent j's share of the picked document's total intent score, for j = i + 1. */
  function Credited(slots: seq<real>, scores: seq<real>, i: nat): real
    requires i < |slots| && i < |scores| && Sum(scores) != 0.0
  {
    slots[i] + scores[i] / Sum(scores)
  }

  /** The slot update after a pick whose intent scores are scores. */
  function UpdateSlots(slots: seq<real>, scores: seq<real>): (r: seq<real>)
    requires |scores| == |slots| && (slots != [] ==> Sum(scores) != 0.0)
    ensures |r| == |slots|
    ensures forall i :: 0 <= i < |slots| ==> r[i] == Credited(slots, scores, i)
  {
    seq(|slots|, i requires 0 <= i < |slots| => Credited(slots, scores, i))
  }

  /** Every stored score is non-negative. */
  ghost predicate NonNegativeTable(t: Table)
  {
    forall d, k :: d in t && 0 <= k < |t[d].1| ==> t[d].1[k] >= 0.0
  }

  /**
   * The slot update after picking d divides by d's total over intents
   * 1..n; over a non-negative table it is defined exactly when that total
   * is positive.
   */
  ghost predicate PositiveMass(t: Table, d: int, qid: string, n: nat)
  {
    n > 0 ==> Sum(IntentScores(t, d, qid, n)) > 0.0
  }

  /** Every pick so far is a table document whose slot update is defined. */
  ghost predicate Creditable(t: Table, qid: string, n: nat, picks: seq<ScoreEntry>)
  {
    forall i :: 0 <= i < |picks| ==> picks[i].docid in t && PositiveMass(t, picks[i].docid, qid, n)
  }

  /** The slots after the picks so far, starting from 0 per intent. */
  ghost function SlotsAfter(t: Table, qid: string, n: nat, picks: seq<ScoreEntry>): (r: seq<real>)
    requires NonNegativeTable(t) && Creditable(t, qid, n, picks)
    ensures |r| == n
  {
    if picks == [] then InitialSlots(n)
    else
      var last := picks[|picks| - 1].docid;
      UpdateSlots(SlotsAfter(t, qid, n, picks[..|picks| - 1]), IntentScores(t, last, qid, n))
  }

  /** One round's pick: an available document of maximal PM2 score, with that score. */
  ghost predicate IsPM2Pick(t: Table, avail: set<int>, qid: string, lam: real, vote: real,
                            slots: seq<real>, p: ScoreEntry)
  {
    NonNegativeSlots(slots) && p.docid in avail &&
    p.score == PM2Score(t, p.docid, qid, lam, Quotients(vote, slots)) &&
    forall e :: e in avail ==> PM2Score(t, e, qid, lam, Quotients(vote, slots)) <= p.score
  }

  /** Every result is the pick of its round, against the table and slots left by the earlier ones. */
  ghost predicate PM2Run(t: Table, qid: string, n: nat, lam: real, vote: real, picks: seq<ScoreEntry>)
    requires NonNegativeTable(t)
  {
    Creditable(t, qid, n, picks) &&
    forall i :: 0 <= i < |picks| ==>
      IsPM2Pick(t, t.Keys - PickedDocs(picks[..i]), qid, lam, vote, SlotsAfter(t, qid, n, picks[..i]), picks[i])
  }

  /**
   * A run that ends in a pick without intent score: the earlier picks form
   * a run, and the last is the best document of its round, but its slot
   * update would divide 0 by 0.
   */
  ghost predicate StuckPM2Run(t: Table, qid: string, n: nat, lam: real, vote: real, run: seq<ScoreEntry>)
    requires NonNegativeTable(t)
  {
    run != [] &&
    var picks, p := run[..|run| - 1], run[|run| - 1];
    PM2Run(t, qid, n, lam, vote, picks) &&
    IsPM2Pick(t, t.Keys - PickedDocs(picks), qid, lam, vote, SlotsAfter(t, qid, n, picks), p) &&
    p.docid in t && !PositiveMass(t, p.docid, qid, n)
  }

  lemma PM2RunStep(t: Table, qid: string, n: nat, lam: real, vote: real, picks: seq<ScoreEntry>, p: ScoreEntry)
    requires NonNegativeTable(t) && PM2Run(t, qid, n, lam, vote, picks)
    requires IsPM2Pick(t, t.Keys - PickedDocs(picks), qid, lam, vote, SlotsAfter(t, qid, n, picks), p)
    requires PositiveMass(t, p.docid, qid, n)
    ensures PM2Run(t, qid, n, lam, vote, picks + [p])
    ensures SlotsAfter(t, qid, n, picks + [p]) ==
            UpdateSlots(SlotsAfter(t, qid, n, picks), IntentScores(t, p.docid, qid, n))
    ensures t.Keys - PickedDocs(picks + [p]) == (t.Keys - PickedDocs(picks)) - {p.docid}
  {
    PickedDocsAppend(picks, p);
    PM2RunExtends(t, qid, n, lam, vote, picks, p);
    PM2SlotsExtend(t, qid, n, picks, p);
  }

  /** A round's best pick either extends the run or, without intent score, leaves it stuck. */
  lemma PM2RunNext(t: Table, qid: string, n: nat, lam: real, vote: real, picks: seq<ScoreEntry>, p: ScoreEntry)
    requires NonNegativeTable(t) && PM2Run(t, qid, n, lam, vote, picks)
    requires IsPM2Pick(t, t.Keys - PickedDocs(picks), qid, lam, vote, SlotsAfter(t, qid, n, picks), p)
    ensures PositiveMass(t, p.docid, qid, n) ==>
              PM2Run(t, qid, n, lam, vote, picks + [p]) &&
              SlotsAfter(t, qid, n, picks + [p]) == UpdateSlots(SlotsAfter(t, qid, n, picks), IntentScores(t, p.docid, qid, n))
    ensures !PositiveMass(t, p.docid, qid, n) ==> StuckPM2Run(t, qid, n, lam, vote, picks + [p])
    ensures t.Keys - PickedDocs(picks + [p]) == (t.Keys - PickedDocs(picks)) - {p.docid}
  {
    PickedDocsAppend(picks, p);
    if PositiveMass(t, p.docid, qid, n) {
      PM2RunStep(t, qid, n, lam, vote, picks, p);
    } else {
      PM2RunStuck(t, qid, n, lam, vote, picks, p);
    }
  }

  /** A best pick without intent score leaves the run stuck at it. */
  lemma PM2RunStuck(t: Table, qid: string, n: nat, lam: real, vote: real, picks: seq<ScoreEntry>, p: ScoreEntry)
    requires NonNegativeTable(t) && PM2Run(t, qid, n, lam, vote, picks)
    requires IsPM2Pick(t, t.Keys - PickedDocs(picks), qid, lam, vote, SlotsAfter(t, qid, n, picks), p)
    requires !PositiveMass(t, p.docid, qid, n)
    ensures StuckPM2Run(t, qid, n, lam, vote, picks + [p])
  {
    assert (picks + [p])[..|picks|] == picks;
  }

  lemma PM2SlotsExtend(t: Table, qid: string, n: nat, picks: seq<ScoreEntry>, p: ScoreEntry)
    requires NonNegativeTable(t) && Creditable(t, qid, n, picks) && p.docid in t && PositiveMass(t, p.docid, qid, n)
    ensures Creditable(t, qid, n, picks + [p])
    ensures SlotsAfter(t, qid, n, picks + [p]) ==
            UpdateSlots(SlotsAfter(t, qid, n, picks), IntentScores(t, p.docid, qid, n))
  {
    assert (picks + [p])[..|picks|] == picks;
  }

  lemma PM2RunExtends(t: Table, qid: string, n: nat, lam: real, vote: real, picks: seq<ScoreEntry>, p: ScoreEntry)
    requires NonNegativeTable(t) && PM2Run(t, qid, n, lam, vote, picks)
    requires IsPM2Pick(t, t.Keys - PickedDocs(picks), qid, lam, vote, SlotsAfter(t, qid, n, picks), p)
    requires PositiveMass(t, p.docid, qid, n)
    ensures PM2Run(t, qid, n, lam, vote, picks + [p])
  {
    var ext := picks + [p];
    assert Creditable(t, qid, n, ext) by {
      forall i | 0 <= i < |ext| ensures ext[i].docid in t && PositiveMass(t, ext[i].docid, qid, n) {
        if i < |picks| {
          assert ext[i] == picks[i];
        }
      }
    }
    forall i | 0 <= i < |ext|
      ensures IsPM2Pick(t, t.Keys - PickedDocs(ext[..i]), qid, lam, vote, SlotsAfter(t, qid, n, ext[..i]), ext[i])
    {
      if i < |picks| {
        assert ext[..i] == picks[..i] && ext[i] == picks[i];
      } else {
        assert ext[..i] == picks;
      }
    }
  }

  /** Each pick hands out exactly one unit of slot credit, shared among the intents. */
  lemma SlotCreditPerRound(slots: seq<real>, scores: seq<real>)
    requires |scores| == |slots| && slots != [] && Sum(scores) != 0.0
    ensures Sum(UpdateSlots(slots, scores)) == Sum(slots) + 1.0
  {
    var total := Sum(scores);
    var shares := seq(|scores|, i requires 0 <= i < |scores| => scores[i] / total);
    SumDivided(scores, shares, total);
    DivSelf(total);
    SumPointwise(slots, shares, UpdateSlots(slots, scores));
  }

  /** With non-negative scores of positive total, the update keeps the slots non-negative. */
  lemma SlotsStayNonNegative(slots: seq<real>, scores: seq<real>)
    requires |scores| == |slots| && (slots != [] ==> Sum(scores) > 0.0)
    requires NonNegativeSlots(slots) && forall i :: 0 <= i < |scores| ==> scores[i] >= 0.0
    ensures NonNegativeSlots(UpdateSlots(slots, scores))
  {
    forall i | 0 <= i < |slots| ensures UpdateSlots(slots, scores)[i] >= 0.0 {
      DivNonNegative(scores[i], Sum(scores));
    }
  }

  lemma PNonNegative(t: Table, d: int, intent: string)
    requires NonNegativeTable(t)
    ensures P(t, d, intent) >= 0.0
  {
  }

  /**
   * Over a run of k picks the slots stay non-negative and, with at least
   * one intent, add up to exactly k.
   */
  lemma {:induction false} SlotsTotal(t: Table, qid: string, n: nat, picks: seq<ScoreEntry>)
    requires NonNegativeTable(t) && Creditable(t, qid, n, picks)
    ensures NonNegativeSlots(SlotsAfter(t, qid, n, picks))
    ensures n > 0 ==> Sum(SlotsAfter(t, qid, n, picks)) == |picks| as real
  {
    if picks == [] {
      if n > 0 {
        SumOfZeros(InitialSlots(n));
      }
    } else {
      var prefix := picks[..|picks| - 1];
      var last := picks[|picks| - 1].docid;
      assert Creditable(t, qid, n, prefix);
      SlotsTotal(t, qid, n, prefix);
      var scores := IntentScores(t, last, qid, n);
      forall i | 0 <= i < n ensures scores[i] >= 0.0 {
        PNonNegative(t, last, IntentId(qid, i + 1));
      }
      SlotsStayNonNegative(SlotsAfter(t, qid, n, prefix), scores);
      if n > 0 {
        SlotCreditPerRound(SlotsAfter(t, qid, n, prefix), scores);
      }
    }
  }

  /** A sequence of zeros sums to zero. */
  lemma {:induction false} SumOfZeros(s: seq<real>)
    requires forall i :: 0 <= i < |s| ==> s[i] == 0.0
    ensures Sum(s) == 0.0
  {
    if s != [] {
      SumOfZeros(s[..|s| - 1]);
    }
  }

  /**
   * With a positive vote, the largest quotient belongs to the first intent
   * among those holding the fewest slots: PM2 serves the least-served
   * intent first.
   */
  lemma LargestQuotientIsLeastServed(vote: real, slots: seq<real>)
    requires vote > 0.0 && slots != [] && NonNegativeSlots(slots)
    ensures var m := MaxQuotient(Quotients(vote, slots));
            1 <= m.0 <= |slots| &&
            (forall k :: 0 <= k < |slots| ==> slots[m.0 - 1] <= slots[k]) &&
            (forall k :: 0 <= k < m.0 - 1 ==> slots[m.0 - 1] < slots[k])
  {
    var qts := Quotients(vote, slots);
    var m := MaxQuotient(qts);
    DivNonNegative(vote, 2.0 * slots[0] + 1.0);
    assert qts[0] > 0.0 by {
      assert qts[0] == vote / (2.0 * slots[0] + 1.0);
    }
    assert m.1 > 0.0;
    var b := m.0 - 1;
    forall k | 0 <= k < |slots| ensures slots[b] <= slots[k] {
      QuotientAntitone(vote, slots, k, b);
    }
    forall k | 0 <= k < b ensures slots[b] < slots[k] {
      QuotientAntitone(vote, slots, k, b);
    }
  }

  /** Fewer slots give a larger quotient, and equal slots an equal one. */
  lemma QuotientAntitone(vote: real, slots: seq<real>, i: nat, j: nat)
    requires vote > 0.0 && i < |slots| && j < |slots| && NonNegativeSlots(slots)
    ensures slots[i] < slots[j] ==> Quotient(vote, slots, i) > Quotient(vote, slots, j)
    ensures slots[i] == slots[j] ==> Quotient(vote, slots, i) == Quotient(vote, slots, j)
  {
    if slots[i] < slots[j] {
      DivByLarger(vote, 2.0 * slots[i] + 1.0, 2.0 * slots[j] + 1.0);
    }
  }

  /** The scan over intents 1..n: every quotient, and the first largest one with its intent. */
  method PM2Quotients(vote: real, slots: seq<real>) returns (qts: seq<real>, maxIdx: nat, maxQt: real)
    requires NonNegativeSlots(slots)
    ensures qts == Quotients(vote, slots) && (maxIdx, maxQt) == MaxQuotient(qts)
  {
    qts := [];
    maxIdx, maxQt := 1, 0.0;
    for i := 0 to |slots|
      invariant qts == Quotients(vote, slots)[..i]
      invariant (maxIdx, maxQt) == MaxQuotient(qts)
    {
      ghost var prev := qts;
      var qt := Quotient(vote, slots, i);
      qts := qts + [qt];
      assert qts[..i] == prev;
      if qt > maxQt {
        maxIdx, maxQt := i + 1, qt;
      }
    }
  }

  /** The loop over j = 1..n, skipping the intent of the largest quotient, that adds up the other intents' terms. */
  method PM2Coverage(divList: DiversityList, d: int, qid: string, qts: seq<real>, maxIdx: nat, ghost t: Table)
    returns (coverage: real)
    requires divList.Valid() && d in divList.table && Mirrors(divList, t)
    ensures coverage == Sum(OtherTerms(t, d, qid, qts, maxIdx))
  {
    ghost var terms := OtherTerms(t, d, qid, qts, maxIdx);
    coverage := 0.0;
    for j := 0 to |qts|
      invariant coverage == Sum(terms[..j])
    {
      SumPrefixStep(terms, j);
      if j + 1 == maxIdx {
        continue;
      }
      var score := divList.GetScore(d, IntentId(qid, j + 1));
      assert qts[j] * score == terms[j] by {
        assert score == P(t, d, IntentId(qid, j + 1));
      }
      coverage := coverage + qts[j] * score;
    }
    assert terms[..|qts|] == terms;
  }

  /** The PM2 score of one document: its quotient scan, its other-intent sum and the interpolation. */
  method PM2DocScore(divList: DiversityList, d: int, qid: string, lam: real, vote: real, slots: seq<real>, ghost t: Table)
    returns (pm2Score: real)
    requires divList.Valid() && d in divList.table && Mirrors(divList, t) && NonNegativeSlots(slots)
    ensures pm2Score == PM2Score(t, d, qid, lam, Quotients(vote, slots))
  {
    var qts, maxIdx, maxQt := PM2Quotients(vote, slots);
    var coverage := PM2Coverage(divList, d, qid, qts, maxIdx, t);
    var focus := divList.GetScore(d, IntentId(qid, maxIdx));
    assert focus == P(t, d, IntentId(qid, maxIdx));
    pm2Score := Interpolate(lam, coverage, Focus(maxQt, focus));
  }

  /** One round's ranking: every document of the table with its PM2 score. */
  method PM2Round(divList: DiversityList, qid: string, lam: real, vote: real, slots: seq<real>, ghost t: Table)
    returns (scored: map<int, real>)
    requires divList.Valid() && Mirrors(divList, t) && NonNegativeSlots(slots)
    ensures scored.Keys == divList.table.Keys
    ensures forall d :: d in scored ==> scored[d] == PM2Score(t, d, qid, lam, Quotients(vote, slots))
  {
    scored := map[];
    var docs := divList.GetKeys();
    var todo := docs;
    while todo != {}
      invariant todo <= docs
      invariant scored.Keys == docs - todo
      invariant forall d :: d in scored ==> scored[d] == PM2Score(t, d, qid, lam, Quotients(vote, slots))
      decreases |todo|
    {
      var d := Choose(todo);
      var pm2Score := PM2DocScore(divList, d, qid, lam, vote, slots, t);
      scored := scored[d := pm2Score];
      todo := todo - {d};
    }
  }

  /** sum_slots: the picked document's total score over intents 1..n. */
  method IntentMass(divList: DiversityList, best: int, qid: string, n: nat, ghost t: Table) returns (total: real)
    requires divList.Valid() && best in divList.table && Mirrors(divList, t)
    ensures total == Sum(IntentScores(t, best, qid, n))
  {
    ghost var scores := IntentScores(t, best, qid, n);
    total := 0.0;
    for k := 0 to n
      invariant total == Sum(scores[..k])
    {
      SumPrefixStep(scores, k);
      var score := divList.GetScore(best, IntentId(qid, k + 1));
      total := total + score;
    }
    assert scores[..n] == scores;
  }

  /** The slot update after a pick: each intent credited with its share of the document's total. */
  method PM2Slots(divList: DiversityList, best: int, qid: string, slots: seq<real>, ghost t: Table)
    returns (next: seq<real>)
    requires divList.Valid() && best in divList.table && Mirrors(divList, t)
    requires slots != [] ==> Sum(IntentScores(t, best, qid, |slots|)) != 0.0
    ensures next == UpdateSlots(slots, IntentScores(t, best, qid, |slots|))
  {
    ghost var scores := IntentScores(t, best, qid, |slots|);
    var total := IntentMass(divList, best, qid, |slots|, t);
    next := slots;
    for k := 0 to |slots|
      invariant |next| == |slots|
      invariant forall i :: 0 <= i < k ==> next[i] == Credited(slots, scores, i)
      invariant forall i :: k <= i < |slots| ==> next[i] == slots[i]
    {
      var score := divList.GetScore(best, IntentId(qid, k + 1));
      assert next[k] + score / total == Credited(slots, scores, k) by {
        assert next[k] == slots[k] && score == scores[k];
      }
      next := next[k := next[k] + score / total];
    }
  }

  /**
   * One PM2 round: the best document of the round's ranking with its
   * score, the slots credited by it, and the document removed.  The
   * slots are credited only when the document has intent score to share.
   */
  method PM2Pick(divList: DiversityList, qid: string, lam: real, vote: real, slots: seq<real>, ghost t: Table)
    returns (best: int, score: real, credited: bool, next: seq<real>)
    requires divList.Valid() && Mirrors(divList, t) && divList.table.Keys != {}
    requires NonNegativeSlots(slots) && NonNegativeTable(t)
    modifies divList
    ensures divList.Valid() && Mirrors(divList, t)
    ensures best in old(divList.table.Keys) && divList.table.Keys == old(divList.table.Keys) - {best}
    ensures IsPM2Pick(t, old(divList.table.Keys), qid, lam, vote, slots, ScoreEntry(best, score))
    ensures credited <==> PositiveMass(t, best, qid, |slots|)
    ensures credited ==> next == UpdateSlots(slots, IntentScores(t, best, qid, |slots|)) && NonNegativeSlots(next)
  {
    var scored := PM2Round(divList, qid, lam, vote, slots, t);
    best, score := BestOf(scored);
    ghost var scores := IntentScores(t, best, qid, |slots|);
    forall i | 0 <= i < |slots| ensures scores[i] >= 0.0 {
      PNonNegative(t, best, IntentId(qid, i + 1));
    }
    var total := IntentMass(divList, best, qid, |slots|, t);
    if slots != [] && total == 0.0 {
      credited, next := false, slots;
    } else {
      if slots != [] {
        SumNonNegative(scores);
      }
      credited := true;
      next := PM2Slots(divList, best, qid, slots, t);
      SlotsStayNonNegative(slots, scores);
    }
    divList.Remove(best);
  }

  /** One round of the PM2 loop, carrying the loop's run and slot bookkeeping. */
  method PM2Step(divList: DiversityList, qid: string, n: nat, lam: real, vote: real,
                 results: seq<ScoreEntry>, slots: seq<real>, ghost t: Table)
    returns (results': seq<ScoreEntry>, slots': seq<real>, credited: bool)
    requires divList.Valid() && Mirrors(divList, t) && divList.table.Keys != {}
    requires NonNegativeTable(t) && PM2Run(t, qid, n, lam, vote, results)
    requires divList.table.Keys == t.Keys - PickedDocs(results)
    requires slots == SlotsAfter(t, qid, n, results) && NonNegativeSlots(slots)
    modifies divList
    ensures divList.Valid() && Mirrors(divList, t)
    ensures |results'| == |results| + 1 && |divList.table.Keys| + 1 == |old(divList.table.Keys)|
    ensures divList.table.Keys == t.Keys - PickedDocs(results')
    ensures credited ==> PM2Run(t, qid, n, lam, vote, results')
    ensures credited ==> slots' == SlotsAfter(t, qid, n, results') && NonNegativeSlots(slots')
    ensures !credited ==> StuckPM2Run(t, qid, n, lam, vote, results')
  {
    ghost var keys := divList.table.Keys;
    var best, score, next;
    best, score, credited, next := PM2Pick(divList, qid, lam, vote, slots, t);
    var p := ScoreEntry(best, score);
    RemoveOne(keys, best);
    slots' := next;
    results' := results + [p];
    PM2RunNext(t, qid, n, lam, vote, results, p);
  }

  /**
   * The PM2 loop: maxOutputLength rounds, each appending the document of
   * highest PM2 score with that score, crediting the intents' slots with
   * its share of relevance, and removing it from the table.  The vote is
   * read from the same parameter as maxOutputLength.  A pick without any
   * intent score, whose slot update divides 0 by 0, ends the loop with
   * the run so far.
   */
  method PM2(divList: DiversityList, qid: string, n: nat, weight: real, lam: real, maxOutputLength: int)
    returns (r: Result<seq<ScoreEntry>, DriverError>)
    requires divList.Valid() && maxOutputLength <= |divList.table.Keys|
    requires NonNegativeTable(divList.Contents())
    modifies divList
    ensures divList.Valid()
    ensures r.Ok? ==> |r.value| == (if maxOutputLength > 0 then maxOutputLength else 0) &&
                      PM2Run(old(divList.Contents()), qid, n, lam, Vote(weight, maxOutputLength), r.value) &&
                      divList.Contents() == old(divList.Contents()) - PickedDocs(r.value)
    ensures r.Err? ==> r.error.ZeroIntentMass? && 0 < |r.error.run| <= maxOutputLength &&
                       StuckPM2Run(old(divList.Contents()), qid, n, lam, Vote(weight, maxOutputLength), r.error.run) &&
                       divList.Contents() == old(divList.Contents()) - PickedDocs(r.error.run)
  {
    ghost var t := divList.Contents();
    assert Mirrors(divList, t);
    var vote := Vote(weight, maxOutputLength);
    var slots := InitialSlots(n);
    var results := [];
    var i := 0;
    while i < maxOutputLength
      invariant 0 <= i && (i <= maxOutputLength || i == 0)
      invariant |results| == i
      invariant divList.Valid() && Mirrors(divList, t)
      invariant divList.table.Keys == t.Keys - PickedDocs(results)
      invariant |divList.table.Keys| + i == |old(divList.table.Keys)|
      invariant PM2Run(t, qid, n, lam, vote, results)
      invariant slots == SlotsAfter(t, qid, n, results) && NonNegativeSlots(slots)
    {
      var credited;
      results, slots, credited := PM2Step(divList, qid, n, lam, vote, results, slots, t);
      i := i + 1;
      if !credited {
        MirrorsContents(divList, t, PickedDocs(results));
        return Err(ZeroIntentMass(results));
      }
    }
    MirrorsContents(divList, t, PickedDocs(results));
    r := Ok(results);
  }

  /**
   * Over a table where every document has some intent score, the PM2 loop
   * never stops early.
   */
  lemma StuckRunNeedsMasslessDocument(t: Table, qid: string, n: nat, lam: real, vote: real, run: seq<ScoreEntry>)
    requires NonNegativeTable(t) && StuckPM2Run(t, qid, n, lam, vote, run)
    ensures exists d :: d in t && n > 0 && Sum(IntentScores(t, d, qid, n)) == 0.0
  {
    var d := run[|run| - 1].docid;
    var scores := IntentScores(t, d, qid, n);
    forall i | 0 <= i < n ensures scores[i] >= 0.0 {
      PNonNegative(t, d, IntentId(qid, i + 1));
    }
    SumNonNegative(scores);
  }

  // ------------------------------------------------------------ the driver

  /**
   * processDiversityList: the intent number and query id read from the
   * intent id, then the named algorithm over intents 1..intentNum with
   * weight 1 / intentNum; any other algorithm name is an error.  The
   * parameters arrive parsed; writing the ranking out is left out.
   */
  method ProcessDiversityList(divList: DiversityList, qIntentId: string, algorithm: string,
                              maxOutputLength: int, lam: real)
    returns (r: Result<seq<ScoreEntry>, DriverError>)
    requires divList.Valid()
    requires algorithm == "xQuAD" || algorithm == "PM2" ==> maxOutputLength <= |divList.table.Keys|
    requires algorithm == "PM2" ==> NonNegativeTable(divList.Contents())
    modifies divList
    ensures divList.Valid()
    ensures ParseIntentId(qIntentId).Err? ==> r == Err(ParseIntentId(qIntentId).error) && unchanged(divList)
    ensures ParseIntentId(qIntentId).Ok? && algorithm != "xQuAD" && algorithm != "PM2" ==>
              r == Err(UnsupportedAlgorithm(algorithm)) && unchanged(divList)
    ensures r.Ok? ==> |r.value| == (if maxOutputLength > 0 then maxOutputLength else 0) &&
                      divList.Contents() == old(divList.Contents()) - PickedDocs(r.value)
    ensures ParseIntentId(qIntentId).Ok? && algorithm == "xQuAD" ==>
              var (qid, intentNum) := ParseIntentId(qIntentId).value;
              r.Ok? && XQuadRun(old(divList.Contents()), qid, IntentCount(intentNum), lam, Weight(intentNum), r.value)
    ensures ParseIntentId(qIntentId).Ok? && algorithm == "PM2" ==>
              var (qid, intentNum) := ParseIntentId(qIntentId).value;
              var vote := Vote(Weight(intentNum), maxOutputLength);
              (r.Ok? && PM2Run(old(divList.Contents()), qid, IntentCount(intentNum), lam, vote, r.value)) ||
              (r.Err? && r.error.ZeroIntentMass? &&
               StuckPM2Run(old(divList.Contents()), qid, IntentCount(intentNum), lam, vote, r.error.run))
  {
    var parsed := ParseIntentId(qIntentId);
    if parsed.Err? {
      return Err(parsed.error);
    }
    var (qid, intentNum) := parsed.value;
    var n := IntentCount(intentNum);
    var weight := Weight(intentNum);
    if algorithm == "xQuAD" {
      var results := XQuad(divList, qid, n, weight, lam, maxOutputLength);
      r := Ok(results);
    } else if algorithm == "PM2" {
      r := PM2(divList, qid, n, weight, lam, maxOutputLength);
    } else {
      r := Err(UnsupportedAlgorithm(algorithm));
    }
  }

  /**
   * docIteratorAdvancePast(d) on the query's match stream: the docids the
   * iterator would still reach, with every leading one up to d skipped.
   */
  function DropThrough(s: seq<int>, d: int): (r: seq<int>)
    ensures |r| <= |s| && forall x :: x in r ==> x in s
    ensures forall i :: 0 <= i < |s| - |r| ==> s[i] <= d
    ensures r != [] ==> r[0] > d
  {
    if s != [] && s[0] <= d then DropThrough(s[1..], d) else s
  }

  /**
   * The ranking collected from a match stream: the current match with its
   * score, then the rest of the stream after advancing past it.
   */
  function Collect(s: seq<int>, score: int -> real): (r: seq<ScoreEntry>)
    ensures s == [] <==> r == []
    ensures r != [] ==> r[0] == ScoreEntry(s[0], score(s[0]))
    decreases |s|
  {
    if s == [] then [] else [ScoreEntry(s[0], score(s[0]))] + Collect(DropThrough(s[1..], s[0]), score)
  }

  /** Every collected entry is a match of the stream, with the root's score of it. */
  lemma {:induction false} CollectFromStream(s: seq<int>, score: int -> real)
    ensures forall i :: 0 <= i < |Collect(s, score)| ==>
              Collect(s, score)[i].docid in s && Collect(s, score)[i].score == score(Collect(s, score)[i].docid)
    decreases |s|
  {
    if s != [] {
      var rest := DropThrough(s[1..], s[0]);
      CollectFromStream(rest, score);
      assert forall x :: x in rest ==> x in s;
    }
  }

  /**
   * Advancing past each collected docid makes the ranking strictly
   * increasing in docid, so no document is added twice, and no entry
   * lies below the stream's first match.
   */
  lemma {:induction false} CollectIncreasing(s: seq<int>, score: int -> real)
    ensures forall i :: 0 <= i < |Collect(s, score)| ==> s[0] <= Collect(s, score)[i].docid
    ensures forall i, j :: 0 <= i < j < |Collect(s, score)| ==> Collect(s, score)[i].docid < Collect(s, score)[j].docid
    decreases |s|
  {
    if s != [] {
      var rest := DropThrough(s[1..], s[0]);
      CollectIncreasing(rest, score);
      var r := Collect(s, score);
      assert r[1..] == Collect(rest, score);
    }
  }

  /** On a strictly increasing stream nothing is skipped: every match is collected, in order. */
  lemma {:induction false} CollectAscending(s: seq<int>, score: int -> real)
    requires StrictlyIncreasing(s)
    ensures |Collect(s, score)| == |s|
    ensures forall i :: 0 <= i < |s| ==> Collect(s, score)[i] == ScoreEntry(s[i], score(s[i]))
    decreases |s|
  {
    if s != [] {
      assert DropThrough(s[1..], s[0]) == s[1..];
      CollectAscending(s[1..], score);
    }
  }

  /** The collection loop of processQuery over the root's match stream. */
  method CollectResults(matches: seq<int>, score: int -> real) returns (results: seq<ScoreEntry>)
    ensures results == Collect(matches, score)
  {
    results := [];
    var rest := matches;
    while rest != []
      invariant results + Collect(rest, score) == Collect(matches, score)
      decreases |rest|
    {
      var docid := rest[0];
      var next := DropThrough(rest[1..], docid);
      assert Collect(rest, score) == [ScoreEntry(docid, score(docid))] + Collect(next, score);
      results := results + [ScoreEntry(docid, score(docid))];
      rest := next;
    }
  }

  /** The text processQuery parses: the model's default operator around the query. */
  function QueryText(m: RetrievalModel, query: string): string
  {
    DefaultOperatorText(m) + ("(" + (query + ")"))
  }

  /**
   * Under the learning-to-rank model the default operator is null, so the
   * text processQuery parses starts with "null(", and parsing fails for
   * every query: "null" is no operator.
   */
  lemma LetorQueryRejected(m: RetrievalModel, query: string, tokenize: string -> seq<string>)
    requires m.Letor?
    ensures QryParser.Parse(QueryText(m, query), tokenize).Err?
  {
    LetorQueryText(m, query);
    NullQueryRejected(query, tokenize);
  }

  lemma LetorQueryText(m: RetrievalModel, query: string)
    requires m.Letor?
    ensures QueryText(m, query) == "null" + ("(" + (query + ")"))
  {
  }

  /** "null" is no operator's name. */
  lemma NullIsNoOperator()
    ensures QryParser.CreateOperator("null") == Err(QryParser.UnknownOperator("null"))
  {
    assert Lower("null") == "null" by {
      assert forall i :: 0 <= i < 4 ==> LowerChar("null"[i]) == "null"[i];
    }
    assert IndexOf("null", '/') == -1;
    assert QryParser.LookupOperator("null", 0).None?;
  }

  /** null(query) has nothing to trim and its operator text "null" is rejected, so it does not parse. */
  lemma NullQueryRejected(query: string, tokenize: string -> seq<string>)
    ensures QryParser.Parse("null" + ("(" + (query + ")")), tokenize).Err?
  {
    NullIsNoOperator();
    QryParser.OperatorRejectedWrapped("null", query, tokenize);
  }

  /** Whether the query node has arguments (a term has none). */
  predicate HasArgs(q: QryParser.Qry)
  {
    q.Op? && q.args != []
  }

  /**
   * processQuery: the query wrapped in the default operator is parsed and
   * optimized; a null query gives None; a query without arguments gives an
   * empty ranking; otherwise the ranking is collected from the root's
   * match stream, each match scored by the root.
   */
  method ProcessQuery(query: string, m: RetrievalModel, tokenize: string -> seq<string>,
                      matches: seq<int>, score: int -> real)
    returns (r: Result<Option<seq<ScoreEntry>>, QryParser.SyntaxError>)
    ensures var parsed := QryParser.Parse(QueryText(m, query), tokenize);
            (r.Err? <==> parsed.Err?) && (r.Err? ==> r.error == parsed.error)
    ensures var parsed := QryParser.Parse(QueryText(m, query), tokenize);
            r.Ok? ==> (r.value.None? <==> QryParser.Optimized(parsed.value).None?)
    ensures var parsed := QryParser.Parse(QueryText(m, query), tokenize);
            r.Ok? && r.value.Some? ==>
              r.value.value == if HasArgs(QryParser.Optimized(parsed.value).value) then Collect(matches, score) else []
  {
    var q := QryParser.GetQuery(QueryText(m, query), tokenize);
    if q.Err? {
      return Err(q.error);
    }
    if q.value.None? {
      return Ok(None);
    }
    var results: seq<ScoreEntry> := [];
    if HasArgs(q.value.value) {
      results := CollectResults(matches, score);
    }
    r := Ok(Some(results));
  }
}
