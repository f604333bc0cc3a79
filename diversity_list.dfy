/**
 * The diversity table: for every candidate document, the intents it was
 * retrieved for and the normalized score it received for each, kept as two
 * parallel lists in insertion order.  The diversification loops read scores
 * from it and remove each document they select.
 */
module DiversityLists {
  import opened Support

  /**
   * The score paired with the first occurrence of intent, or 0.0 when the
   * intent is absent: the lookup rule of getScore on plain values.
   */
  function IntentScore(intents: seq<string>, scores: seq<real>, intent: string): (r: real)
    ensures r == 0.0 || exists k :: 0 <= k < |scores| && r == scores[k]
    ensures intent !in intents ==> r == 0.0
    ensures intent in intents && |intents| == |scores| ==>
              exists k :: 0 <= k < |intents| && intents[k] == intent && r == scores[k] &&
                          forall j :: 0 <= j < k ==> intents[j] != intent
  {
    var k := IndexOf(intents, intent);
    if k == -1 || k >= |scores| then 0.0 else scores[k]
  }

  /** The parallel intent and score lists of one document (queryIntents). */
  class QueryIntents {
    var intents: seq<string>
    var scores: seq<real>

    ghost predicate Valid()
      reads this
    {
      |intents| == |scores|
    }

    constructor (intent: string, score: real)
      ensures intents == [intent] && scores == [score]
      ensures Valid()
    {
      intents := [intent];
      scores := [score];
    }

    method Add(intent: string, score: real)
      requires Valid()
      modifies this
      ensures Valid()
      ensures intents == old(intents) + [intent] && scores == old(scores) + [score]
    {
      intents := intents + [intent];
      scores := scores + [score];
    }

    /** The index of the intent's first occurrence, or -1. */
    function GetIntent(intent: string): (r: int)
      reads this
      ensures -1 <= r < |intents|
      ensures r == -1 <==> intent !in intents
      ensures r >= 0 ==> intents[r] == intent && forall j :: 0 <= j < r ==> intents[j] != intent
    {
      IndexOf(intents, intent)
    }

    /** The score paired with the intent's first occurrence, or 0.0 when it is absent. */
    function GetScore(intent: string): (r: real)
      reads this
      requires Valid()
      ensures r == IntentScore(intents, scores, intent)
      ensures intent !in intents ==> r == 0.0
      ensures intent in intents ==>
                exists k :: 0 <= k < |intents| && intents[k] == intent && r == scores[k] &&
                            forall j :: 0 <= j < k ==> intents[j] != intent
    {
      var k := GetIntent(intent);
      if k == -1 then 0.0 else scores[k]
    }

    /** scores.set(j, s) on the live score list: one score replaced, the intents untouched. */
    method SetScore(j: nat, s: real)
      requires Valid() && j < |scores|
      modifies this
      ensures Valid()
      ensures intents == old(intents) && scores == old(scores)[j := s]
    {
      scores := scores[j := s];
    }
  }

  class DiversityList {
    var table: map<int, QueryIntents>

    /** Every entry keeps its lists parallel, and no two docids share an entry. */
    ghost predicate Valid()
      reads this, table.Values
    {
      (forall d :: d in table ==> table[d].Valid()) &&
      (forall d, e :: d in table && e in table && d != e ==> table[d] != table[e])
    }

    /** The table's contents as values: docid to its (intents, scores). */
    ghost function Contents(): map<int, (seq<string>, seq<real>)>
      reads this, table.Values
    {
      map d | d in table :: (table[d].intents, table[d].scores)
    }

    constructor ()
      ensures table == map[] && Valid()
    {
      table := map[];
    }

    /**
     * add: an existing docid gets (intent, score) appended to its lists; a
     * new docid gets an entry holding exactly that pair.  No other entry
     * changes.
     */
    method Add(docId: int, intent: string, score: real)
      requires Valid()
      modifies this, table.Values
      ensures Valid()
      ensures forall q :: q in table.Values ==> q in old(table.Values) || fresh(q)
      ensures table.Keys == old(table.Keys) + {docId}
      ensures Contents() ==
                old(Contents())[docId :=
                  if docId in old(Contents())
                  then (old(Contents())[docId].0 + [intent], old(Contents())[docId].1 + [score])
                  else ([intent], [score])]
    {
      if docId in table {
        var intents := table[docId];
        intents.Add(intent, score);
        assert forall d :: d in table && d != docId ==> table[d] != intents;
      } else {
        var qt := new QueryIntents(intent, score);
        table := table[docId := qt];
      }
    }

    /**
     * getScore: the docid must be present; the score of the intent's first
     * occurrence in that document's lists, or 0.0 (see IntentScore).
     */
    function GetScore(docId: int, intent: string): (r: real)
      reads this, table.Values
      requires Valid() && docId in table
      ensures r == IntentScore(table[docId].intents, table[docId].scores, intent)
    {
      table[docId].GetScore(intent)
    }

    /** getQueryIntents: the entry of a docid, or null. */
    function GetQueryIntents(docId: int): (r: Option<QueryIntents>)
      reads this
      ensures r.Some? <==> docId in table
      ensures r.Some? ==> r.value in table.Values
    {
      if docId in table then Some(table[docId]) else None
    }

    function GetKeys(): (r: set<int>)
      reads this
      ensures forall d :: d in r <==> d in table
    {
      table.Keys
    }

    /** size: the number of docids, as many as getKeys returns. */
    function Size(): (r: nat)
      reads this
      ensures r == |GetKeys()|
    {
      |table|
    }

    /** getAllScores: a document's scores, one per recorded intent. */
    function GetAllScores(docId: int): (r: seq<real>)
      reads this, table.Values
      requires Valid() && docId in table
      ensures |r| == |GetAllIntents(docId)| && r == Contents()[docId].1
      ensures forall k :: 0 <= k < |r| && GetAllIntents(docId)[k] !in GetAllIntents(docId)[..k] ==>
                            r[k] == GetScore(docId, GetAllIntents(docId)[k])
    {
      table[docId].scores
    }

    /** getAllIntents: a document's intents in insertion order. */
    function GetAllIntents(docId: int): (r: seq<string>)
      reads this, table.Values
      requires docId in table
      ensures r == Contents()[docId].0
    {
      table[docId].intents
    }

    /** remove: exactly that docid leaves the table; every other entry is unchanged. */
    method Remove(docId: int)
      requires Valid()
      modifies this
      ensures Valid()
      ensures table.Keys == old(table.Keys) - {docId}
      ensures forall d :: d in table ==> table[d] == old(table)[d]
      ensures Contents() == old(Contents()) - {docId}
    {
      table := table - {docId};
    }
  }
}
