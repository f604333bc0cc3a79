# QryEval in Dafny

This project models the core of QryEval, a small search engine. Queries are
written in a prefix query language (`#and(apple #near/1(pie crust))`,
`#wsum(0.3 a 0.7 b)`). The engine parses and optimizes a query and evaluates
it over inverted lists. It scores documents under one of four retrieval
models (unranked boolean, ranked boolean, BM25, Indri). It can then re-rank
the rankings of a query and its intents with one of two diversification
algorithms, xQuAD or PM2.

One Dafny module per source file:

- `support.dfy` (`Support`): shared helpers.
  - `Option` and `Result`.
  - Sums, minima and maxima over sequences.
  - Java's `trim`, `split` and `toLowerCase` (ASCII letters only; see ## Left out).
  - Decimal text of a natural number.
- `parser.dfy` (`QryParser`), for `QryParser.java`.
  - Parenthesis counting and balancing.
  - Popping terms and subqueries.
  - Operator creation.
  - Term creation with fields.
  - Weight accumulation for `#wsum`/`#wand`.
  - The recursive-descent parse and the optimizer.
- `inv_list.dfy` (`InvLists`): inverted lists and what both proximity operators share.
  - The document candidacy step.
  - The specification of the list they synthesize.
- `near.dfy` (`QryIopNear`): the greedy `#near/n` location scan and `evaluate`.
- `window.dfy` (`QryIopWindow`): the `#window/n` location scan and `evaluate`.
- `retrieval_model.dfy` (`RetrievalModels`):
  - the retrieval models as a datatype;
  - their default operators;
  - `initializeRetrievalModel`.
- `qry_sop.dfy` (`QrySop`): what the score operators share.
  - The union (minimum docid) match rule.
  - The intersection match rule.
  - The collection of argument scores.
- `sop_score.dfy`, `sop_and.dfy`, `sop_or.dfy`, `sop_sum.dfy`, `sop_wsum.dfy`: the `#score`, `#and`, `#or`, `#sum` and `#wsum` operators.
  - `getScore` and `getDefaultScore` per retrieval model.
  - `docIteratorHasMatch` of each: the first argument's match for `#score`, the union rule for `#or`, `#sum` and `#wsum`, and union or intersection by model for `#and`.
- `diversity_list.dfy` (`DiversityLists`): the diversity table.
  - A class holding a map from docid to a `QueryIntents` object.
  - Each `QueryIntents` object holds two parallel lists, intents and scores, that its methods update in place.
- `qry_eval.dfy` (`QryEval`): the driver.
  - `processQuery`.
  - `normalize`, which builds the diversity table from the rankings.
  - `processDiversityList` with xQuAD and PM2.

Loops in the source are methods with loop invariants. Each method is proved
against a specification function, and the properties the engine promises are
lemmas about those functions. Examples of those properties:

- The optimizer is idempotent and keeps the query's terms.
- Every `#near/n` location ends an in-order chain of gaps of at most n.
- Every `#window/n` location is the right end of a span narrower than n.
- Normalized scores lie in [0, 1].
- xQuAD coverage only decays.
- PM2 hands out one unit of slot credit per round.

## Model

| member | source | states |
|---|---|---|
| DiversityLists.IntentScore | QryEval/DiversityList.java:18-26 | the score of the first occurrence of the intent, and 0 when the intent is absent |
| DiversityLists.QueryIntents.constructor | QryEval/DiversityList.java:8-11 | a new entry holds exactly the one (intent, score) pair |
| DiversityLists.QueryIntents.Add | QryEval/DiversityList.java:13-16 | the pair is appended to both parallel lists, which stay the same length |
| DiversityLists.QueryIntents.GetIntent | QryEval/DiversityList.java:24-26 | indexOf: -1 exactly when the intent is absent, otherwise the index of its first occurrence |
| DiversityLists.QueryIntents.GetScore | QryEval/DiversityList.java:18-22 | 0 for an absent intent, otherwise the score paired with its first occurrence |
| DiversityLists.QueryIntents.SetScore | QryEval/QryEval.java:380-387 | writing through the live score list replaces exactly one score; intents unchanged |
| DiversityLists.DiversityList.constructor | QryEval/DiversityList.java:40 | the table starts empty |
| DiversityLists.DiversityList.Add | QryEval/DiversityList.java:42-51 | the docid's entry gains the pair: an existing entry is extended and a missing one is created; every other entry is unchanged |
| DiversityLists.DiversityList.GetScore | QryEval/DiversityList.java:53-56 | the score of the intent's first occurrence for that document, 0 when the intent is absent |
| DiversityLists.DiversityList.GetQueryIntents | QryEval/DiversityList.java:58-60 | the document's entry, or null (None) exactly when it has none |
| DiversityLists.DiversityList.Size | QryEval/DiversityList.java:62-64 | the number of documents in the table |
| DiversityLists.DiversityList.GetAllScores | QryEval/DiversityList.java:71-73 | exactly the document's stored score list, parallel to its intent list, each intent's first occurrence holding its score |
| DiversityLists.DiversityList.GetAllIntents | QryEval/DiversityList.java:75-77 | the document's intent list |
| DiversityLists.DiversityList.GetKeys | QryEval/DiversityList.java:79-81 | exactly the documents in the table |
| DiversityLists.DiversityList.Remove | QryEval/DiversityList.java:83-85 | the document is gone; every other entry is unchanged |
| InvLists.AlignOnFirst | QryEval/QryIopNear.java:25-51 | candidacy: the first child's document is accepted exactly when every child holds it, and then every cursor rests on its posting; cursors only move forward |
| InvLists.SynthesizeSound | QryEval/QryIopNear.java:21-132 | every synthesized posting is for a document all children hold and carries exactly the matcher's non-empty locations |
| InvLists.SynthesizeComplete | QryEval/QryIopNear.java:21-132 | every first-child document that all children hold and that has locations gets a posting |
| InvLists.SynthesizeAscending | QryEval/QryIopNear.java:111-118 | the synthesized list is ascending in docid |
| InvLists.SynthesizeBounded | QryEval/QryIopNear.java:21-132 | no posting lies beyond the last first-child document considered |
| InvLists.AcceptStep | QryEval/QryIopNear.java:111-118 | an accepted document appends its posting when it has locations, and all document cursors advance; the loop invariant is kept |
| InvLists.RejectStep | QryEval/QryIopNear.java:124-131 | a rejected document appends nothing and only the first cursor advances; the loop invariant is kept |
| InvLists.AdvanceAllBehind | QryEval/QryIopNear.java:117-118 | after an accepted document, every later child still lags behind the next candidate |
| InvLists.AdvanceFirstBehind | QryEval/QryIopNear.java:130 | after a rejected document, every later child still lags behind the next candidate |
| QryIopNear.SkipTo | QryEval/QryIopNear.java:64-74 | the cursor skips exactly the positions not after the anchor |
| QryIopNear.ScanFrom | QryEval/QryIopNear.java:61-90 | one chain attempt: cursors only move forward; a completed chain has every later cursor on a position and ends on the last child's position |
| QryIopNear.ScanSkip | QryEval/QryIopNear.java:72-74 | skipping a position not after the anchor leaves the attempt's outcome unchanged |
| QryIopNear.ScanStop | QryEval/QryIopNear.java:76-83 | the first position after the anchor fails the attempt when it is more than n away, and otherwise becomes the anchor |
| QryIopNear.ScanExhausted | QryEval/QryIopNear.java:86-89 | a child with no positions left fails the attempt |
| QryIopNear.ScanChain | QryEval/QryIopNear.java:61-90 | the source's loop over children 1.. computes exactly the attempt ScanFrom specifies |
| QryIopNear.NearLoopOk | QryEval/QryIopNear.java:93-102 | a completed chain records its last link and advances every cursor; the loop ends once a child is exhausted |
| QryIopNear.NearLoopFail | QryEval/QryIopNear.java:104-107 | a failed chain records nothing and drops the tried start |
| QryIopNear.AdvanceLocations | QryEval/QryIopNear.java:95-99 | every position cursor advances by one, and the result reports whether some child ran out |
| QryIopNear.NearAttempt | QryEval/QryIopNear.java:57-109 | one pass of the location loop: its output prefixes the rest of the loop's locations, and the queue of starts shrinks |
| QryIopNear.MatchNear | QryEval/QryIopNear.java:55-109 | the locations for one document are exactly those of the greedy scan specification |
| QryIopNear.NearDocStep | QryEval/QryIopNear.java:21-132 | one pass of the document loop keeps the synthesis invariant and advances the first cursor by one |
| QryIopNear.EvaluateNear | QryEval/QryIopNear.java:18-134 | with fewer than two children no list is built; otherwise the list is the synthesis with the #near/n matcher |
| QryIopNear.NearLoopSound | QryEval/QryIopNear.java:57-109 | every recorded location ends a chain: one position per child, each after the previous and at most n further |
| QryIopNear.NearLocationsSound | QryEval/QryIopNear.java:55-109 | soundness of #near/n for one document |
| QryIopNear.NearLoopIncreasing | QryEval/QryIopNear.java:93-102 | the recorded locations strictly ascend and lie beyond every position of the last child already passed |
| QryIopNear.NearLocationsIncreasing | QryEval/QryIopNear.java:55-109 | a document's #near/n location list is strictly ascending |
| QryIopNear.NearAdjacentExample | QryEval/QryIopNear.java:55-109 | "a b" matches #near/1(a b), at the position of b |
| QryIopNear.NearGapExample | QryEval/QryIopNear.java:55-109 | "a x b" does not match #near/1(a b) |
| QryIopNear.NearRepeatedExample | QryEval/QryIopNear.java:93-102 | each completed chain is recorded, so "a b .. a b" matches twice |
| QryIopNear.NearGreedyMissesLaterLink | QryEval/QryIopNear.java:72-84 | the scan is greedy: a valid chain through a later position of a middle child is not found |
| QryIopWindow.Current | QryEval/QryIopWindow.java:56-63 | the children's current positions, child by child |
| QryIopWindow.Lagging | QryEval/QryIopWindow.java:79 | the first child whose current position is the minimum |
| QryIopWindow.AdvanceLagging | QryEval/QryIopWindow.java:78-81 | only that child's cursor advances, and the positions left to visit shrink |
| QryIopWindow.CollectPositions | QryEval/QryIopWindow.java:55-63 | the positions are collected exactly when no child is exhausted, and then they are the current ones |
| QryIopWindow.AdvanceWhileMatching | QryEval/QryIopWindow.java:70-76 | cursors advance in child order, and the scan stops at the first exhausted child; it matches on exactly when no child is exhausted after all advance |
| QryIopWindow.FitsStep | QryEval/QryIopWindow.java:66-77 | a span narrower than n records the maximum position and advances every cursor |
| QryIopWindow.MissStep | QryEval/QryIopWindow.java:78-81 | a span too wide records nothing and advances only the lagging child |
| QryIopWindow.ExhaustedStep | QryEval/QryIopWindow.java:58-61 | once a child is exhausted, nothing more is recorded |
| QryIopWindow.RecordStep | QryEval/QryIopWindow.java:68-69 | appending the maximum keeps the locations a prefix of the specification |
| QryIopWindow.SkipStep | QryEval/QryIopWindow.java:79-80 | advancing the child at indexOf(min) leaves the remaining specification unchanged |
| QryIopWindow.MatchWindow | QryEval/QryIopWindow.java:51-84 | the locations for one document are exactly those of the window scan specification |
| QryIopWindow.WindowDocStep | QryEval/QryIopWindow.java:28-95 | one pass of the document loop keeps the synthesis invariant and advances the first cursor by one |
| QryIopWindow.EvaluateWindow | QryEval/QryIopWindow.java:25-96 | with fewer than two children no list is built; otherwise the list is the synthesis with the #window/n matcher |
| QryIopWindow.WindowLoopSound | QryEval/QryIopWindow.java:53-84 | every location is the maximum of one position per child whose span is below n |
| QryIopWindow.WindowLocationsSound | QryEval/QryIopWindow.java:51-84 | soundness of #window/n for one document |
| QryIopWindow.WindowLoopIncreasing | QryEval/QryIopWindow.java:53-84 | with ascending position lists, the locations strictly ascend and lie at or after every current position |
| QryIopWindow.WindowLocationsIncreasing | QryEval/QryIopWindow.java:51-84 | a document's #window/n location list is strictly ascending |
| QryIopWindow.WindowFitsExample | QryEval/QryIopWindow.java:66-69 | positions 5, 6, 7 match #window/3 at 7 |
| QryIopWindow.WindowUnorderedExample | QryEval/QryIopWindow.java:66-69 | order does not matter: 7, 5, 6 also match #window/3 at 7 |
| QryIopWindow.WindowTooWideExample | QryEval/QryIopWindow.java:78-81 | positions 5, 6, 9 do not match #window/3 |
| QryParser.AppendArg | QryEval/QryParser.java:371 | the argument is appended and the earlier ones are kept; an inverted-list argument of a score operator is wrapped in #score |
| QryParser.AppendAll | QryEval/QryParser.java:361-373 | all items are appended in order after the existing arguments, each inverted list wrapped in #score under a score operator; a weighted operator takes the pending weights when anything is appended |
| QryParser.CountIsMultiplicity | QryEval/QryParser.java:59-70 | the count is the character's multiplicity in the string |
| QryParser.CountChars | QryEval/QryParser.java:59-70 | the loop computes that count |
| QryParser.BalanceFrom | QryEval/QryParser.java:210-227 | the first index after which depth returns to zero at a ')', or -1 when there is none |
| QryParser.BalancingIndex | QryEval/QryParser.java:210-227 | -1 exactly when no ')' closes the first group, otherwise the least such index |
| QryParser.IndexOfBalencingParen | QryEval/QryParser.java:210-227 | the loop computes that index |
| QryParser.BalancingNestedExample | QryEval/QryParser.java:210-227 | in "(a (b)) c)" the balancing paren is at 6 |
| QryParser.BalancingUnmatchedExamples | QryEval/QryParser.java:210-227 | ")(" and "#or a" have none |
| QryParser.FirstSpace | QryEval/QryParser.java:411-423 | the first whitespace at or after i, or -1 when there is none |
| QryParser.SpaceRunEnd | QryEval/QryParser.java:411-423 | the end of the whitespace run starting at i |
| QryParser.PopTerm | QryEval/QryParser.java:411-423 | the popped token has no whitespace; a whitespace-free string is popped whole; otherwise the rest follows the separating whitespace |
| QryParser.PopTermRoundTrip | QryEval/QryParser.java:411-423 | popping "token rest" gives back the token and the rest |
| QryParser.PopSubqueryAsWritten | QryEval/QryParser.java:388-400 | as written: the prefix up to the balancing paren and the rest, or a throw when there is no balancing paren |
| QryParser.PopSubquery | QryEval/QryParser.java:388-400 | corrected: the two parts concatenate to the input; the popped part ends at the balancing paren, or is the whole string when there is none |
| QryParser.PopSubqueryAgrees | QryEval/QryParser.java:388-400 | whenever the as-written pop succeeds, the corrected one returns the same |
| QryParser.ParseInt | QryEval/QryParser.java:82-85 | Integer.parseInt: an optional '+' or '-' sign and digits within 32 bits, otherwise NumberFormatException |
| QryParser.ParseIntRoundTrip | QryEval/QryParser.java:82-85 | the decimal text of n, with or without a leading '-', parses back to n or -n |
| QryParser.LookupOperator | QryEval/QryParser.java:94-132 | a known operator's spelling maps to its kind; #near and #window take the distance |
| QryParser.LookupSpelling | QryEval/QryParser.java:94-132 | each operator kind is found by its spelling |
| QryParser.LookupIgnoresDistance | QryEval/QryParser.java:94-132 | whether a name is known does not depend on the distance |
| QryParser.CreateOperator | QryEval/QryParser.java:78-137 | a fresh operator with no arguments, or UnknownOperator; a name without '/' fails only as unknown |
| QryParser.CreateOperatorDistance | QryEval/QryParser.java:82-85 | "#near/n" creates #near with distance n |
| QryParser.UnknownOperatorRejected | QryEval/QryParser.java:128-131 | a name the lookup does not know is rejected |
| QryParser.SplitField | QryEval/QryParser.java:151-161 | text before the first '.' and the field lower-cased after it, or the body field when there is no dot; "a.b.title" names field "b.title" |
| QryParser.SplitFieldAt | QryEval/QryParser.java:151-161 | with the first dot at d, the split is at d |
| QryParser.CreateTerms | QryEval/QryParser.java:147-185 | an unknown field is an error, otherwise one term per token of the tokenizer, all in that field |
| QryParser.CreateTermsSplitsField | QryEval/QryParser.java:165-184 | "term.field" yields the tokens of term in the field when the field is known, and an error otherwise |
| QryParser.CreateTermsTitleExample | QryEval/QryParser.java:151-171 | field names are case-insensitive: "apple.TITLE" creates the tokens of "apple" as terms of the title field |
| QryParser.NumberAcceptedExamples | QryEval/QryParser.java:352 | "0.5", "-2" and "10" are weight tokens |
| QryParser.NumberRejectedExamples | QryEval/QryParser.java:352 | "a", "1.", "-" and "1.2.3" are not |
| QryParser.ParensOkShape | QryEval/QryParser.java:298-304 | a string passing the paren checks has a '(' before its last character, which is ')' |
| QryParser.ArgText | QryEval/QryParser.java:314-322 | the argument text is strictly shorter than the query |
| QryParser.Parse | QryEval/QryParser.java:292-377 | a string failing the paren checks is rejected; a parsed query is an operator whose name is its kind's spelling (with the corrected popSubquery of ## Findings) |
| QryParser.ParseArgs | QryEval/QryParser.java:331-374 | the argument loop only appends to the operator it starts with |
| QryParser.ParseArgsOn | QryEval/QryParser.java:358-374 | after consuming one argument, the loop only appends |
| QryParser.ParseString | QryEval/QryParser.java:292-377 | the recursive-descent parser computes Parse (with the corrected popSubquery of ## Findings) |
| QryParser.OperatorRejectedParse | QryEval/QryParser.java:314-315 | a query whose operator text is not an operator does not parse |
| QryParser.UnbalancedSubqueryRejected | QryEval/QryParser.java:344-348 | a subquery without a balancing paren makes the parse fail with a parenthesis error |
| QryParser.NumberTokenGoesToWeights | QryEval/QryParser.java:352-353 | a number token is accumulated as a weight and adds no argument |
| QryParser.WeightsSetBeforeArgument | QryEval/QryParser.java:361-373 | the pending weights are attached before the term arguments that follow them |
| QryParser.WeightsSetBeforeSubquery | QryEval/QryParser.java:344-373 | the pending weights are attached before a subquery argument, which is appended, and the loop continues on the rest |
| QryParser.PopSubqueryAsWrittenThrows | QryEval/QryParser.java:388-400 | "#and(#or a)" passes the paren checks, yet popping "#or a" throws as written |
| QryParser.FindingQueryRejected | QryEval/QryParser.java:344-348 | with the corrected pop, "#and(#or a)" is a parenthesis syntax error |
| QryParser.OptimizeQuery | QryEval/QryParser.java:239-281 | the recursive optimizer computes the optimization specification |
| QryParser.LeavesListAppend | QryEval/QryParser.java:239-281 | the terms of a concatenation are the terms of the parts, in order |
| QryParser.OptimizedLeaves | QryEval/QryParser.java:239-281 | optimizing keeps the query's terms in order, and drops the query exactly when it has none |
| QryParser.OptimizedIsOptimal | QryEval/QryParser.java:239-281 | the result has no empty operator and no single-argument operator other than #score |
| QryParser.OptimalIsFixpoint | QryEval/QryParser.java:239-281 | an optimal query is left unchanged |
| QryParser.OptimalHasLeaves | QryEval/QryParser.java:239-281 | an optimal query has at least one term |
| QryParser.OptimizedNullIffNoTerms | QryEval/QryParser.java:239-281 | optimization returns null exactly when there is no term, and it is idempotent |
| QryParser.OptimizeStopwordsExample | QryEval/QryParser.java:239-281 | an #and whose only argument is an empty #near is dropped |
| QryParser.OptimizeSingleArgumentExample | QryEval/QryParser.java:239-281 | a single-argument operator is replaced by its argument, but #score is kept |
| QryParser.GetQuery | QryEval/QryParser.java:196-202 | a parse error propagates; otherwise the result is the optimized parse, which is optimal (with the corrected popSubquery of ## Findings) |
| RetrievalModels.DefaultOperatorText | QryEval/QryEval.java:146-148 | the model's default operator, or the text "null" that Java string concatenation gives for the learning-to-rank model |
| RetrievalModels.InitializeRetrievalModel | QryEval/QryEval.java:81-115 | the name, lower-cased, selects one of four models; any other name is an error naming it, and a missing parameter is an error |
| RetrievalModels.ModelNameCaseInsensitive | QryEval/QryEval.java:85 | names equal up to case give the same model |
| RetrievalModels.BM25MixedCaseExample | QryEval/QryEval.java:100-101 | "BM25" selects BM25 with its three parameters |
| QrySop.MatchingScores | QryEval/QrySopOr.java:67-81 | exactly the scores of the arguments on the document, empty exactly when none is |
| QrySop.MatchingSumIsMaskedSum | QryEval/QrySopSum.java:30-43 | summing the scores of the matching arguments equals summing every argument with non-matching ones as zero |
| QrySop.Head | QryEval/QrySopOr.java:19-21 | the least docid of an argument's remaining list |
| QrySop.MatchMin | QryEval/QrySopOr.java:19-21 | the union rule: the least docid any argument has, None when all are empty |
| QrySop.FirstCommon | QryEval/QrySopAnd.java:54-59 | the first docid of the first argument that every argument holds |
| QrySop.MatchAll | QryEval/QrySopAnd.java:54-59 | the intersection rule: the least docid every argument holds |
| QrySop.FirstCommonIsLeast | QryEval/QrySopAnd.java:54-59 | that docid is the least common one |
| QrySopScore.DocIteratorHasMatch | QryEval/QrySopScore.java:23-25 | the first argument's match: none exactly when its iterator is exhausted, else the least docid it still holds |
| QrySopScore.UnrankedBooleanScore | QryEval/QrySopScore.java:78-84 | 1 exactly when matched, 0 otherwise |
| QrySopScore.RankedBooleanScore | QryEval/QrySopScore.java:87-93 | the term frequency when matched, 0 otherwise |
| QrySopScore.Rsj | QryEval/QrySopScore.java:95-110 | RSJ weight clamped at 0: non-negative, and equal to the log ratio or to 0 |
| QrySopScore.UserWeight | QryEval/QrySopScore.java:95-110 | the query-term weight (k3+1)/(k3+1) is 1 |
| QrySopScore.BM25Score | QryEval/QrySopScore.java:95-110 | 0 when unmatched; otherwise RSJ times the tf weight times the user weight |
| QrySopScore.TfWeightBounds | QryEval/QrySopScore.java:95-110 | the tf weight lies in [0, 1) |
| QrySopScore.TfWeightIncreasing | QryEval/QrySopScore.java:95-110 | the tf weight grows with tf |
| QrySopScore.BM25NonNegative | QryEval/QrySopScore.java:95-110 | a BM25 term score is never negative |
| QrySopScore.IndriDefaultScore | QryEval/QrySopScore.java:60-70 | the Indri default score is the Indri score at tf = 0 |
| QrySopScore.IndriIncreasingInTf | QryEval/QrySopScore.java:112-119 | the Indri score grows with tf |
| QrySopScore.GetScore | QryEval/QrySopScore.java:33-58 | dispatch by model to the four formulas; learning-to-rank is unsupported |
| QrySopScore.GetDefaultScore | QryEval/QrySopScore.java:60-70 | the Indri score at tf = 0 under Indri, 0 under every other model |
| QrySopScore.IndriMatchBeatsDefault | QryEval/QrySopScore.java:60-70 | a matched term scores above its default |
| QrySopAnd.DocIteratorHasMatch | QryEval/QrySopAnd.java:54-59 | union rule under Indri, intersection rule otherwise |
| QrySopAnd.Score | QryEval/QrySopAnd.java:14-35 | learning-to-rank unsupported; 1 when matched under unranked boolean; the minimum argument score under ranked boolean and BM25; the geometric mean of score-or-default under Indri |
| QrySopAnd.DefaultScore | QryEval/QrySopAnd.java:37-47 | the geometric mean of the argument defaults under Indri, 0 otherwise |
| QrySopAnd.IndriUnmatchedArgumentsGiveDefault | QryEval/QrySopAnd.java:99-116 | with no argument on the document, the Indri score is the default score |
| QrySopAnd.RankedAndIsWeakestArgument | QryEval/QrySopAnd.java:75-97 | the ranked AND score is the score of an argument no greater than any other |
| QrySopAnd.GetScore | QryEval/QrySopAnd.java:14-35 | the loops compute Score |
| QrySopAnd.GetDefaultScore | QryEval/QrySopAnd.java:37-47 | the loop computes DefaultScore |
| QrySopOr.DocIteratorHasMatch | QryEval/QrySopOr.java:19-21 | always the union rule |
| QrySopOr.Score | QryEval/QrySopOr.java:29-46 | boolean models only; ranked: the largest score among the matching arguments, and NoSuchElement when none matches |
| QrySopOr.DefaultScore | QryEval/QrySopOr.java:48-51 | 0 |
| QrySopOr.RankedOrAtUnionMatch | QryEval/QrySopOr.java:67-81 | at the document the union rule matches, the ranked score never hits the empty-list error |
| QrySopOr.GetScore | QryEval/QrySopOr.java:29-46 | the loop computes Score |
| QrySopSum.DocIteratorHasMatch | QryEval/QrySopSum.java:25-28 | the union rule |
| QrySopSum.Score | QryEval/QrySopSum.java:7-15 | BM25 only: the sum of the matching arguments' scores |
| QrySopSum.DefaultAtLeastEachArgument | QryEval/QrySopSum.java:17-23 | with non-negative defaults, the default is at least each argument's default |
| QrySopSum.SumAtLeastEachMatchingArgument | QryEval/QrySopSum.java:30-43 | with non-negative scores, the sum is at least each matching argument's score |
| QrySopSum.NonMatchingScoresIgnored | QryEval/QrySopSum.java:30-43 | scores of arguments that are not on the document do not affect the result |
| QrySopSum.GetScore | QryEval/QrySopSum.java:30-43 | the loop computes Score |
| QrySopSum.GetDefaultScore | QryEval/QrySopSum.java:17-23 | the loop computes the sum of the defaults |
| QrySopWsum.DocIteratorHasMatch | QryEval/QrySopWsum.java:59-62 | always the union rule: the least docid any argument still holds, or none exactly when every argument is exhausted |
| QrySopWsum.FieldsOfJoin | QryEval/QryParser.java:352-353 | splitting the accumulated "w1 w2 .. " string gives back the weights, plus one empty field |
| QrySopWsum.SplitJoinRoundTrip | QryEval/QrySopWsum.java:14-20 | Java's split, which drops trailing empty fields, gives back exactly the weights the parser accumulated |
| QrySopWsum.Weights | QryEval/QrySopWsum.java:14-20 | one parsed number per split field, or NumberFormatException exactly when Double.parseDouble rejects some field |
| QrySopWsum.WeightlessWeightsRejected | QryEval/QrySopWsum.java:14-20 | the empty weight string of a #wsum written without weights splits into "", which Double.parseDouble rejects |
| QrySopWsum.WeightsOfParserString | QryEval/QrySopWsum.java:14-20 | when every weight token parses, the weights of the parser's string are those tokens' values, in order |
| QrySopWsum.GetDoubleWeights | QryEval/QrySopWsum.java:14-20 | the loop computes Weights, including its NumberFormatException |
| QrySopWsum.GetSumWeight | QryEval/QrySopWsum.java:22-28 | the loop computes the sum of the weights, or the same NumberFormatException |
| QrySopWsum.WeightedTerms | QryEval/QrySopWsum.java:64-81 | each term is weight/total times the argument's value |
| QrySopWsum.Score | QryEval/QrySopWsum.java:32-81 | Indri only; unmatched gives 0; then a malformed weight string is NumberFormatException; fewer weights than arguments is an index error; otherwise the weighted mean of score-or-default |
| QrySopWsum.DefaultScore | QryEval/QrySopWsum.java:42-57 | Indri only; the weighted mean of the defaults, with the same NumberFormatException and index error |
| QrySopWsum.WeightlessWsumRejected | QryEval/QrySopWsum.java:42-81 | a #wsum without weights fails with NumberFormatException on every matched document and in every default score |
| QrySopWsum.SumOfScaledConstant | QryEval/QrySopWsum.java:64-81 | weighting a constant c gives c scaled by (sum of weights)/total |
| QrySopWsum.WeightedMeanOfEqualContributions | QryEval/QrySopWsum.java:64-81 | when every argument contributes c, the WSUM score is c |
| QrySopWsum.UnmatchedArgumentsGiveDefault | QryEval/QrySopWsum.java:64-81 | with no argument on the document, the score is the default score |
| QrySopWsum.WeightedAccumulate | QryEval/QrySopWsum.java:64-81 | the loop's weighted sum, or the index error when the weights run out |
| QrySopWsum.GetScore | QryEval/QrySopWsum.java:32-40 | reading the weights and accumulating computes Score |
| QrySopWsum.GetDefaultScore | QryEval/QrySopWsum.java:42-57 | reading the weights and accumulating computes DefaultScore |
| QryEval.QueryIdOf | QryEval/QryEval.java:349 | the text before the first '.', and an error exactly when there is no dot |
| QryEval.QueryIdOfIntentId | QryEval/QryEval.java:349 | the query id of "qid.j" is qid |
| QryEval.ParseIntentId | QryEval/QryEval.java:394-396 | the query id and the 32-bit intent number from "qid.j"; a missing second field or a bad number is an error |
| QryEval.ParseIntentIdRoundTrip | QryEval/QryEval.java:394-396 | "qid.j" gives back qid and j |
| QryEval.Lookup | QryEval/QryEval.java:350 | relevanceList.get: the ranking stored under the key, and null exactly when the key is absent |
| QryEval.MaxRestrictedSum | QryEval/QryEval.java:358-375 | the largest restricted sum over all rankings, and 0 when none is positive |
| QryEval.NormalizationScale | QryEval/QryEval.java:376-378 | the divisor is at least 1 and at least every restricted sum, and is one of them unless it is 1 |
| QryEval.ScaledScores | QryEval/QryEval.java:380-387 | each score divided by the scale |
| QryEval.BuildTableKeys | QryEval/QryEval.java:358-374 | the table's documents are the candidates that occur in some ranking |
| QryEval.NormalizedKeysAreCandidates | QryEval/QryEval.java:348-390 | the normalized table holds exactly the candidates |
| QryEval.BuildTableWithin | QryEval/QryEval.java:358-374 | with non-negative scores, every stored score lies in [0, largest restricted sum] |
| QryEval.NormalizedScoresInUnitInterval | QryEval/QryEval.java:348-390 | with non-negative scores, every normalized score lies in [0, 1] |
| QryEval.ScaleLiveScores | QryEval/QryEval.java:381-386 | the document's live score list is divided by the scale in place; intents unchanged |
| QryEval.AddCandidates | QryEval/QryEval.java:361-371 | one ranking's candidate entries are added to the table, and its restricted sum is returned |
| QryEval.BuildDiversityList | QryEval/QryEval.java:358-375 | the table built from every ranking, and the largest restricted sum |
| QryEval.ScaleCandidates | QryEval/QryEval.java:380-387 | every candidate's scores are divided by the scale; nothing else changes |
| QryEval.CandidateSet | QryEval/QryEval.java:353-356 | the docids of the first min(maxLength, size) entries of the query's ranking |
| QryEval.Normalize | QryEval/QryEval.java:348-390 | an error for an id without a dot or a query without a ranking; otherwise a fresh table equal to the normalization specification |
| QryEval.PWithinUnit | QryEval/QryEval.java:413-422 | a normalized table gives every P(d given intent) in [0, 1] |
| QryEval.BestOf | QryEval/QryEval.java:424-426 | a document of maximal score, with that score |
| QryEval.InitialCoverage | QryEval/QryEval.java:406-408 | every intent's coverage starts at 1 |
| QryEval.DivTerms | QryEval/QryEval.java:413-422 | per intent: weight times P(d given intent) times that intent's coverage |
| QryEval.UpdateCoverage | QryEval/QryEval.java:428-431 | each coverage is multiplied by 1 - P(best given intent) |
| QryEval.CoverageDecays | QryEval/QryEval.java:428-431 | on a normalized table a coverage never grows and never goes below 0 |
| QryEval.CoverageWithinUnit | QryEval/QryEval.java:406-431 | coverage stays in [0, 1] after any picks |
| QryEval.XQuadPicksDistinct | QryEval/QryEval.java:432-433 | xQuAD never picks a document twice, and picks only table documents |
| QryEval.XQuadRunStep | QryEval/QryEval.java:410-435 | a round's pick extends the run; the coverage and the pool follow it |
| QryEval.XQuadDivSum | QryEval/QryEval.java:413-422 | the loop computes the sum of the diversity terms |
| QryEval.XQuadRound | QryEval/QryEval.java:411-423 | every remaining document is scored (1 - lambda)·P(d given qid) + lambda·divSum |
| QryEval.XQuadCoverage | QryEval/QryEval.java:428-431 | the loop computes the coverage update |
| QryEval.XQuadPick | QryEval/QryEval.java:411-433 | a round picks a maximal-score document, removes it and updates coverage |
| QryEval.XQuadStep | QryEval/QryEval.java:410-435 | one round keeps the run invariant and shrinks the pool by one |
| QryEval.XQuad | QryEval/QryEval.java:404-437 | maxOutputLength picks, each the best of its round given the earlier ones; exactly the picked documents leave the table |
| QryEval.InitialSlots | QryEval/QryEval.java:444-448 | every intent's slot starts at 0 |
| QryEval.Quotients | QryEval/QryEval.java:455-466 | each intent's quotient is vote / (2·slot + 1) |
| QryEval.MaxQuotient | QryEval/QryEval.java:455-466 | the first intent of maximal quotient and that quotient; intent 1 when every quotient is 0 |
| QryEval.OtherTerms | QryEval/QryEval.java:469-475 | the other intents' quotient·P(d given intent), with the winning intent counting 0 |
| QryEval.IntentScores | QryEval/QryEval.java:488-495 | P(d given intent) for intents 1..n |
| QryEval.UpdateSlots | QryEval/QryEval.java:488-495 | each slot gains that intent's share of the picked document's relevance |
| QryEval.SlotCreditPerRound | QryEval/QryEval.java:488-495 | a round adds exactly 1 to the total slot credit |
| QryEval.SlotsStayNonNegative | QryEval/QryEval.java:488-495 | slots never go negative |
| QryEval.SlotsTotal | QryEval/QryEval.java:441-500 | after k picks, each with some intent score, the slots stay non-negative and sum to k |
| QryEval.LargestQuotientIsLeastServed | QryEval/QryEval.java:455-466 | with a positive vote, the chosen intent has the fewest slots |
| QryEval.QuotientAntitone | QryEval/QryEval.java:455-466 | fewer slots give a larger quotient, and equal slots an equal one |
| QryEval.PM2RunStep | QryEval/QryEval.java:451-500 | a round's pick with some intent score extends the run; the slots and the pool follow it |
| QryEval.PM2RunNext | QryEval/QryEval.java:484-500 | a round's best pick extends the run when it has intent score, and otherwise leaves the run stuck at it |
| QryEval.PM2RunStuck | QryEval/QryEval.java:488-494 | a best pick without intent score is where the slot update would divide 0 by 0 |
| QryEval.StuckRunNeedsMasslessDocument | QryEval/QryEval.java:488-494 | the loop can stop early only on a table with a document that has no intent score |
| QryEval.PM2Quotients | QryEval/QryEval.java:455-466 | the loop computes the quotients and the first maximal one |
| QryEval.PM2Coverage | QryEval/QryEval.java:469-475 | the loop computes the sum over the other intents |
| QryEval.PM2DocScore | QryEval/QryEval.java:469-478 | lambda·qt[max]·P(d given max) + (1 - lambda)·coverage |
| QryEval.PM2Round | QryEval/QryEval.java:452-482 | every remaining document is scored by the PM2 formula |
| QryEval.IntentMass | QryEval/QryEval.java:488-490 | the loop computes the sum of the picked document's intent scores |
| QryEval.PM2Slots | QryEval/QryEval.java:488-495 | the loop computes the slot update |
| QryEval.PM2Pick | QryEval/QryEval.java:452-498 | a round picks a maximal-score document and removes it; the slots are updated exactly when that document has some intent score |
| QryEval.PM2Step | QryEval/QryEval.java:451-500 | one round shrinks the pool by one, and either keeps the run invariant or ends in a stuck run |
| QryEval.PM2 | QryEval/QryEval.java:441-502 | maxOutputLength picks, each the best of its round given the slots so far, or ZeroIntentMass with the run up to a pick without intent score; exactly the picked documents leave the table |
| QryEval.ProcessDiversityList | QryEval/QryEval.java:393-508 | a malformed intent id or unknown algorithm is an error that changes nothing; otherwise the xQuAD run, or the PM2 run or its ZeroIntentMass stop, with weight 1/intentNum |
| QryEval.DropThrough | QryEval/QryEval.java:166 | advancePast skips every docid up to the current one |
| QryEval.Collect | QryEval/QryEval.java:162-167 | the ranking starts with the first match and its score, and is empty exactly when the stream is |
| QryEval.CollectFromStream | QryEval/QryEval.java:162-167 | every result is a match of the stream with the root's score for it |
| QryEval.CollectIncreasing | QryEval/QryEval.java:162-167 | result docids strictly ascend |
| QryEval.CollectAscending | QryEval/QryEval.java:162-167 | over an ascending stream, every match is collected once, in order |
| QryEval.CollectResults | QryEval/QryEval.java:162-167 | the loop computes Collect |
| QryEval.LetorQueryRejected | QryEval/QryEval.java:146-148 | under learning-to-rank, "null(query)" never parses |
| QryEval.NullIsNoOperator | QryEval/QryParser.java:128-131 | "null" is no operator name |
| QryEval.NullQueryRejected | QryEval/QryEval.java:146-148 | "null(" + query + ")" does not parse, whatever the query |
| QryEval.ProcessQuery | QryEval/QryEval.java:143-173 | a parse error propagates; a query optimized away gives null; a query without arguments gives an empty ranking; otherwise the collected ranking (with the corrected popSubquery of ## Findings) |

## Left out

- Files outside the model:
  - Reading the parameter file and the query file, writing rankings (`printResults`) and `main`: file I/O. The parameters arrive already parsed; parameter strings are taken as numbers.
  - `InspectIndex.java`, `FeatureVector.java` and `QrySopWand.java`: outside the modelled core.
  - `Qry.java`, `QrySop.java`, `QryIop.java`, `ScoreList.java`, `InvList.java`, `Idx.java` and the Lucene index are not part of this model.
  - `RetrievalModelUnrankedBoolean.java` and `RetrievalModelRankedBoolean.java` are not part of this model. `RetrievalModels.DefaultOperatorText` takes `#or` as their default operator.
  - Their behaviour enters as parameters or cursors:
    - a document iterator is the ascending docid list it walks;
    - an inverted list is a sequence of postings;
    - a position cursor is an index into a posting's positions, exhausted at the posting's original length.
- `QrySop.appendArg` is not part of this model. `QryParser.AppendArg` takes the framework's rule: an inverted-list argument of a score operator is wrapped in `#score`.
- Tokenization (`tokenizeString`, Lucene analysis) is a function parameter of the parser.
- `Math.log`, `Math.pow` and `Double.parseDouble` are function parameters. `Double.parseDouble` returns None where it throws NumberFormatException.
- Doubles are exact reals, with no rounding, NaN or infinity. Where the source divides, a precondition keeps the divisor away from zero: `BM25Defined`, `IndriDefined` and `WeightsUsable` for the score formulas.
- `QrySopWsum.Score`, `QrySopWsum.DefaultScore`: require, through `WeightsUsable`, that weights covering every argument do not add up to zero. The source then divides by a zero total and yields an infinity or NaN.
- `QryEval.PM2`, `QryEval.ProcessDiversityList`: when a round's best document has no intent score, the source divides 0 by 0 and carries NaN slots into later rounds. The model stops there with `ZeroIntentMass` and the run so far. It does not model the later NaN rounds.
- `QryEval.PM2`, `QryEval.ProcessDiversityList`: require a table of non-negative scores, as `Normalize` produces from rankings of non-negative scores (`NormalizedScoresInUnitInterval`); an initial ranking with negative scores gives a negative table. Slots then stay non-negative, so every quotient's divisor 2·slot+1 is at least 1.
- `QryEval.Weight`: 1/intentNum is taken as 0 for a non-positive intentNum. It is only read inside loops over 1..intentNum, which are then empty.
- `QryEval.XQuad`, `QryEval.PM2`, `QryEval.ProcessDiversityList`: require maxOutputLength to be at most the number of candidates. The source would then run out of documents and fail inside the unshown `ScoreList`.
- Ties between documents of equal diversified score may go either way: any maximal document is a valid pick. `ScoreList.sort`'s tie order is not part of this model.
- HashMap iteration order is taken as the order of a sequence of (id, ranking) entries.
- `QryEval.ProcessQuery`: the root operator's docid stream and its score per document are parameters. The iterator machinery of the query tree is the unshown `Qry.java`.
- `QryIopNear.EvaluateNear`: `iniloc` is the first child's live position vector. The source removes from it in place, and `clear()` empties the posting itself. The model keeps a separate queue of starts and does not capture that aliasing on the shared inverted list.
- `QryIopNear.EvaluateNear`, `QryIopWindow.EvaluateWindow`: with fewer than two children the source leaves the inverted list unset rather than empty. The model returns None for it.
- `QryParser.CreateOperator`, `QryParser.SplitField`, `RetrievalModels.InitializeRetrievalModel`: lower-case only the ASCII letters 'A'-'Z'. Java's `String.toLowerCase()` is Unicode- and locale-aware (U+212A KELVIN SIGN lowers to 'k'), so a field, operator or model name using such characters is rejected by the model where the source accepts it.
- `QryParser.ParseInt` covers `Integer.parseInt` over ASCII digits only; other Unicode digits are not modelled.

## Findings

| source | as written | input that shows it | evidently intended | confidence | as-written member | corrected member |
|---|---|---|---|---|---|---|
| QryEval/QryParser.java:388-400 | when no `)` balances the subquery, the fallback index is the string's length, and `substring(0, length + 1)` throws StringIndexOutOfBoundsException instead of letting the parser report the error | "#and(#or a)" passes the count and balance checks, and its argument "#or a" has no balancing paren | pop the whole remaining string, so the subquery's own paren check reports a syntax error | not executed | QryParser.PopSubqueryAsWritten, QryParser.PopSubqueryAsWrittenThrows | QryParser.PopSubquery, QryParser.FindingQueryRejected |
